/** No lost wake-ups: queued output always has Write interest registered, as long as decodes succeed. */
module Wakeups {
  import opened Bounds
  import opened Bytes
  import opened Sessions
  import opened Policy
  import opened Bmt
  import opened Protocol
  import opened Batch
  import opened NonInterference
  import opened TickSpec
  import opened SessionManagement
  import opened Lifecycle
  import opened Histories
  import opened Runs

  ghost predicate Armed(w: State) {
    forall fd :: fd in w.pool && w.pool[fd].tx != [] ==> fd in w.writers
  }

  lemma FlushedKeepsArmed(w: State, fd: Fd)
    requires Armed(w) && fd in w.pool && w.pool[fd].tx == []
    ensures Armed(Flushed(w, fd))
  {
  }

  /** `on_readable` asks for a write whenever it has queued something. */
  lemma ReadAsksForWrite(m: LanguageModel, cfg: Config, s: ClientSession, nextSeq: nat, ev: ReadEvent, metrics: bytes)
    ensures var out := AfterRequest(m, cfg, s, nextSeq, ev, metrics);
            out.wantsWrite || out.s.tx == s.tx
  {
    hide AfterRequest;
    RequestEffect(m, cfg, s, nextSeq, ev, metrics);
  }

  lemma ReadableKeepsArmed(m: LanguageModel, cfg: Config, w: State, fd: Fd, ev: ReadEvent, metrics: bytes, wrote: nat)
    requires Armed(w) && fd in w.pool
    ensures Armed(NextReadable(m, cfg, w, fd, ev, metrics, wrote))
  {
    hide AfterRequest;
    ReadAsksForWrite(m, cfg, w.pool[fd], w.nextSeq, ev, metrics);
    var out := AfterRequest(m, cfg, w.pool[fd], w.nextSeq, ev, metrics);
    if out.wantsWrite {
      var s := out.s.(tx := out.s.tx[Min(wrote, |out.s.tx|)..]);
      if s.tx == [] {
        var w1 := w.(pool := w.pool[fd := s], nextSeq := out.nextSeq,
                     readers := if out.removedRead then w.readers - {fd} else w.readers);
        FlushedKeepsArmed(w1, fd);
      }
    }
  }

  lemma WritableKeepsArmed(w: State, fd: Fd, writes: seq<nat>, broken: bool, now: nat)
    requires Armed(w) && fd in w.pool
    ensures Armed(NextWritable(w, fd, writes, broken, now))
  {
    UnsentIsSuffix(w.pool[fd].tx, writes);
    hide Unsent, WithoutSeq;
  }

  /** The writers after a tick. */
  lemma TickWriters(m: LanguageModel, cfg: Config, w: State, env: TickEnv, items: seq<BatchItem>, fd: Fd)
    requires AllEnactable(w.pool, items) && DistinctSeqs(w.pool) && Armed(w) && fd in w.pool
    ensures var e := RunBatch(m, cfg, env, w.kv, w.pool, items);
            && fd in e.pool
            && (env.ok && e.pool[fd].tx != [] ==> fd in w.writers || fd in e.arm)
            && (!env.ok ==> fd !in e.arm)
            && (!env.ok && ServedFd(items, fd) ==> e.pool[fd].tx != [])
            && (!ServedFd(items, fd) ==> e.pool[fd].tx == w.pool[fd].tx)
  {
    hide RunBatch, TokenOf, Ticked;
    var i := ItemFor(items, fd);
    if i >= 0 { OnlyItem(items, fd, i); }
    if i >= 0 && Chunk(items[i]) > 0 {
      BusySession(m, cfg, env, w.kv, w.pool, items, i);
      TickedTx(m, cfg, env, CellsOf(w.kv, w.pool[fd].seqId), w.pool[fd], items[i]);
    } else {
      IdleSession(m, cfg, env, w.kv, w.pool, items, fd);
    }
  }

  /** The session puts rows into this batch. */
  ghost predicate ServedFd(items: seq<BatchItem>, fd: Fd) {
    exists i :: 0 <= i < |items| && items[i].fd == fd && Chunk(items[i]) > 0
  }

  lemma TickedTx(m: LanguageModel, cfg: Config, env: TickEnv, cells: seq<Cell>, s: ClientSession, it: BatchItem)
    requires CanFeed(s, it) && Chunk(it) > 0
    ensures var t := Ticked(m, cfg, env, cells, s, it);
            && (env.ok && it.fd in env.nullRows ==> t.tx == s.tx)
            && (!env.ok ==> t.tx != [])
  {
    hide TokenOf, Payload, Ends, SampleEvents;
    if !env.ok {
      var es := [FailureEvent(Enacted(s, it))];
      assert Wire(es) == Wire(es[..0]) + Frame(Payload(es[0]));
    }
  }

  /** A tick whose decode succeeds arms everything that has output. */
  lemma GoodTickKeepsArmed(m: LanguageModel, cfg: Config, w: State, h: History, env: TickEnv)
    requires Inv(m, cfg, w, h) && Armed(w) && Enumerates(env.order, w.pool) && env.ok
    ensures Armed(NextTick(m, cfg, w, env))
  {
    hide FinalPlan, RunBatch, NextSched;
    var items := FinalPlan(cfg, w.pool, w.sched, env.order).items;
    InvPoolOk(m, cfg, w, h);
    FinalPlanItems(cfg, w.pool, w.sched, env.order);
    FinalItemsEnactable(w.pool, items);
    TickKeys(m, cfg, w, h, env, items);
    forall fd | fd in w.pool && NextTick(m, cfg, w, env).pool[fd].tx != [] ensures fd in NextTick(m, cfg, w, env).writers {
      TickWriters(m, cfg, w, env, items, fd);
    }
  }

  /**
   The failure path queues an error event but returns no descriptor: after a failed decode the
   wake-up is lost exactly for the sessions of the batch without Write interest.
   */
  lemma FailedTickArmedIff(m: LanguageModel, cfg: Config, w: State, h: History, env: TickEnv)
    requires Inv(m, cfg, w, h) && Armed(w) && Enumerates(env.order, w.pool) && !env.ok
    ensures Armed(NextTick(m, cfg, w, env))
       <==> forall fd :: fd in w.pool && ServedFd(FinalPlan(cfg, w.pool, w.sched, env.order).items, fd) ==> fd in w.writers
  {
    hide FinalPlan, RunBatch, NextSched;
    var items := FinalPlan(cfg, w.pool, w.sched, env.order).items;
    InvPoolOk(m, cfg, w, h);
    FinalPlanItems(cfg, w.pool, w.sched, env.order);
    FinalItemsEnactable(w.pool, items);
    TickKeys(m, cfg, w, h, env, items);
    var w1 := NextTick(m, cfg, w, env);
    forall fd | fd in w.pool
      ensures fd in w1.pool && (fd in w1.writers <==> fd in w.writers)
      ensures ServedFd(items, fd) ==> w1.pool[fd].tx != []
      ensures !ServedFd(items, fd) ==> w1.pool[fd].tx == w.pool[fd].tx
    {
      TickWriters(m, cfg, w, env, items, fd);
    }
  }

  /** Every step with successful decodes keeps output armed. */
  lemma StepKeepsArmed(m: LanguageModel, cfg: Config, w: State, h: History, step: Step)
    requires Inv(m, cfg, w, h) && Armed(w) && Possible(w, step) && (step.Tick? ==> step.env.ok)
    ensures Armed(Next(m, cfg, w, step))
  {
    hide Inv, NextTick, NextReadable, NextWritable;
    match step {
      case Accept(fd, now) =>
      case Readable(fd, ev, metrics, wrote) =>
        if fd in w.pool { ReadableKeepsArmed(m, cfg, w, fd, ev, metrics, wrote); } else { UnknownFd(m, cfg, w, step); }
      case Writable(fd, writes, broken, now) =>
        if fd in w.pool { WritableKeepsArmed(w, fd, writes, broken, now); } else { UnknownFd(m, cfg, w, step); }
      case IdleSweep(now) =>
      case Tick(env) => GoodTickKeepsArmed(m, cfg, w, h, env);
    }
  }

  /** In every run whose decodes succeed, queued output has Write interest registered. */
  lemma {:induction false} NoLostWakeups(m: LanguageModel, cfg: Config, cap: int, steps: seq<Step>)
    requires cap >= 1 && Legal(m, cfg, cap, steps) && forall i :: 0 <= i < |steps| && steps[i].Tick? ==> steps[i].env.ok
    ensures Armed(After(m, cfg, cap, steps).state)
  {
    hide Inv, Next, NextHistory, Possible, Polite;
    if steps != [] {
      var n := |steps| - 1;
      var x := After(m, cfg, cap, steps[..n]);
      NoLostWakeups(m, cfg, cap, steps[..n]);
      RunKeepsInv(m, cfg, cap, steps[..n]);
      StepKeepsArmed(m, cfg, x.state, x.history, steps[n]);
    }
  }
}
