/**
 The event loop of umad/main.cpp as it runs: handlers that change the session map, the poller,
 the KV memory and the scheduler. Each handler is proved to be one step of the transition system
 in `Lifecycle`, so what is proved of all runs holds of these objects after every event.
 */
module Daemons {
  import opened Bounds
  import opened Bytes
  import opened Sessions
  import opened Protocol
  import opened Batch
  import opened TickSpec
  import opened SessionManagement
  import opened Scheduling
  import opened Lifecycle
  import opened Histories
  import opened Runs
  import opened Invariants
  import Solo

  /** `n_past` is an `int32_t`: no prompt of accepted size is longer than that with its answer. */
  ghost predicate Bounded(m: LanguageModel, cfg: Config) {
    forall text :: |text| <= cfg.maxPromptBytes ==> |m.tokenize(text)| + cfg.maxTokens < 0x8000_0000
  }

  class Daemon {
    const m: LanguageModel
    const cfg: Config
    const mgr: SessionManager
    const poller: Poller
    const ctx: LlamaContext
    const scheduler: Scheduler
    ghost var past: seq<Step>

    constructor (model: LanguageModel, config: Config, batchCap: int)
      requires 1 <= batchCap < 0x8000_0000 && Bounded(model, config)
      ensures Valid() && past == [] && State() == InitialState(batchCap)
      ensures fresh(mgr) && fresh(poller) && fresh(ctx) && fresh(scheduler)
    {
      m, cfg := model, config;
      mgr := new SessionManager();
      poller := new Poller();
      ctx := new LlamaContext();
      scheduler := new Scheduler(batchCap);
      past := [];
    }

    function State(): State
      reads mgr, poller, ctx, scheduler
    {
      Lifecycle.State(mgr.sessions, mgr.nextSeqId, ctx.kv, poller.readers, poller.writers, scheduler.State())
    }

    /** The objects are in the state that the steps so far lead to. */
    ghost predicate Valid()
      reads this, mgr, poller, ctx, scheduler
    {
      && 1 <= scheduler.cap < 0x8000_0000 && Bounded(m, cfg)
      && Legal(m, cfg, scheduler.cap, past)
      && State() == After(m, cfg, scheduler.cap, past).state
    }

    /** A new client, unless the pool is full. */
    method HandleAccept(fd: Fd, now: nat)
      modifies mgr`sessions, poller`readers
      ensures State() == NextAccept(cfg, old(State()), fd, now)
    {
      if |mgr.sessions| < cfg.maxSessions {
        mgr.AddClient(fd, now);
        poller.readers := poller.readers + {fd};
      }
    }

    /** A session whose output has been flushed. Reports whether it waits for another request. */
    method FinishFlushed(fd: Fd) returns (reset: bool)
      requires fd in mgr.sessions
      modifies mgr`sessions, poller, ctx`kv
      ensures State() == Flushed(old(State()), fd)
      ensures reset <==> fd in mgr.sessions && old(mgr.sessions[fd].state.Stream?)
    {
      var s := mgr.sessions[fd];
      reset := false;
      if s.state.Errored? {
        mgr.Close(fd, poller, ctx);
      } else if s.state.Stream? {
        if s.readClosed {
          mgr.Close(fd, poller, ctx);
        } else {
          mgr.sessions := mgr.sessions[fd := s.(state := RecvReq, promptTokens := [], prefillIdx := 0, generatedCount := 0,
                                                hasPendingTok := false, nPast := 0, firstEmitNs := 0)];
          reset := true;
        }
      }
    }

    /** An immediate write of queued output; Write interest for what is left. */
    method WriteAtOnce(fd: Fd, wrote: nat)
      requires fd in mgr.sessions
      modifies mgr`sessions, poller, ctx`kv
      ensures State() == WriteNow(old(State()), fd, wrote)
    {
      var s := mgr.sessions[fd];
      mgr.sessions := mgr.sessions[fd := s.(tx := s.tx[Min(wrote, |s.tx|)..])];
      if mgr.sessions[fd].tx != [] {
        poller.writers := poller.writers + {fd};
      } else {
        var reset := FinishFlushed(fd);
        if reset {
          poller.readers := poller.readers + {fd};
        }
      }
    }

    /** Read, and answer an admin request with the metrics. */
    method ReadRequest(fd: Fd, ev: ReadEvent, metrics: bytes) returns (rr: ReadResult)
      requires fd in mgr.sessions
      modifies mgr, poller`readers
      ensures var w := old(State());
              var out := AfterRequest(m, cfg, w.pool[fd], w.nextSeq, ev, metrics);
              && State() == w.(pool := w.pool[fd := out.s], nextSeq := out.nextSeq,
                               readers := if out.removedRead then w.readers - {fd} else w.readers)
              && rr.wantsWrite == out.wantsWrite
    {
      AdminStopsReading(m, cfg, mgr.sessions[fd], mgr.nextSeqId, ev);
      hide OnReadable, Wire;
      rr := mgr.Read(m, cfg, fd, ev);
      if rr.admin {
        var s := mgr.sessions[fd];
        mgr.sessions := mgr.sessions[fd := s.(tx := s.tx + Wire([Snapshot(metrics)]), state := Stream, readClosed := true)];
      }
      if rr.removedRead {
        poller.readers := poller.readers - {fd};
      }
    }

    /** Input on a client socket: read, and write at once what can be written. */
    method HandleReadable(fd: Fd, ev: ReadEvent, metrics: bytes, wrote: nat)
      modifies mgr, poller, ctx`kv
      ensures State() == NextReadable(m, cfg, old(State()), fd, ev, metrics, wrote)
    {
      hide AfterRequest, WriteNow;
      if fd in mgr.sessions {
        var rr := ReadRequest(fd, ev, metrics);
        if rr.wantsWrite {
          WriteAtOnce(fd, wrote);
        }
      }
    }

    /** The write loop: `writes` is what the socket takes, call by call, until it blocks or breaks. */
    method WriteLoop(fd: Fd, writes: seq<nat>, now: nat)
      requires fd in mgr.sessions
      modifies mgr`sessions
      ensures mgr.sessions == old(mgr.sessions)[fd := Written(old(mgr.sessions)[fd], writes, now)]
    {
      ghost var was := mgr.sessions;
      var s, i := mgr.sessions[fd], 0;
      while s.tx != [] && i < |writes|
        invariant i <= |writes| && fd in mgr.sessions && s == mgr.sessions[fd]
        invariant Unsent(was[fd].tx, writes) == Unsent(s.tx, writes[i..])
        invariant mgr.sessions == was[fd := s]
        invariant s == was[fd].(tx := s.tx, lastActivityNs := if i > 0 then now else was[fd].lastActivityNs)
        invariant if i == 0 then s == was[fd] else was[fd].tx != []
      {
        var n := Min(writes[i], |s.tx|);
        assert writes[i..][1..] == writes[i + 1..];
        s := s.(tx := s.tx[n..], lastActivityNs := now);
        mgr.sessions := mgr.sessions[fd := s];
        i := i + 1;
      }
    }

    method HandleWritable(fd: Fd, writes: seq<nat>, broken: bool, now: nat)
      modifies mgr`sessions, poller, ctx`kv
      ensures State() == NextWritable(old(State()), fd, writes, broken, now)
    {
      if fd in mgr.sessions {
        WriteLoop(fd, writes, now);
        if mgr.sessions[fd].tx == [] {
          poller.writers := poller.writers - {fd};
          var reset := FinishFlushed(fd);
        } else if broken {
          mgr.Close(fd, poller, ctx);
        }
      }
    }

    /** Close what has been idle for too long. */
    method SweepIdle(now: nat)
      modifies mgr`sessions, poller, ctx`kv
      ensures State() == NextIdle(cfg, old(State()), now)
    {
      ghost var w := State();
      var toClose := CollectIdle(cfg, mgr.sessions, now);
      for i := 0 to |toClose|
        invariant State() == CloseAll(w, toClose[..i])
      {
        assert toClose[..i + 1][..i] == toClose[..i];
        mgr.Close(toClose[i], poller, ctx);
      }
      assert toClose[..|toClose|] == toClose;
      SweepIsNext(cfg, w, toClose, now);
    }

    /** Write interest for the reported sessions that have output. */
    method Arm(fds: seq<Fd>)
      modifies poller`writers
      ensures poller.writers == old(poller.writers) + (set fd | fd in fds && fd in mgr.sessions && mgr.sessions[fd].tx != [])
    {
      for i := 0 to |fds|
        invariant poller.writers == old(poller.writers) + (set fd | fd in fds[..i] && fd in mgr.sessions && mgr.sessions[fd].tx != [])
      {
        assert fds[..i + 1] == fds[..i] + [fds[i]];
        var fd := fds[i];
        if fd in mgr.sessions && mgr.sessions[fd].tx != [] {
          poller.writers := poller.writers + {fd};
        }
      }
      assert fds[..|fds|] == fds;
    }

    /** One tick, and Write interest for the sessions that it reports. */
    method RunTick(env: TickEnv)
      requires Enumerates(env.order, mgr.sessions) && PoolOk(mgr.sessions) && Fits32(mgr.sessions)
      requires scheduler.targetBatch < 0x8000_0000
      modifies mgr`sessions, poller`writers, ctx, scheduler
      ensures State() == NextTick(m, cfg, old(State()), env)
    {
      hide FinalPlan, RunBatch, NextSched;
      var arm, plan, size := scheduler.Tick(m, cfg, mgr, ctx, env);
      Arm(arm);
    }

    /** The handler for a step changes the objects as the transition system says. */
    method Dispatch(step: Step)
      requires Possible(State(), step)
      requires step.Tick? ==> PoolOk(mgr.sessions) && Fits32(mgr.sessions) && scheduler.targetBatch < 0x8000_0000
      modifies mgr, poller, ctx, scheduler
      ensures State() == Next(m, cfg, old(State()), step)
    {
      hide NextAccept, NextReadable, NextWritable, NextIdle, NextTick;
      match step {
        case Accept(fd, now) => HandleAccept(fd, now);
        case Readable(fd, ev, metrics, wrote) => HandleReadable(fd, ev, metrics, wrote);
        case Writable(fd, writes, broken, now) => HandleWritable(fd, writes, broken, now);
        case IdleSweep(now) => SweepIdle(now);
        case Tick(env) => RunTick(env);
      }
    }

    /** One step of a legal run. */
    method Handle(step: Step)
      requires Valid() && Possible(State(), step) && Polite(State(), step)
      modifies this, mgr, poller, ctx, scheduler
      ensures Valid() && past == old(past) + [step] && State() == Next(m, cfg, old(State()), step)
    {
      ReadyToTick(m, cfg, scheduler.cap, past);
      LegalSnoc(m, cfg, scheduler.cap, past, step);
      hide After, Legal, Next, Possible, Polite, PoolOk, Fits32;
      Dispatch(step);
      past := past + [step];
    }

    /** The reported events, one after the other. */
    method HandleAll(events: seq<Step>)
      requires Valid() && Legal(m, cfg, scheduler.cap, past + events)
      modifies this, mgr, poller, ctx, scheduler
      ensures Valid() && past == old(past) + events
    {
      hide After, Legal, Next, Possible, Polite, Bounded;
      assert events[..0] == [];
      for i := 0 to |events|
        invariant Valid() && past == old(past) + events[..i]
      {
        LegalNext(m, cfg, scheduler.cap, old(past), events, i);
        Handle(events[i]);
        assert events[..i + 1] == events[..i] + [events[i]];
      }
      assert events[..|events|] == events;
    }

    /** One iteration of the loop: the reported events, the idle sweep, the tick. */
    method Iterate(events: seq<Step>, now: nat, env: TickEnv)
      requires Valid() && Legal(m, cfg, scheduler.cap, past + events + [IdleSweep(now), Tick(env)])
      modifies this, mgr, poller, ctx, scheduler
      ensures Valid() && past == old(past) + events + [IdleSweep(now), Tick(env)]
    {
      hide *;
      var steps := events + [IdleSweep(now), Tick(env)];
      assert past + events + [IdleSweep(now), Tick(env)] == past + steps;
      HandleAll(steps);
      assert past == old(past) + events + [IdleSweep(now), Tick(env)];
    }
  }

  // ---------------------------------------------------------------- runs

  /** In every run the scheduler finds what `tick` needs. */
  lemma ReadyToTick(m: LanguageModel, cfg: Config, cap: int, past: seq<Step>)
    requires cap >= 1 && Legal(m, cfg, cap, past) && Bounded(m, cfg)
    ensures var w := After(m, cfg, cap, past).state;
            PoolOk(w.pool) && Fits32(w.pool) && w.sched.tuning.target <= Max(8, w.sched.cap)
  {
    hide After, Legal, Bounded, SessionsOk, LogsOk;
    var x := After(m, cfg, cap, past);
    RunKeepsInv(m, cfg, cap, past);
    InvPoolOk(m, cfg, x.state, x.history);
    forall fd | fd in x.state.pool && (DecodeReady(x.state.pool[fd]) || PrefillReady(x.state.pool[fd]))
      ensures x.state.pool[fd].nPast < 0x8000_0000
    {
      LoggedSessions(m, cfg, x.state, x.history, fd);
      PastIsBounded(m, cfg, x.state.pool[fd], SeqCells(x.state.kv, x.state.pool[fd]), x.history.logs[fd]);
    }
  }

  /** A session that is being served is never past its prompt and `max_tokens` samples. */
  lemma PastIsBounded(m: LanguageModel, cfg: Config, s: ClientSession, cells: seq<Cell>, log: Log)
    requires SessionOk(m, cfg, s, cells, log) && (DecodeReady(s) || PrefillReady(s)) && Bounded(m, cfg)
    ensures s.nPast <= |s.promptTokens| + cfg.maxTokens < 0x8000_0000
  {
    hide WireOk;
    var e := Last(log.entries);
    assert EntryOk(m, cfg, e);
    Solo.DecodeBound(m, cfg.maxTokens, e.fed, e.params, e.draws);
    hide Solo.Decode, EntriesOk;
    assert s.promptTokens != [];
    var text :| |text| <= cfg.maxPromptBytes && s.promptTokens == m.tokenize(text);
  }

  // ---------------------------------------------------------------- idle sweep

  /** The sessions that the sweep closes, in whatever order the map is iterated. */
  method CollectIdle(cfg: Config, pool: Pool, now: nat) returns (toClose: seq<Fd>)
    ensures forall fd :: fd in toClose <==> fd in IdleFds(cfg, pool, now)
  {
    toClose := [];
    var todo := pool.Keys;
    while todo != {}
      invariant todo <= pool.Keys
      invariant forall fd :: fd in toClose <==> fd in IdleFds(cfg, pool, now) && fd !in todo
      decreases |todo|
    {
      var fd :| fd in todo;
      if cfg.idleNs > 0 && now - pool[fd].lastActivityNs > cfg.idleNs {
        toClose := toClose + [fd];
      }
      todo := todo - {fd};
    }
  }

  /** Closing a list of sessions one by one. */
  function CloseAll(w: State, fds: seq<Fd>): State {
    if fds == [] then w else CloseFd(CloseAll(w, fds[..|fds| - 1]), fds[|fds| - 1])
  }

  function FdSet(fds: seq<Fd>): set<Fd> {
    set fd | fd in fds
  }

  /** One more session is closed. */
  lemma CloseMore(w: State, gone: set<Fd>, fd: Fd)
    ensures CloseFd(Without(w, gone), fd) == Without(w, gone + {fd})
  {
    assert w.pool - gone - {fd} == w.pool - (gone + {fd});
    assert w.readers - gone - {fd} == w.readers - (gone + {fd}) && w.writers - gone - {fd} == w.writers - (gone + {fd});
    var seqs := SeqsOf(w.pool, gone);
    if fd in w.pool && w.pool[fd].seqId >= 0 {
      assert SeqsOf(w.pool, gone + {fd}) == seqs + {w.pool[fd].seqId};
      assert w.kv - seqs - {w.pool[fd].seqId} == w.kv - (seqs + {w.pool[fd].seqId});
    } else {
      assert SeqsOf(w.pool, gone + {fd}) == seqs;
    }
  }

  /** Closing sessions one by one takes exactly them, their cells and their interest away. */
  lemma {:induction false} ClosedTogether(w: State, fds: seq<Fd>)
    ensures CloseAll(w, fds) == Without(w, FdSet(fds))
  {
    hide CloseFd;
    if fds == [] {
      NoneGone(w);
      assert FdSet(fds) == {};
    } else {
      hide Without;
      var n := |fds| - 1;
      ClosedTogether(w, fds[..n]);
      assert FdSet(fds) == FdSet(fds[..n]) + {fds[n]};
      CloseMore(w, FdSet(fds[..n]), fds[n]);
    }
  }

  lemma NoneGone(w: State)
    ensures Without(w, {}) == w
  {
    assert SeqsOf(w.pool, {}) == {};
  }

  lemma SweepIsNext(cfg: Config, w: State, fds: seq<Fd>, now: nat)
    requires forall fd :: fd in fds <==> fd in IdleFds(cfg, w.pool, now)
    ensures CloseAll(w, fds) == NextIdle(cfg, w, now)
  {
    hide Without;
    ClosedTogether(w, fds);
    assert FdSet(fds) == IdleFds(cfg, w.pool, now);
  }

  /** An admin request stops reading and asks for a write. */
  lemma AdminStopsReading(m: LanguageModel, cfg: Config, s: ClientSession, nextSeq: nat, ev: ReadEvent)
    ensures var rr := OnReadable(m, cfg, s, nextSeq, ev);
            rr.admin ==> rr.removedRead && rr.wantsWrite
  {
    hide OnReadable;
    ReadableEffect(m, cfg, s, nextSeq, ev);
  }
}
