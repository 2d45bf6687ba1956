/**
 The daemon as a transition system: sessions, sequence ids, KV memory, poller interest and the
 scheduler's own state. One loop iteration of umad is a list of these steps: the reported events,
 the idle sweep, and the tick together with the arming of its descriptors.
 */
module Lifecycle {
  import opened Bounds
  import opened Bytes
  import opened Sessions
  import opened Protocol
  import opened Batch
  import opened TickSpec
  import opened SessionManagement

  datatype State = State(
    pool: Pool,
    nextSeq: nat,
    kv: KvStore,
    readers: set<Fd>,
    writers: set<Fd>,
    sched: SchedState
  )

  datatype Step =
    | Accept(fd: Fd, now: nat)
    | Readable(fd: Fd, ev: ReadEvent, metrics: bytes, wrote: nat)   // wrote: bytes of the immediate write
    | Writable(fd: Fd, writes: seq<nat>, broken: bool, now: nat)    // results of the write loop
    | IdleSweep(now: nat)
    | Tick(env: TickEnv)

  function InitialState(cap: int): State {
    State(map[], 1, map[], {}, {}, InitialSched(cap))
  }

  // ---------------------------------------------------------------- single steps

  function NextAccept(cfg: Config, w: State, fd: Fd, now: nat): State {
    if |w.pool| >= cfg.maxSessions then w
    else w.(pool := w.pool[fd := NewSession(now)], readers := w.readers + {fd})
  }

  function CloseFd(w: State, fd: Fd): State {
    w.(pool := w.pool - {fd},
       kv := if fd in w.pool then WithoutSeq(w.kv, w.pool[fd]) else w.kv,
       readers := w.readers - {fd},
       writers := w.writers - {fd})
  }

  /** Back to waiting for a request on the same connection. */
  function Reset(s: ClientSession): ClientSession {
    s.(state := RecvReq, promptTokens := [], prefillIdx := 0, generatedCount := 0, hasPendingTok := false,
       nPast := 0, firstEmitNs := 0)
  }

  /** A session whose tx has been flushed: close it, reset it, or leave it. */
  function Flushed(w: State, fd: Fd): State
    requires fd in w.pool
  {
    var s := w.pool[fd];
    if s.state.Errored? || (s.state.Stream? && s.readClosed) then CloseFd(w, fd)
    else if s.state.Stream? then w.(pool := w.pool[fd := Reset(s)])
    else w
  }

  /** What `on_readable` and, for an admin request, the metrics answer leave behind. */
  function AfterRequest(m: LanguageModel, cfg: Config, s: ClientSession, nextSeq: nat, ev: ReadEvent, metrics: bytes): ReadOutcome {
    var out := OnReadable(m, cfg, s, nextSeq, ev);
    if out.admin then
      out.(s := Queue(out.s, [Snapshot(metrics)]).(state := Stream, readClosed := true), queued := [Snapshot(metrics)])
    else out
  }

  lemma RequestEffect(m: LanguageModel, cfg: Config, s: ClientSession, nextSeq: nat, ev: ReadEvent, metrics: bytes)
    ensures ReadEffect(s, AfterRequest(m, cfg, s, nextSeq, ev, metrics))
  {
    hide Wire, OnReadable;
    ReadableEffect(m, cfg, s, nextSeq, ev);
  }

  /** The immediate write: what is left needs Write interest, a flushed session is finished and read again. */
  function WriteNow(w: State, fd: Fd, wrote: nat): State
    requires fd in w.pool
  {
    var s := w.pool[fd].(tx := w.pool[fd].tx[Min(wrote, |w.pool[fd].tx|)..]);
    var w1 := w.(pool := w.pool[fd := s]);
    if s.tx != [] then w1.(writers := w1.writers + {fd})
    else
      var w2 := Flushed(w1, fd);
      if fd in w2.pool && s.state.Stream? then w2.(readers := w2.readers + {fd}) else w2
  }

  function NextReadable(m: LanguageModel, cfg: Config, w: State, fd: Fd, ev: ReadEvent, metrics: bytes, wrote: nat): State {
    if fd !in w.pool then w
    else
      var out := AfterRequest(m, cfg, w.pool[fd], w.nextSeq, ev, metrics);
      var w1 := w.(pool := w.pool[fd := out.s], nextSeq := out.nextSeq,
                   readers := if out.removedRead then w.readers - {fd} else w.readers);
      if out.wantsWrite then WriteNow(w1, fd, wrote) else w1
  }

  /** What is left of `tx` after the write loop has taken what the socket accepts. */
  function Unsent(tx: bytes, writes: seq<nat>): bytes
    decreases |writes|
  {
    if tx == [] || writes == [] then tx else Unsent(tx[Min(writes[0], |tx|)..], writes[1..])
  }

  lemma {:induction false} UnsentIsSuffix(tx: bytes, writes: seq<nat>)
    ensures |Unsent(tx, writes)| <= |tx| && Unsent(tx, writes) == tx[|tx| - |Unsent(tx, writes)|..]
    decreases |writes|
  {
    if tx != [] && writes != [] {
      var n := Min(writes[0], |tx|);
      UnsentIsSuffix(tx[n..], writes[1..]);
    }
  }

  /** The session after the write loop. */
  function Written(s: ClientSession, writes: seq<nat>, now: nat): ClientSession {
    s.(tx := Unsent(s.tx, writes), lastActivityNs := if s.tx != [] && writes != [] then now else s.lastActivityNs)
  }

  function NextWritable(w: State, fd: Fd, writes: seq<nat>, broken: bool, now: nat): State {
    if fd !in w.pool then w
    else
      var w1 := w.(pool := w.pool[fd := Written(w.pool[fd], writes, now)]);
      if w1.pool[fd].tx == [] then Flushed(w1.(writers := w1.writers - {fd}), fd)
      else if broken then CloseFd(w1, fd)
      else w1
  }

  function IdleFds(cfg: Config, pool: Pool, now: nat): set<Fd> {
    set fd | fd in pool && cfg.idleNs > 0 && now - pool[fd].lastActivityNs > cfg.idleNs
  }

  /** The sequence ids of some sessions. */
  function SeqsOf(pool: Pool, fds: set<Fd>): set<nat> {
    set fd | fd in fds && fd in pool && pool[fd].seqId >= 0 :: pool[fd].seqId
  }

  /** The daemon without some sessions, their cells and their interest. */
  function Without(w: State, gone: set<Fd>): State {
    w.(pool := w.pool - gone, kv := w.kv - SeqsOf(w.pool, gone), readers := w.readers - gone, writers := w.writers - gone)
  }

  function NextIdle(cfg: Config, w: State, now: nat): State {
    Without(w, IdleFds(cfg, w.pool, now))
  }

  ghost function NextTick(m: LanguageModel, cfg: Config, w: State, env: TickEnv): State {
    var plan := FinalPlan(cfg, w.pool, w.sched, env.order);
    if !AllEnactable(w.pool, plan.items) then w
    else
      var e := RunBatch(m, cfg, env, w.kv, w.pool, plan.items);
      w.(pool := e.pool, kv := e.kv,
         writers := w.writers + (set fd | fd in e.arm && fd in e.pool && e.pool[fd].tx != []),
         sched := NextSched(w.sched, plan, |BatchRows(w.pool, plan.items)|, env.durNs))
  }

  ghost function Next(m: LanguageModel, cfg: Config, w: State, step: Step): State {
    match step
    case Accept(fd, now) => NextAccept(cfg, w, fd, now)
    case Readable(fd, ev, metrics, wrote) => NextReadable(m, cfg, w, fd, ev, metrics, wrote)
    case Writable(fd, writes, broken, now) => NextWritable(w, fd, writes, broken, now)
    case IdleSweep(now) => NextIdle(cfg, w, now)
    case Tick(env) => NextTick(m, cfg, w, env)
  }

  /**
   What the environment guarantees: the kernel hands out descriptors that are not open, input of a
   session is reported only while it has Read interest, and the pool is iterated in some order.
   */
  ghost predicate Possible(w: State, step: Step) {
    match step
    case Accept(fd, now) => fd !in w.pool
    case Readable(fd, ev, metrics, wrote) => fd in w.pool ==> fd in w.readers
    case Tick(env) => Enumerates(env.order, w.pool)
    case _ => true
  }

  /**
   One request at a time: a frame is handled only when the previous request has been answered.
   Two frames may arrive in one read; the second then stays in `rx` until the next readable event.
   */
  ghost predicate Polite(w: State, step: Step) {
    step.Readable? && step.fd in w.pool && Answers(w.pool[step.fd], step.ev) ==>
      w.pool[step.fd].state.RecvReq? || w.pool[step.fd].state.Stream?
  }
}
