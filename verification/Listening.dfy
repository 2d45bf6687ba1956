/**
 Read interest and activity. Beside a run stands what has happened on each line: whether its
 input can still be read, and when it was last active. Poller and session agree with it.
 */
module Listening {
  import opened Bytes
  import opened Sessions
  import opened Policy
  import opened Protocol
  import opened Batch
  import opened NonInterference
  import opened TickSpec
  import opened SessionManagement
  import opened Lifecycle
  import opened Histories
  import opened Runs
  import opened Draining
  import opened PromptRuns
  import opened Guarantees
  import opened FiniteSets

  // ---------------------------------------------------------------- what happens on a line

  /** The input of a connection: open, ended by either side, or given up after a read error. */
  datatype Input = Live | Ended | Lost

  datatype Line = Line(input: Input, touched: nat)

  /** The frame just read, or its bad header, is answered once and for all. */
  predicate EndsInput(cfg: Config, b: bytes) {
    match TryReadFrame(b, MAX_FRAME_BYTES)
    case NeedMore => false
    case Got(js, rest) => !Classify(cfg, js).Generate?
    case _ => true
  }

  function AfterEvent(cfg: Config, x: Line, s: ClientSession, ev: ReadEvent): Line {
    Line(if ev.failed then Lost else if ev.eof || EndsInput(cfg, s.rx + ev.arrived) then Ended else x.input,
         if ev.arrived != [] || (ev.eof && !ev.failed) then ev.now else x.touched)
  }

  /** Lines after a step: accepting, reading and writing are activity. */
  function NextLines(cfg: Config, w: State, lines: map<Fd, Line>, step: Step): map<Fd, Line> {
    match step
    case Accept(fd, now) => if |w.pool| >= cfg.maxSessions then lines else lines[fd := Line(Live, now)]
    case Readable(fd, ev, metrics, wrote) =>
      if fd in w.pool && fd in lines then lines[fd := AfterEvent(cfg, lines[fd], w.pool[fd], ev)] else lines
    case Writable(fd, writes, broken, now) =>
      if fd in w.pool && fd in lines && w.pool[fd].tx != [] && writes != [] then lines[fd := lines[fd].(touched := now)] else lines
    case _ => lines
  }

  ghost function LinesAfter(m: LanguageModel, cfg: Config, cap: int, steps: seq<Step>): map<Fd, Line> {
    if steps == [] then map[]
    else
      var n := |steps| - 1;
      NextLines(cfg, After(m, cfg, cap, steps[..n]).state, LinesAfter(m, cfg, cap, steps[..n]), steps[n])
  }

  // ---------------------------------------------------------------- the invariant

  /** Read interest exactly while the input is live; a session knows when its input has ended. */
  ghost predicate LineOk(w: State, lines: map<Fd, Line>, fd: Fd) {
    && (fd in w.pool ==> fd in lines)
    && (fd in w.readers <==> fd in w.pool && lines[fd].input.Live?)
    && (fd in w.pool && lines[fd].input.Ended? ==> w.pool[fd].readClosed)
    && (fd in w.pool && w.pool[fd].readClosed && !w.pool[fd].state.Errored? ==> !lines[fd].input.Live?)
    && (fd in w.pool ==> w.pool[fd].lastActivityNs == lines[fd].touched)
  }

  ghost predicate LinesOk(w: State, lines: map<Fd, Line>) {
    forall fd: Fd :: LineOk(w, lines, fd)
  }

  // ---------------------------------------------------------------- reading

  /** What a payload does to the input of its session. */
  lemma PayloadEnds(m: LanguageModel, cfg: Config, s: ClientSession, nextSeq: nat, js: bytes, ev: ReadEvent)
    ensures var out := HandlePayload(m, cfg, s, nextSeq, js, ev);
            var ends := !Classify(cfg, js).Generate?;
            && out.removedRead == (ends || ev.eof) && out.s.readClosed == (ends || s.readClosed)
            && out.s.lastActivityNs == s.lastActivityNs && !out.s.state.Errored?
            && (out.wantsWrite ==> out.s.state.Stream?) && (out.admin ==> ends)
  {
    hide Wire, Classify, Prefer;
  }

  lemma RequestEnds(m: LanguageModel, cfg: Config, s: ClientSession, nextSeq: nat, ev: ReadEvent, metrics: bytes)
    ensures var out := AfterRequest(m, cfg, s, nextSeq, ev, metrics);
            var ends := !ev.failed && (ev.eof || EndsInput(cfg, s.rx + ev.arrived));
            && out.removedRead == (ev.failed || ends) && out.s.readClosed == (ends || s.readClosed)
            && out.s.lastActivityNs == (if ev.arrived != [] || (ev.eof && !ev.failed) then ev.now else s.lastActivityNs)
            && (out.s.state.Errored? ==> s.state.Errored?) && (!Answers(s, ev) ==> out.s.state == s.state)
            && (out.wantsWrite ==> out.s.state.Stream? && !ev.failed)
  {
    hide Wire, Classify, TryReadFrame, HandlePayload;
    var s1 := AfterRead(s, ev);
    match TryReadFrame(s1.rx, MAX_FRAME_BYTES)
    case Got(js, rest) => PayloadEnds(m, cfg, s1.(rx := rest), nextSeq, js, ev);
    case _ =>
  }

  lemma ReadLine(m: LanguageModel, cfg: Config, w: State, lines: map<Fd, Line>, step: Step)
    requires step.Readable? && step.fd in w.pool && step.fd in w.readers && Polite(w, step) && LineOk(w, lines, step.fd)
    ensures LineOk(Next(m, cfg, w, step), NextLines(cfg, w, lines, step), step.fd)
  {
    hide AfterRequest, EndsInput, WithoutSeq;
    RequestEnds(m, cfg, w.pool[step.fd], w.nextSeq, step.ev, step.metrics);
  }

  // ---------------------------------------------------------------- ticks

  lemma TickedKeepsLine(m: LanguageModel, cfg: Config, env: TickEnv, cells: seq<Cell>, s: ClientSession, it: BatchItem)
    requires CanFeed(s, it)
    ensures var t := Ticked(m, cfg, env, cells, s, it);
            && t.lastActivityNs == s.lastActivityNs && (s.readClosed ==> t.readClosed)
            && (t.readClosed && !t.state.Errored? ==> s.readClosed)
  {
    hide TokenOf, Wire, Ends, SampleEvents;
  }

  lemma TickKeepsLine(m: LanguageModel, cfg: Config, w: State, h: History, env: TickEnv, fd: Fd)
    requires Inv(m, cfg, w, h) && Enumerates(env.order, w.pool) && fd in w.pool
    ensures var w1 := NextTick(m, cfg, w, env);
            && fd in w1.pool && w1.readers == w.readers
            && w1.pool[fd].lastActivityNs == w.pool[fd].lastActivityNs && (w.pool[fd].readClosed ==> w1.pool[fd].readClosed)
            && (w1.pool[fd].readClosed && !w1.pool[fd].state.Errored? ==>
                  w.pool[fd].readClosed && !w.pool[fd].state.Errored?)
  {
    hide RunBatch, Ticked, FinalPlan, FinalItems, AllEnactable, Inv, Enumerates, DistinctSeqs, NextSched;
    var items := TickItems(m, cfg, w, h, env);
    var i := TheItemOf(w.pool, items, fd);
    if i == -1 {
      IdleSession(m, cfg, env, w.kv, w.pool, items, fd);
    } else {
      BusySession(m, cfg, env, w.kv, w.pool, items, i);
      TickedKeepsLine(m, cfg, env, CellsOf(w.kv, w.pool[fd].seqId), w.pool[fd], items[i]);
    }
  }

  // ---------------------------------------------------------------- every step

  /** A step keeps the line of every descriptor. */
  lemma StepLine(m: LanguageModel, cfg: Config, w: State, h: History, lines: map<Fd, Line>, step: Step, fd: Fd)
    requires Inv(m, cfg, w, h) && Possible(w, step) && Polite(w, step) && LineOk(w, lines, fd)
    ensures LineOk(Next(m, cfg, w, step), NextLines(cfg, w, lines, step), fd)
  {
    hide Inv, NextTick, AfterRequest, EndsInput, WithoutSeq;
    match step {
      case Tick(env) =>
        if fd in w.pool {
          TickKeepsLine(m, cfg, w, h, env, fd);
        } else {
          NoNewSession(m, cfg, w, h, step, fd);
          TickReaders(m, cfg, w, env);
        }
      case Readable(g, ev, metrics, wrote) =>
        if g == fd && fd in w.pool {
          ReadLine(m, cfg, w, lines, step);
        }
      case _ =>
    }
  }

  lemma TickReaders(m: LanguageModel, cfg: Config, w: State, env: TickEnv)
    ensures NextTick(m, cfg, w, env).readers == w.readers
  {
    hide FinalPlan, RunBatch, NextSched, AllEnactable;
  }

  // ---------------------------------------------------------------- runs

  lemma {:induction false} RunsKeepLines(m: LanguageModel, cfg: Config, cap: int, steps: seq<Step>)
    requires cap >= 1 && Legal(m, cfg, cap, steps)
    ensures LinesOk(After(m, cfg, cap, steps).state, LinesAfter(m, cfg, cap, steps))
  {
    hide Inv, Next, NextHistory, NextLines, Possible, Polite;
    if steps != [] {
      var n := |steps| - 1;
      RunsKeepLines(m, cfg, cap, steps[..n]);
      RunKeepsInv(m, cfg, cap, steps[..n]);
      var x, lines := After(m, cfg, cap, steps[..n]), LinesAfter(m, cfg, cap, steps[..n]);
      hide LineOk;
      forall fd: Fd ensures LineOk(After(m, cfg, cap, steps).state, LinesAfter(m, cfg, cap, steps), fd) {
        assert LineOk(x.state, lines, fd);
        StepLine(m, cfg, x.state, x.history, lines, steps[n], fd);
      }
    }
  }

  /** In every run the poller reads exactly the open sessions whose input is live. */
  lemma ReadInterestIff(m: LanguageModel, cfg: Config, cap: int, steps: seq<Step>, fd: Fd)
    requires cap >= 1 && Legal(m, cfg, cap, steps)
    ensures var w, lines := After(m, cfg, cap, steps).state, LinesAfter(m, cfg, cap, steps);
            && (fd in w.pool ==> fd in lines)
            && (fd in w.readers <==> fd in w.pool && lines[fd].input.Live?)
  {
    hide After, Legal, LinesAfter;
    RunsKeepLines(m, cfg, cap, steps);
    assert LineOk(After(m, cfg, cap, steps).state, LinesAfter(m, cfg, cap, steps), fd);
  }

  /** No read fails, and no model call. */
  ghost predicate NoFailure(step: Step) {
    (step.Readable? ==> !step.ev.failed) && (step.Tick? ==> step.env.ok)
  }

  /** Without failures a session is read exactly until it is marked as closed for reading. */
  lemma ReadUntilClosed(m: LanguageModel, cfg: Config, cap: int, steps: seq<Step>, fd: Fd)
    requires cap >= 1 && Legal(m, cfg, cap, steps) && forall i :: 0 <= i < |steps| ==> NoFailure(steps[i])
    ensures var w := After(m, cfg, cap, steps).state;
            fd in w.readers <==> fd in w.pool && !w.pool[fd].readClosed
  {
    hide After, Legal, LinesAfter, NoFailure;
    RunsKeepLines(m, cfg, cap, steps);
    NothingFailed(m, cfg, cap, steps);
    var w, lines := After(m, cfg, cap, steps).state, LinesAfter(m, cfg, cap, steps);
    assert LineOk(w, lines, fd) && Sound(w, lines, fd);
  }

  /** No session has failed, and no input was given up. */
  ghost predicate Sound(w: State, lines: map<Fd, Line>, fd: Fd) {
    && (fd in w.pool ==> !w.pool[fd].state.Errored?)
    && (fd in lines ==> !lines[fd].input.Lost?)
  }

  lemma StepSound(m: LanguageModel, cfg: Config, w: State, h: History, lines: map<Fd, Line>, step: Step, fd: Fd)
    requires Inv(m, cfg, w, h) && Possible(w, step) && NoFailure(step) && Sound(w, lines, fd)
    ensures Sound(Next(m, cfg, w, step), NextLines(cfg, w, lines, step), fd)
  {
    hide Inv, NextTick, AfterRequest, EndsInput, WithoutSeq, Unsent;
    if step.Tick? {
      if fd in w.pool { TickIsSound(m, cfg, w, h, step.env, fd); } else { NoNewSession(m, cfg, w, h, step, fd); }
    } else if step.Readable? && step.fd in w.pool {
      RequestEnds(m, cfg, w.pool[step.fd], w.nextSeq, step.ev, step.metrics);
    }
  }

  lemma TickIsSound(m: LanguageModel, cfg: Config, w: State, h: History, env: TickEnv, fd: Fd)
    requires Inv(m, cfg, w, h) && Enumerates(env.order, w.pool) && env.ok && fd in w.pool && !w.pool[fd].state.Errored?
    ensures var w1 := NextTick(m, cfg, w, env); fd in w1.pool && !w1.pool[fd].state.Errored?
  {
    hide NextTick, RunBatch, Ticked, FinalPlan, FinalItems, AllEnactable, Inv, Enumerates, DistinctSeqs;
    var items := TickItems(m, cfg, w, h, env);
    var i := TheItemOf(w.pool, items, fd);
    if i == -1 {
      IdleSession(m, cfg, env, w.kv, w.pool, items, fd);
    } else {
      BusySession(m, cfg, env, w.kv, w.pool, items, i);
      TickedIsSound(m, cfg, env, CellsOf(w.kv, w.pool[fd].seqId), w.pool[fd], items[i]);
    }
  }

  lemma TickedIsSound(m: LanguageModel, cfg: Config, env: TickEnv, cells: seq<Cell>, s: ClientSession, it: BatchItem)
    requires CanFeed(s, it) && env.ok && !s.state.Errored?
    ensures !Ticked(m, cfg, env, cells, s, it).state.Errored?
  {
    hide TokenOf, Wire, Ends, SampleEvents;
  }

  lemma {:induction false} NothingFailed(m: LanguageModel, cfg: Config, cap: int, steps: seq<Step>)
    requires cap >= 1 && Legal(m, cfg, cap, steps) && forall i :: 0 <= i < |steps| ==> NoFailure(steps[i])
    ensures forall fd: Fd :: Sound(After(m, cfg, cap, steps).state, LinesAfter(m, cfg, cap, steps), fd)
  {
    hide Inv, Next, NextHistory, NextLines, Possible, Polite;
    if steps != [] {
      var n := |steps| - 1;
      NothingFailed(m, cfg, cap, steps[..n]);
      RunKeepsInv(m, cfg, cap, steps[..n]);
      var x, lines := After(m, cfg, cap, steps[..n]), LinesAfter(m, cfg, cap, steps[..n]);
      hide Sound, NoFailure;
      forall fd: Fd ensures Sound(After(m, cfg, cap, steps).state, LinesAfter(m, cfg, cap, steps), fd) {
        assert Sound(x.state, lines, fd) && NoFailure(steps[n]);
        StepSound(m, cfg, x.state, x.history, lines, steps[n], fd);
      }
    }
  }

  // ---------------------------------------------------------------- how many, and who is written to

  /** No more sessions than configured, and Write interest for open sessions only. */
  ghost predicate PoolFits(cfg: Config, w: State) {
    |w.pool| <= cfg.maxSessions && forall fd :: fd in w.writers ==> fd in w.pool
  }

  lemma FewerSessions(cfg: Config, w: State, w1: State)
    requires |w.pool| <= cfg.maxSessions && forall fd :: fd in w1.pool ==> fd in w.pool
    ensures |w1.pool| <= cfg.maxSessions
  {
    SubsetCard(w1.pool.Keys, w.pool.Keys);
    assert |w1.pool.Keys| == |w1.pool| && |w.pool.Keys| == |w.pool|;
  }

  lemma StepFits(m: LanguageModel, cfg: Config, w: State, h: History, step: Step)
    requires Inv(m, cfg, w, h) && Possible(w, step) && PoolFits(cfg, w)
    ensures PoolFits(cfg, Next(m, cfg, w, step))
  {
    hide Inv, Possible;
    var w1 := Next(m, cfg, w, step);
    WritersStayOpen(m, cfg, w, h, step);
    if step.Accept? {
      hide NextReadable, NextWritable, NextIdle, NextTick;
      assert |w.pool| < cfg.maxSessions ==> w1.pool.Keys <= w.pool.Keys + {step.fd};
      if |w.pool| < cfg.maxSessions { SubsetCard(w1.pool.Keys, w.pool.Keys + {step.fd}); }
      assert |w1.pool.Keys| == |w1.pool| && |w.pool.Keys| == |w.pool|;
    } else {
      hide Next;
      forall fd | fd in w1.pool ensures fd in w.pool {
        if fd !in w.pool { NoNewSession(m, cfg, w, h, step, fd); }
      }
      FewerSessions(cfg, w, w1);
    }
  }

  lemma WritersStayOpen(m: LanguageModel, cfg: Config, w: State, h: History, step: Step)
    requires Inv(m, cfg, w, h) && Possible(w, step) && PoolFits(cfg, w)
    ensures var w1 := Next(m, cfg, w, step); forall fd :: fd in w1.writers ==> fd in w1.pool
  {
    hide Inv, AfterRequest, WithoutSeq, Unsent, FinalPlan, RunBatch, NextSched, AllEnactable;
    if step.Tick? { TickPool(m, cfg, w, h, step.env); }
  }

  lemma {:induction false} RunsFit(m: LanguageModel, cfg: Config, cap: int, steps: seq<Step>)
    requires cap >= 1 && Legal(m, cfg, cap, steps)
    ensures PoolFits(cfg, After(m, cfg, cap, steps).state)
  {
    hide Inv, Next, NextHistory, Possible, Polite;
    if steps != [] {
      var n := |steps| - 1;
      RunsFit(m, cfg, cap, steps[..n]);
      RunKeepsInv(m, cfg, cap, steps[..n]);
      var x := After(m, cfg, cap, steps[..n]);
      StepFits(m, cfg, x.state, x.history, steps[n]);
    }
  }

  /** A writable event keeps Write interest exactly while there is something left to write. */
  lemma WrittenIsDisarmed(m: LanguageModel, cfg: Config, w: State, fd: Fd, writes: seq<nat>, broken: bool, now: nat)
    requires fd in w.pool && fd in w.writers
    ensures var w1 := Next(m, cfg, w, Writable(fd, writes, broken, now));
            fd in w1.writers <==> Unsent(w.pool[fd].tx, writes) != [] && !broken
  {
    hide Unsent, WithoutSeq;
  }

  /** A read error is for good: the session is never read again, and only the idle sweep or a broken write ends it. */
  lemma {:induction false} LostForGood(m: LanguageModel, cfg: Config, cap: int, steps: seq<Step>, more: seq<Step>, fd: Fd)
    requires cap >= 1 && Legal(m, cfg, cap, steps) && Legal(m, cfg, cap, steps + more)
    requires fd in LinesAfter(m, cfg, cap, steps) && LinesAfter(m, cfg, cap, steps)[fd].input.Lost?
    requires forall i :: 0 <= i < |more| ==> !(more[i].Accept? && more[i].fd == fd)
    ensures fd in LinesAfter(m, cfg, cap, steps + more) && LinesAfter(m, cfg, cap, steps + more)[fd].input.Lost?
    ensures fd !in After(m, cfg, cap, steps + more).state.readers
    decreases |more|
  {
    hide Inv, Next, NextHistory, Polite;
    ReadInterestIff(m, cfg, cap, steps + more, fd);
    if more == [] {
      assert steps + more == steps;
    } else {
      var n := |more| - 1;
      var all := steps + more;
      assert all[..|all| - 1] == steps + more[..n] && all[|all| - 1] == more[n];
      LostForGood(m, cfg, cap, steps, more[..n], fd);
    }
  }

  // ---------------------------------------------------------------- idle sessions

  /**
   The idle sweep in every run: a session goes exactly if a limit is set and longer than that has
   passed since it was accepted, sent something or was written to.
   */
  lemma IdleIff(m: LanguageModel, cfg: Config, cap: int, steps: seq<Step>, now: nat, fd: Fd)
    requires cap >= 1 && Legal(m, cfg, cap, steps) && fd in After(m, cfg, cap, steps).state.pool
    ensures Legal(m, cfg, cap, steps + [IdleSweep(now)])
    ensures fd in LinesAfter(m, cfg, cap, steps)
    ensures fd !in After(m, cfg, cap, steps + [IdleSweep(now)]).state.pool
       <==> cfg.idleNs > 0 && now > LinesAfter(m, cfg, cap, steps)[fd].touched + cfg.idleNs
  {
    hide Legal, After, LinesAfter, NextHistory;
    RunsKeepLines(m, cfg, cap, steps);
    var w := After(m, cfg, cap, steps).state;
    assert LineOk(w, LinesAfter(m, cfg, cap, steps), fd);
    LegalSnoc(m, cfg, cap, steps, IdleSweep(now));
    IdleStep(m, cfg, w, now, fd);
  }

  lemma IdleStep(m: LanguageModel, cfg: Config, w: State, now: nat, fd: Fd)
    requires fd in w.pool
    ensures fd !in Next(m, cfg, w, IdleSweep(now)).pool <==> cfg.idleNs > 0 && now > w.pool[fd].lastActivityNs + cfg.idleNs
  {
    hide SeqsOf;
  }

  // ---------------------------------------------------------------- reuse

  /**
   A connection whose answer has been written is kept for the next request exactly if its input has
   not been closed and no model call failed on it; then it waits, with the same sequence id.
   */
  lemma AnsweredIsKeptIff(m: LanguageModel, cfg: Config, w: State, fd: Fd, writes: seq<nat>, now: nat)
    requires fd in w.pool && (w.pool[fd].state.Stream? || w.pool[fd].state.Errored?) && Unsent(w.pool[fd].tx, writes) == []
    ensures var s, w1 := w.pool[fd], Next(m, cfg, w, Writable(fd, writes, false, now));
            && (fd in w1.pool <==> s.state.Stream? && !s.readClosed)
            && (fd in w1.pool ==>
                  && w1.pool[fd].state.RecvReq? && w1.pool[fd].tx == [] && w1.pool[fd].rx == s.rx
                  && w1.pool[fd].seqId == s.seqId && w1.pool[fd].nPast == 0 && w1.readers == w.readers && w1.kv == w.kv)
  {
    hide Unsent, WithoutSeq;
  }
}
