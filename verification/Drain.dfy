/**
 Without new requests and with successful decodes, every request that has been taken from the
 input is finished after boundedly many ticks.
 */
module Draining {
  import opened Bounds
  import opened Bytes
  import opened Sessions
  import opened Policy
  import opened PlanProperties
  import opened Bmt
  import opened Protocol
  import opened Batch
  import opened NonInterference
  import opened TickSpec
  import opened SessionManagement
  import opened Lifecycle
  import opened Histories
  import opened Runs

  // ---------------------------------------------------------------- sessions that make progress

  /** A prefill that has not started, or a decode of at most one burst with a pending token. */
  ghost predicate Smooth(cfg: Config, s: ClientSession) {
    && (s.state.Prefill? ==> s.prefillIdx == 0 && s.nPast == 0 && s.generatedCount == 0 && s.firstEmitNs == 0 && s.promptTokens != [])
    && (s.state.Decode? ==> s.hasPendingTok && s.generatedCount <= cfg.maxTokens && s.prefillIdx <= BURST)
  }

  ghost predicate AllSmooth(cfg: Config, w: State) {
    forall fd :: fd in w.pool ==> Smooth(cfg, w.pool[fd])
  }

  /** The model call succeeds and returns the requested rows. */
  ghost predicate GoodTick(step: Step) {
    step.Tick? ==> step.env.ok && step.env.nullRows == {}
  }

  predicate Busy(s: ClientSession) {
    s.state.Prefill? || s.state.Decode?
  }

  lemma ReadKeepsSmooth(m: LanguageModel, cfg: Config, s: ClientSession, nextSeq: nat, ev: ReadEvent, metrics: bytes)
    requires Smooth(cfg, s)
    ensures Smooth(cfg, AfterRequest(m, cfg, s, nextSeq, ev, metrics).s)
  {
    hide AfterRequest;
    RequestEffect(m, cfg, s, nextSeq, ev, metrics);
  }

  lemma TickedIsSmooth(m: LanguageModel, cfg: Config, env: TickEnv, cells: seq<Cell>, s: ClientSession, it: BatchItem)
    requires CanFeed(s, it) && Smooth(cfg, s) && env.ok && env.nullRows == {} && Chunk(it) > 0
    requires FinalItemOf(s, it)
    ensures var t := Ticked(m, cfg, env, cells, s, it);
            Smooth(cfg, t) && Weight(cfg, t) < Weight(cfg, s)
  {
    hide TokenOf, Wire, SampleEvents;
  }

  ghost predicate FinalItemOf(s: ClientSession, it: BatchItem) {
    (it.phase.DECODE? ==> DecodeReady(s)) && (it.phase.PREFILL? ==> PrefillReady(s) && it.nTokens <= FullChunk(s))
  }

  // ---------------------------------------------------------------- the measure

  /** Ticks a session can still take part in. */
  function Weight(cfg: Config, s: ClientSession): int {
    if s.state.Prefill? then cfg.maxTokens + 2
    else if s.state.Decode? then cfg.maxTokens + 1 - s.generatedCount
    else 0
  }

  function WeightAt(cfg: Config, pool: Pool, fd: Fd): int {
    if fd in pool then Weight(cfg, pool[fd]) else 0
  }

  function Measure(cfg: Config, pool: Pool, fds: seq<Fd>): int {
    if fds == [] then 0 else Measure(cfg, pool, fds[..|fds| - 1]) + WeightAt(cfg, pool, fds[|fds| - 1])
  }

  lemma {:induction false} MeasureFalls(cfg: Config, p: Pool, q: Pool, fds: seq<Fd>)
    requires forall i :: 0 <= i < |fds| ==> WeightAt(cfg, q, fds[i]) <= WeightAt(cfg, p, fds[i])
    ensures Measure(cfg, q, fds) <= Measure(cfg, p, fds)
    ensures (exists i :: 0 <= i < |fds| && WeightAt(cfg, q, fds[i]) < WeightAt(cfg, p, fds[i])) ==>
              Measure(cfg, q, fds) < Measure(cfg, p, fds)
  {
    hide WeightAt;
    if fds != [] {
      MeasureFalls(cfg, p, q, fds[..|fds| - 1]);
      if i :| 0 <= i < |fds| && WeightAt(cfg, q, fds[i]) < WeightAt(cfg, p, fds[i]) {
        if i < |fds| - 1 { assert fds[..|fds| - 1][i] == fds[i]; }
      }
    }
  }

  lemma {:induction false} MeasureZero(cfg: Config, w: State, fds: seq<Fd>, i: nat)
    requires AllSmooth(cfg, w) && i < |fds|
    ensures 0 <= WeightAt(cfg, w.pool, fds[i]) <= Measure(cfg, w.pool, fds)
  {
    var n := |fds| - 1;
    MeasureNonNegative(cfg, w, fds[..n]);
    if i < n { MeasureZero(cfg, w, fds[..n], i); }
  }

  lemma {:induction false} MeasureNonNegative(cfg: Config, w: State, fds: seq<Fd>)
    requires AllSmooth(cfg, w)
    ensures 0 <= Measure(cfg, w.pool, fds)
  {
    if fds != [] { MeasureNonNegative(cfg, w, fds[..|fds| - 1]); }
  }

  // ---------------------------------------------------------------- ready work is served

  /** If some session is ready and there is budget, the final plan feeds at least one token. */
  lemma ReadyWorkIsServed(cfg: Config, w: State, order: seq<Fd>, fd: Fd) returns (i: nat)
    requires Enumerates(order, w.pool) && AllSmooth(cfg, w) && fd in w.pool && Busy(w.pool[fd])
    requires Min(w.sched.tuning.target, w.sched.cap) >= 1
    ensures var items := FinalPlan(cfg, w.pool, w.sched, order).items;
            i < |items| && Chunk(items[i]) > 0
  {
    var sched := w.sched;
    var plan := PlanOf(w.pool, order, sched.cap, sched.tuning.target, sched.rrDecode, sched.rrPrefill);
    SomethingPlanned(cfg, w, order, fd);
    PlannedAreFresh(cfg, w, order);
    if cfg.bmtBudget == 0 {
      i := 0;
    } else {
      hide PlanOf;
      i := GuardKeepsWork(w.pool, plan.items, cfg.bmtBudget);
    }
  }

  lemma SomethingPlanned(cfg: Config, w: State, order: seq<Fd>, fd: Fd)
    requires Enumerates(order, w.pool) && AllSmooth(cfg, w) && fd in w.pool && Busy(w.pool[fd])
    requires Min(w.sched.tuning.target, w.sched.cap) >= 1
    ensures PlanOf(w.pool, order, w.sched.cap, w.sched.tuning.target, w.sched.rrDecode, w.sched.rrPrefill).items != []
  {
    var plan := PlanOf(w.pool, order, w.sched.cap, w.sched.tuning.target, w.sched.rrDecode, w.sched.rrPrefill);
    PlanIsCorrect(w.pool, order, w.sched.cap, w.sched.tuning.target, w.sched.rrDecode, w.sched.rrPrefill);
    hide PlanOf;
    assert Smooth(cfg, w.pool[fd]);
    var want := if w.pool[fd].state.Decode? then BatchItem(fd, DECODE, 1) else BatchItem(fd, PREFILL, FullChunk(w.pool[fd]));
    assert Tokens(plan.items) < Min(w.sched.tuning.target, w.sched.cap) ==> want in plan.items;
  }

  lemma PlannedAreFresh(cfg: Config, w: State, order: seq<Fd>)
    requires Enumerates(order, w.pool) && AllSmooth(cfg, w)
    ensures var items := PlanOf(w.pool, order, w.sched.cap, w.sched.tuning.target, w.sched.rrDecode, w.sched.rrPrefill).items;
            && (forall i :: 0 <= i < |items| ==> items[i].nTokens > 0)
            && (forall i :: 0 <= i < |items| && items[i].phase.PREFILL? ==> items[i].fd in w.pool && w.pool[items[i].fd].nPast == 0)
  {
    var plan := PlanOf(w.pool, order, w.sched.cap, w.sched.tuning.target, w.sched.rrDecode, w.sched.rrPrefill);
    PlanIsCorrect(w.pool, order, w.sched.cap, w.sched.tuning.target, w.sched.rrDecode, w.sched.rrPrefill);
    assert ItemsOk(w.pool, plan.items);
    hide PlanOf, PlanOk;
    forall i | 0 <= i < |plan.items|
      ensures plan.items[i].nTokens > 0
      ensures plan.items[i].phase.PREFILL? ==> plan.items[i].fd in w.pool && w.pool[plan.items[i].fd].nPast == 0
    {
      assert ItemOk(w.pool, plan.items[i]);
      assert Smooth(cfg, w.pool[plan.items[i].fd]);
    }
  }

  // ---------------------------------------------------------------- one tick

  lemma TickAtDrains(m: LanguageModel, cfg: Config, w: State, env: TickEnv, items: seq<BatchItem>, fd: Fd)
    requires FinalItems(w.pool, items) && AllEnactable(w.pool, items) && DistinctSeqs(w.pool) && AllSmooth(cfg, w)
    requires fd in w.pool && env.ok && env.nullRows == {}
    ensures var e := RunBatch(m, cfg, env, w.kv, w.pool, items);
            && fd in e.pool && Smooth(cfg, e.pool[fd])
            && Weight(cfg, e.pool[fd]) <= Weight(cfg, w.pool[fd])
            && (forall i :: 0 <= i < |items| && items[i].fd == fd && Chunk(items[i]) > 0 ==> Weight(cfg, e.pool[fd]) < Weight(cfg, w.pool[fd]))
  {
    hide RunBatch, Ticked, Weight;
    assert Smooth(cfg, w.pool[fd]);
    var i := ItemFor(items, fd);
    if i >= 0 { OnlyItem(items, fd, i); }
    if i >= 0 && Chunk(items[i]) > 0 {
      assert FinalItem(w.pool, items[i]);
      BusySession(m, cfg, env, w.kv, w.pool, items, i);
      TickedIsSmooth(m, cfg, env, CellsOf(w.kv, w.pool[fd].seqId), w.pool[fd], items[i]);
    } else {
      IdleSession(m, cfg, env, w.kv, w.pool, items, fd);
    }
  }

  lemma TickItems(m: LanguageModel, cfg: Config, w: State, h: History, env: TickEnv) returns (items: seq<BatchItem>)
    requires Inv(m, cfg, w, h) && Enumerates(env.order, w.pool)
    ensures items == FinalPlan(cfg, w.pool, w.sched, env.order).items
    ensures FinalItems(w.pool, items) && AllEnactable(w.pool, items) && DistinctSeqs(w.pool)
    ensures NextTick(m, cfg, w, env).pool == RunBatch(m, cfg, env, w.kv, w.pool, items).pool
    ensures forall fd :: fd in NextTick(m, cfg, w, env).pool <==> fd in w.pool
  {
    InvPoolOk(m, cfg, w, h);
    hide FinalPlan, RunBatch, NextSched, FinalItems, Inv;
    items := FinalPlan(cfg, w.pool, w.sched, env.order).items;
    FinalPlanItems(cfg, w.pool, w.sched, env.order);
    FinalItemsEnactable(w.pool, items);
    TickKeys(m, cfg, w, h, env, items);
  }

  /** A successful tick keeps sessions smooth and never raises a weight. */
  lemma GoodTickIsSmooth(m: LanguageModel, cfg: Config, w: State, h: History, env: TickEnv, fds: seq<Fd>)
    requires Inv(m, cfg, w, h) && AllSmooth(cfg, w) && Enumerates(env.order, w.pool) && env.ok && env.nullRows == {}
    ensures var w1 := NextTick(m, cfg, w, env);
            && AllSmooth(cfg, w1) && (forall fd :: fd in w1.pool <==> fd in w.pool)
            && (forall fd :: fd in w1.pool ==> WeightAt(cfg, w1.pool, fd) <= WeightAt(cfg, w.pool, fd))
            && (forall i :: 0 <= i < |fds| ==> WeightAt(cfg, w1.pool, fds[i]) <= WeightAt(cfg, w.pool, fds[i]))
  {
    hide FinalPlan, RunBatch, FinalItems, Smooth, Weight, Inv, NextTick, AllEnactable, Enumerates, DistinctSeqs;
    var items := TickItems(m, cfg, w, h, env);
    var w1 := NextTick(m, cfg, w, env);
    forall fd | fd in w.pool ensures Smooth(cfg, w1.pool[fd]) && Weight(cfg, w1.pool[fd]) <= Weight(cfg, w.pool[fd]) {
      TickAtDrains(m, cfg, w, env, items, fd);
    }
  }

  /** `fds` lists every session that waits in PREFILL or DECODE. */
  ghost predicate Covers(pool: Pool, fds: seq<Fd>) {
    forall fd :: fd in pool && Busy(pool[fd]) ==> fd in fds
  }

  lemma ItemIsBusy(pool: Pool, items: seq<BatchItem>, i: nat)
    requires FinalItems(pool, items) && i < |items|
    ensures items[i].fd in pool && Busy(pool[items[i].fd])
  {
    assert FinalItem(pool, items[i]);
  }

  lemma GoodTickDrains(m: LanguageModel, cfg: Config, w: State, h: History, env: TickEnv, fds: seq<Fd>, fd: Fd)
    requires Inv(m, cfg, w, h) && AllSmooth(cfg, w) && Enumerates(env.order, w.pool) && env.ok && env.nullRows == {}
    requires Covers(w.pool, fds) && fd in w.pool && Busy(w.pool[fd])
    ensures Measure(cfg, NextTick(m, cfg, w, env).pool, fds) < Measure(cfg, w.pool, fds)
  {
    assert Min(w.sched.tuning.target, w.sched.cap) >= 1;
    var items := TickItems(m, cfg, w, h, env);
    hide FinalPlan, RunBatch, FinalItems, Smooth, Weight, Inv, NextTick;
    GoodTickIsSmooth(m, cfg, w, h, env, fds);
    var w1 := NextTick(m, cfg, w, env);
    var i := ReadyWorkIsServed(cfg, w, env.order, fd);
    var g := items[i].fd;
    assert Enactable(w.pool, items[i]);
    assert Busy(w.pool[g]) by { ItemIsBusy(w.pool, items, i); }
    TickAtDrains(m, cfg, w, env, items, g);
    assert g in fds;
    var k :| 0 <= k < |fds| && fds[k] == g;
    assert WeightAt(cfg, w1.pool, fds[k]) < WeightAt(cfg, w.pool, fds[k]);
    MeasureFalls(cfg, w.pool, w1.pool, fds);
  }

  // ---------------------------------------------------------------- runs

  /** Anything but a new request: clients may connect, send parts of a frame, half-close, read or vanish. */
  ghost predicate Draining(w: State, step: Step) {
    GoodTick(step) && (step.Readable? && step.fd in w.pool ==> !Answers(w.pool[step.fd], step.ev))
  }

  /** Steps other than ticks never raise a weight. */
  lemma OtherStepDrains(m: LanguageModel, cfg: Config, w: State, step: Step, fds: seq<Fd>)
    requires AllSmooth(cfg, w) && Possible(w, step) && Draining(w, step) && !step.Tick?
    ensures var w1 := Next(m, cfg, w, step);
            && AllSmooth(cfg, w1) && (forall fd :: fd in w1.pool ==> WeightAt(cfg, w1.pool, fd) <= WeightAt(cfg, w.pool, fd))
            && Measure(cfg, w1.pool, fds) <= Measure(cfg, w.pool, fds)
  {
    hide Next, Smooth, Draining, Possible, WeightAt;
    var w1 := Next(m, cfg, w, step);
    forall fd | fd in w1.pool
      ensures Smooth(cfg, w1.pool[fd]) && WeightAt(cfg, w1.pool, fd) <= WeightAt(cfg, w.pool, fd)
    {
      OtherStepAt(m, cfg, w, step, fd);
    }
    forall i | 0 <= i < |fds| ensures WeightAt(cfg, w1.pool, fds[i]) <= WeightAt(cfg, w.pool, fds[i]) {
      if fds[i] !in w1.pool { GoneWeighsNothing(cfg, w, w1, fds[i]); }
    }
    MeasureFalls(cfg, w.pool, w1.pool, fds);
  }

  lemma GoneWeighsNothing(cfg: Config, w: State, w1: State, fd: Fd)
    requires AllSmooth(cfg, w) && fd !in w1.pool
    ensures WeightAt(cfg, w1.pool, fd) <= WeightAt(cfg, w.pool, fd)
  {
    if fd in w.pool { SmoothWeight(cfg, w.pool[fd]); }
  }

  lemma SmoothWeight(cfg: Config, s: ClientSession)
    requires Smooth(cfg, s)
    ensures Weight(cfg, s) >= 0 && (Busy(s) ==> Weight(cfg, s) >= 1)
  {
  }

  lemma OtherStepAt(m: LanguageModel, cfg: Config, w: State, step: Step, fd: Fd)
    requires AllSmooth(cfg, w) && Possible(w, step) && Draining(w, step) && !step.Tick? && fd in Next(m, cfg, w, step).pool
    ensures var w1 := Next(m, cfg, w, step);
            Smooth(cfg, w1.pool[fd]) && WeightAt(cfg, w1.pool, fd) <= WeightAt(cfg, w.pool, fd)
  {
    hide Unsent, WithoutSeq, NextTick, AfterRequest;
    assert fd in w.pool ==> Smooth(cfg, w.pool[fd]);
    if step.Readable? && step.fd in w.pool {
      NoFrameBuffers(m, cfg, w.pool[step.fd], w.nextSeq, step.ev, step.metrics);
    }
  }

  /** Input that completes no frame is buffered. */
  lemma NoFrameBuffers(m: LanguageModel, cfg: Config, s: ClientSession, nextSeq: nat, ev: ReadEvent, metrics: bytes)
    requires !Answers(s, ev)
    ensures var out := AfterRequest(m, cfg, s, nextSeq, ev, metrics);
            Buffered(s, out.s) && !out.wantsWrite
  {
    hide TryReadFrame, HandlePayload;
  }

  /** Nobody waits in PREFILL or DECODE. */
  ghost predicate AllDone(pool: Pool) {
    forall fd :: fd in pool ==> !Busy(pool[fd])
  }

  /** A measure of zero means that nobody is waiting. */
  lemma NothingLeft(cfg: Config, w: State, fds: seq<Fd>)
    requires AllSmooth(cfg, w) && Measure(cfg, w.pool, fds) <= 0 && Covers(w.pool, fds)
    ensures AllDone(w.pool)
  {
    forall fd | fd in w.pool ensures !Busy(w.pool[fd]) {
      assert Smooth(cfg, w.pool[fd]);
      if Busy(w.pool[fd]) {
        var i :| 0 <= i < |fds| && fds[i] == fd;
        MeasureZero(cfg, w, fds, i);
      }
    }
  }

  lemma {:induction false} NobodyWaits(cfg: Config, pool: Pool, fds: seq<Fd>)
    requires AllDone(pool)
    ensures Measure(cfg, pool, fds) == 0
  {
    if fds != [] { NobodyWaits(cfg, pool, fds[..|fds| - 1]); }
  }

  /** Every successful tick lowers the measure until it is zero; other steps never raise it. */
  lemma StepDrains(m: LanguageModel, cfg: Config, w: State, h: History, step: Step, fds: seq<Fd>)
    requires Inv(m, cfg, w, h) && AllSmooth(cfg, w) && Possible(w, step) && Draining(w, step) && Covers(w.pool, fds)
    ensures var w1 := Next(m, cfg, w, step);
            && AllSmooth(cfg, w1) && Covers(w1.pool, fds)
            && Measure(cfg, w1.pool, fds) <= Measure(cfg, w.pool, fds)
            && (step.Tick? ==> Measure(cfg, w1.pool, fds) <= Max(0, Measure(cfg, w.pool, fds) - 1))
  {
    hide Inv, AllSmooth, NextTick, NextReadable, NextWritable, NextIdle, NextAccept, Covers, WeightAt, Enumerates;
    var w1 := Next(m, cfg, w, step);
    if step.Tick? {
      GoodTickIsSmooth(m, cfg, w, h, step.env, fds);
      MeasureFalls(cfg, w.pool, w1.pool, fds);
      if fd :| fd in w.pool && Busy(w.pool[fd]) {
        GoodTickDrains(m, cfg, w, h, step.env, fds, fd);
      } else {
        NobodyWaits(cfg, w.pool, fds);
      }
    } else {
      OtherStepDrains(m, cfg, w, step, fds);
    }
    CoversStill(cfg, w, w1, fds);
  }

  /** A session that waits after the step has waited before it. */
  lemma CoversStill(cfg: Config, w: State, w1: State, fds: seq<Fd>)
    requires AllSmooth(cfg, w1) && Covers(w.pool, fds)
    requires forall fd :: fd in w1.pool ==> WeightAt(cfg, w1.pool, fd) <= WeightAt(cfg, w.pool, fd)
    ensures Covers(w1.pool, fds)
  {
    forall fd | fd in w1.pool && Busy(w1.pool[fd]) ensures fd in fds {
      SmoothWeight(cfg, w1.pool[fd]);
    }
  }

  ghost function RunFrom(m: LanguageModel, cfg: Config, w: State, steps: seq<Step>): State
    decreases |steps|
  {
    if steps == [] then w else RunFrom(m, cfg, Next(m, cfg, w, steps[0]), steps[1..])
  }

  /** A list of steps that can happen from `w` and brings no new request. */
  ghost predicate DrainingRun(m: LanguageModel, cfg: Config, w: State, steps: seq<Step>)
    decreases |steps|
  {
    steps == [] ||
    (Possible(w, steps[0]) && Draining(w, steps[0]) && DrainingRun(m, cfg, Next(m, cfg, w, steps[0]), steps[1..]))
  }

  function Ticks(steps: seq<Step>): nat {
    if steps == [] then 0 else (if steps[0].Tick? then 1 else 0) + Ticks(steps[1..])
  }

  /**
   Drain: from any smooth state within the invariant, once as many successful ticks have passed
   as the measure of that state, no session is in PREFILL or DECODE any more, whatever other
   steps without a new request happen in between and with the cost guard on or off.
   */
  lemma {:induction false} EveryRequestFinishes(m: LanguageModel, cfg: Config, w: State, h: History, steps: seq<Step>, fds: seq<Fd>)
    requires Inv(m, cfg, w, h) && AllSmooth(cfg, w) && DrainingRun(m, cfg, w, steps) && Covers(w.pool, fds)
    requires Ticks(steps) >= Measure(cfg, w.pool, fds)
    ensures AllDone(RunFrom(m, cfg, w, steps).pool)
    decreases |steps|
  {
    hide Inv, AllSmooth, Next, NextHistory, AllDone, Covers, Measure, Draining, Possible;
    if steps == [] {
      NothingLeft(cfg, w, fds);
    } else {
      var step := steps[0];
      var w1 := Next(m, cfg, w, step);
      DrainingIsPolite(w, step);
      StepKeepsInv(m, cfg, w, h, step);
      StepDrains(m, cfg, w, h, step, fds);
      EveryRequestFinishes(m, cfg, w1, NextHistory(m, cfg, w, h, step), steps[1..], fds);
    }
  }

  lemma DrainingIsPolite(w: State, step: Step)
    requires Draining(w, step)
    ensures Polite(w, step)
  {
  }

  // ---------------------------------------------------------------- smooth states are what runs reach

  lemma StepKeepsSmooth(m: LanguageModel, cfg: Config, w: State, h: History, step: Step)
    requires Inv(m, cfg, w, h) && AllSmooth(cfg, w) && Possible(w, step) && GoodTick(step)
    ensures AllSmooth(cfg, Next(m, cfg, w, step))
  {
    hide Inv, NextTick, AfterRequest;
    match step {
      case Readable(fd, ev, metrics, wrote) =>
        if fd in w.pool { ReadKeepsSmooth(m, cfg, w.pool[fd], w.nextSeq, ev, metrics); }
      case Tick(env) => GoodTickIsSmooth(m, cfg, w, h, env, []);
      case _ =>
    }
  }

  /** Runs with successful decodes stay smooth. */
  lemma {:induction false} GoodRunsAreSmooth(m: LanguageModel, cfg: Config, cap: int, steps: seq<Step>)
    requires cap >= 1 && Legal(m, cfg, cap, steps) && forall i :: 0 <= i < |steps| ==> GoodTick(steps[i])
    ensures AllSmooth(cfg, After(m, cfg, cap, steps).state)
  {
    hide Inv, Next, NextHistory, Possible, Polite;
    if steps != [] {
      var n := |steps| - 1;
      var x := After(m, cfg, cap, steps[..n]);
      GoodRunsAreSmooth(m, cfg, cap, steps[..n]);
      RunKeepsInv(m, cfg, cap, steps[..n]);
      assert GoodTick(steps[n]);
      StepKeepsSmooth(m, cfg, x.state, x.history, steps[n]);
    }
  }

  /** A run that goes on is a run from where it was. */
  lemma {:induction false} RunGoesOn(m: LanguageModel, cfg: Config, cap: int, steps: seq<Step>, more: seq<Step>)
    ensures After(m, cfg, cap, steps + more).state == RunFrom(m, cfg, After(m, cfg, cap, steps).state, more)
    decreases |more|
  {
    hide Next, NextHistory;
    if more == [] {
      assert steps + more == steps;
    } else {
      assert steps + more == (steps + [more[0]]) + more[1..];
      assert (steps + [more[0]])[..|steps|] == steps;
      RunGoesOn(m, cfg, cap, steps + [more[0]], more[1..]);
    }
  }

  /**
   Drain, for runs: after any run with successful decodes, once no more requests arrive and as
   many successful ticks have passed as the measure of the state then reached, no session is in
   PREFILL or DECODE.
   */
  lemma RunsDrain(m: LanguageModel, cfg: Config, cap: int, steps: seq<Step>, more: seq<Step>, fds: seq<Fd>)
    requires cap >= 1 && Legal(m, cfg, cap, steps) && forall i :: 0 <= i < |steps| ==> GoodTick(steps[i])
    requires DrainingRun(m, cfg, After(m, cfg, cap, steps).state, more) && Covers(After(m, cfg, cap, steps).state.pool, fds)
    requires Ticks(more) >= Measure(cfg, After(m, cfg, cap, steps).state.pool, fds)
    ensures AllDone(After(m, cfg, cap, steps + more).state.pool)
  {
    hide After, Legal, Inv, AllSmooth, DrainingRun, RunFrom, GoodTick, Measure, AllDone, Covers;
    var x := After(m, cfg, cap, steps);
    RunKeepsInv(m, cfg, cap, steps);
    GoodRunsAreSmooth(m, cfg, cap, steps);
    RunGoesOn(m, cfg, cap, steps, more);
    EveryRequestFinishes(m, cfg, x.state, x.history, more, fds);
  }
}
