/** Round-robin fairness for the ticks of a run, whatever other steps come between them. */
module FairRuns {
  import opened Bounds
  import opened Sessions
  import opened Policy
  import opened PlanProperties
  import opened Fairness
  import opened Bmt
  import opened Batch
  import opened TickSpec
  import opened Lifecycle
  import opened Histories
  import opened Runs
  import opened Draining

  /** Where a run ticks: what the planner is given. */
  datatype Point = Point(pool: Pool, sched: SchedState, order: seq<Fd>) {
    function Input(): TickInput {
      TickInput(pool, order, sched.cap, sched.tuning.target, sched.rrPrefill)
    }
  }

  /** The ticks of a list of steps from `w` on. */
  ghost function Points(m: LanguageModel, cfg: Config, w: State, steps: seq<Step>): seq<Point>
    decreases |steps|
  {
    if steps == [] then []
    else
      (if steps[0].Tick? then [Point(w.pool, w.sched, steps[0].env.order)] else []) +
      Points(m, cfg, Next(m, cfg, w, steps[0]), steps[1..])
  }

  function Inputs(ps: seq<Point>): seq<TickInput> {
    seq(|ps|, t requires 0 <= t < |ps| => ps[t].Input())
  }

  function Cursors(ps: seq<Point>): seq<nat> {
    seq(|ps|, t requires 0 <= t < |ps| => ps[t].sched.rrDecode)
  }

  /** The decoder is given a token at that tick, after the cost guard. */
  predicate FedAt(cfg: Config, p: Point, fd: Fd) {
    BatchItem(fd, DECODE, 1) in FinalPlan(cfg, p.pool, p.sched, p.order).items
  }

  // ---------------------------------------------------------------- the guard

  /** The guard takes no decode item away. */
  lemma GuardKeepsDecodes(pool: Pool, items: seq<BatchItem>, budget: nat, fd: Fd)
    requires forall i :: 0 <= i < |items| ==> items[i].nTokens >= 0
    ensures BatchItem(fd, DECODE, 1) in Guard(pool, items, budget) <==> BatchItem(fd, DECODE, 1) in items
  {
    hide Guard, Estimate;
    var out := Guard(pool, items, budget);
    var k := GuardCuts(pool, items, budget);
    assert forall i :: 0 <= i < |items| && (items[i].phase.DECODE? || out[i].phase.DECODE?) ==> out[i] == items[i];
  }

  lemma FedIsServed(cfg: Config, p: Point, fd: Fd)
    requires Enumerates(p.order, p.pool)
    ensures FedAt(cfg, p, fd) <==> Served(p.Input(), p.sched.rrDecode, fd)
  {
    hide PlanOf, Guard;
    var plan := PlanOf(p.pool, p.order, p.sched.cap, p.sched.tuning.target, p.sched.rrDecode, p.sched.rrPrefill);
    if cfg.bmtBudget > 0 {
      PlanIsCorrect(p.pool, p.order, p.sched.cap, p.sched.tuning.target, p.sched.rrDecode, p.sched.rrPrefill);
      assert forall i :: 0 <= i < |plan.items| ==> ItemOk(p.pool, plan.items[i]);
      GuardKeepsDecodes(p.pool, plan.items, cfg.bmtBudget, fd);
    }
  }

  // ---------------------------------------------------------------- the cursor

  /** Each tick hands its cursors to the next. */
  ghost predicate Linked(ps: seq<Point>) {
    && (forall t :: 0 <= t < |ps| ==> Enumerates(ps[t].order, ps[t].pool))
    && forall t, u :: 0 <= t < u < |ps| && u == t + 1 ==>
         && ps[u].sched.rrDecode == ps[t].Input().PlanAt(ps[t].sched.rrDecode).nextRrDecode
         && ps[u].sched.rrPrefill == ps[t].Input().PlanAt(ps[t].sched.rrDecode).nextRrPrefill
  }

  lemma OtherStepsKeepSched(m: LanguageModel, cfg: Config, w: State, step: Step)
    requires !step.Tick?
    ensures Next(m, cfg, w, step).sched == w.sched
  {
    hide AfterRequest, SessionManagement.WithoutSeq, Unsent;
  }

  lemma TickHandsOver(m: LanguageModel, cfg: Config, w: State, h: History, env: TickEnv)
    requires Inv(m, cfg, w, h) && Enumerates(env.order, w.pool)
    ensures var plan := Point(w.pool, w.sched, env.order).Input().PlanAt(w.sched.rrDecode);
            var sched := NextTick(m, cfg, w, env).sched;
            sched.rrDecode == plan.nextRrDecode && sched.rrPrefill == plan.nextRrPrefill
  {
    hide Inv, RunBatch, FinalItems, PlanOf, Guard;
    var items := TickItems(m, cfg, w, h, env);
  }

  /** The steps are legal from `w` on. */
  ghost predicate LegalFrom(m: LanguageModel, cfg: Config, w: State, steps: seq<Step>)
    decreases |steps|
  {
    steps == [] ||
    (Possible(w, steps[0]) && Polite(w, steps[0]) && LegalFrom(m, cfg, Next(m, cfg, w, steps[0]), steps[1..]))
  }

  lemma {:induction false} LegalGoesOn(m: LanguageModel, cfg: Config, cap: int, steps: seq<Step>, more: seq<Step>)
    requires Legal(m, cfg, cap, steps + more)
    ensures LegalFrom(m, cfg, After(m, cfg, cap, steps).state, more)
    decreases |more|
  {
    hide Next, NextHistory, Possible, Polite, Legal;
    if more != [] {
      assert more[..0] == [] && steps + [] == steps;
      LegalNext(m, cfg, cap, steps, more, 0);
      assert steps + more == (steps + [more[0]]) + more[1..];
      assert (steps + [more[0]])[..|steps|] == steps;
      LegalGoesOn(m, cfg, cap, steps + [more[0]], more[1..]);
    }
  }

  lemma {:induction false} PointsAreLinked(m: LanguageModel, cfg: Config, w: State, h: History, steps: seq<Step>)
    requires Inv(m, cfg, w, h) && LegalFrom(m, cfg, w, steps)
    ensures var ps := Points(m, cfg, w, steps);
            Linked(ps) && (ps != [] ==> ps[0].sched.rrDecode == w.sched.rrDecode && ps[0].sched.rrPrefill == w.sched.rrPrefill)
    decreases |steps|
  {
    hide Inv, Next, NextHistory, Polite, PlanOf, Enumerates;
    if steps != [] {
      var w1 := Next(m, cfg, w, steps[0]);
      StepKeepsInv(m, cfg, w, h, steps[0]);
      PointsAreLinked(m, cfg, w1, NextHistory(m, cfg, w, h, steps[0]), steps[1..]);
      if steps[0].Tick? {
        StepIsTick(m, cfg, w, steps[0]);
        TickHandsOver(m, cfg, w, h, steps[0].env);
      } else {
        OtherStepsKeepSched(m, cfg, w, steps[0]);
      }
    }
  }

  lemma StepIsTick(m: LanguageModel, cfg: Config, w: State, step: Step)
    requires step.Tick?
    ensures Next(m, cfg, w, step) == NextTick(m, cfg, w, step.env)
  {
    hide NextTick;
  }

  // ---------------------------------------------------------------- fairness

  /** The ticks of a continued run, chained as the planner chains them. */
  lemma RunPoints(m: LanguageModel, cfg: Config, cap: int, steps: seq<Step>, more: seq<Step>)
    requires cap >= 1 && Legal(m, cfg, cap, steps) && Legal(m, cfg, cap, steps + more)
    ensures var ps := Points(m, cfg, After(m, cfg, cap, steps).state, more);
            Linked(ps) && Chained(Inputs(ps), Cursors(ps)) && PrefillChained(Inputs(ps), Cursors(ps))
  {
    hide After, Legal, Inv, LegalFrom, Points, PlanOf;
    RunKeepsInv(m, cfg, cap, steps);
    LegalGoesOn(m, cfg, cap, steps, more);
    var x := After(m, cfg, cap, steps);
    PointsAreLinked(m, cfg, x.state, x.history, more);
  }

  /**
   In every run: while the decode pool keeps the same N sessions in the same order and there is
   budget, any N consecutive ticks give each of them a token, cost guard or not.
   */
  lemma FairInRuns(m: LanguageModel, cfg: Config, cap: int, steps: seq<Step>, more: seq<Step>, ready: seq<Fd>, j: nat) returns (t: nat)
    requires cap >= 1 && Legal(m, cfg, cap, steps) && Legal(m, cfg, cap, steps + more)
    requires var ps := Points(m, cfg, After(m, cfg, cap, steps).state, more);
             Steady(Inputs(ps), ready) && j < |ready| == |ps|
    ensures var ps := Points(m, cfg, After(m, cfg, cap, steps).state, more);
            t < |ps| && FedAt(cfg, ps[t], ready[j])
  {
    hide After, Legal, Points, FedAt, Served, Steady, Chained;
    var ps := Points(m, cfg, After(m, cfg, cap, steps).state, more);
    RunPoints(m, cfg, cap, steps, more);
    t := ServedWithinOneRound(Inputs(ps), Cursors(ps), ready, j);
    FedIsServed(cfg, ps[t], ready[j]);
  }

  /** How many of the ticks give `fd` a token. */
  function TimesFed(cfg: Config, ps: seq<Point>, fd: Fd): nat {
    CountTrue(seq(|ps|, t requires 0 <= t < |ps| => FedAt(cfg, ps[t], fd)))
  }

  /** With a constant budget B they give each session exactly min(B, N) tokens. */
  lemma EquallyFedInRuns(m: LanguageModel, cfg: Config, cap: int, steps: seq<Step>, more: seq<Step>, ready: seq<Fd>, j: nat, budget: int)
    requires cap >= 1 && Legal(m, cfg, cap, steps) && Legal(m, cfg, cap, steps + more)
    requires var ps := Points(m, cfg, After(m, cfg, cap, steps).state, more);
             && Steady(Inputs(ps), ready) && j < |ready| == |ps|
             && forall t :: 0 <= t < |ps| ==> ps[t].Input().Budget() == budget
    ensures TimesFed(cfg, Points(m, cfg, After(m, cfg, cap, steps).state, more), ready[j]) == Min(budget, |ready|)
  {
    hide After, Legal, Points, FedAt, Served, Steady, Chained, CountTrue;
    var ps := Points(m, cfg, After(m, cfg, cap, steps).state, more);
    RunPoints(m, cfg, cap, steps, more);
    ServedEqually(Inputs(ps), Cursors(ps), ready, j, budget);
    SameCount(cfg, ps, ready[j]);
  }

  lemma SameCount(cfg: Config, ps: seq<Point>, fd: Fd)
    requires forall t :: 0 <= t < |ps| ==> Enumerates(ps[t].order, ps[t].pool)
    ensures TimesFed(cfg, ps, fd) == TimesServed(Inputs(ps), Cursors(ps), fd)
  {
    hide FedAt, Served, Enumerates, CountTrue;
    var fed := seq(|ps|, t requires 0 <= t < |ps| => FedAt(cfg, ps[t], fd));
    var served := seq(|ps|, t requires 0 <= t < |ps| => Served(Inputs(ps)[t], Cursors(ps)[t], fd));
    forall t | 0 <= t < |ps| ensures fed[t] == served[t] {
      FedIsServed(cfg, ps[t], fd);
    }
    assert fed == served;
  }

  // ---------------------------------------------------------------- prefill

  /** The session is the first to be prefilled at that tick, after the cost guard. */
  ghost predicate HeadsAt(cfg: Config, p: Point, fd: Fd) {
    HeadsIn(FinalPlan(cfg, p.pool, p.sched, p.order).items, |DecodePool(p.pool, p.order)|, fd)
  }

  /** The guard may shorten the first chunk, but it moves nothing. */
  lemma HeadsSurvives(cfg: Config, p: Point, fd: Fd)
    requires Enumerates(p.order, p.pool)
    ensures HeadsAt(cfg, p, fd) <==> Heads(p.Input(), p.sched.rrDecode, fd)
  {
    hide PlanOf, Guard;
    var plan := PlanOf(p.pool, p.order, p.sched.cap, p.sched.tuning.target, p.sched.rrDecode, p.sched.rrPrefill);
    if cfg.bmtBudget > 0 {
      PlanIsCorrect(p.pool, p.order, p.sched.cap, p.sched.tuning.target, p.sched.rrDecode, p.sched.rrPrefill);
      assert forall i :: 0 <= i < |plan.items| ==> ItemOk(p.pool, plan.items[i]);
      var k := GuardCuts(p.pool, plan.items, cfg.bmtBudget);
    }
  }

  /**
   In every run: while the prefill pool keeps the same N waiting sessions in the same order and
   phase A leaves budget, each of them is the first to be prefilled at exactly one of any N
   consecutive ticks.
   */
  lemma PrefillFairInRuns(m: LanguageModel, cfg: Config, cap: int, steps: seq<Step>, more: seq<Step>, ready: seq<Fd>, j: nat) returns (t: nat)
    requires cap >= 1 && Legal(m, cfg, cap, steps) && Legal(m, cfg, cap, steps + more)
    requires var ps := Points(m, cfg, After(m, cfg, cap, steps).state, more);
             SteadyPrefill(Inputs(ps), ready) && j < |ready| == |ps|
    ensures var ps := Points(m, cfg, After(m, cfg, cap, steps).state, more);
            && t < |ps| && HeadsAt(cfg, ps[t], ready[j])
            && forall u :: 0 <= u < |ps| && HeadsAt(cfg, ps[u], ready[j]) ==> u == t
  {
    hide After, Legal, Points, HeadsAt, Heads, SteadyPrefill, Chained, PrefillChained;
    var ps := Points(m, cfg, After(m, cfg, cap, steps).state, more);
    RunPoints(m, cfg, cap, steps, more);
    t := HeadsExactlyOnce(Inputs(ps), Cursors(ps), ready, j);
    forall u | 0 <= u < |ps| ensures HeadsAt(cfg, ps[u], ready[j]) <==> Heads(Inputs(ps)[u], Cursors(ps)[u], ready[j]) {
      HeadsSurvives(cfg, ps[u], ready[j]);
    }
  }
}
