/** One tick of the scheduler as a function: final plan, batch, and the scheduler's own state. */
module TickSpec {
  import opened Bounds
  import opened Sessions
  import opened Policy
  import opened PlanProperties
  import opened Bmt
  import opened Batch
  import opened NonInterference
  import opened Controller
  import opened Accounting

  datatype SchedState = SchedState(cap: int, tuning: Tuning, rrDecode: nat, rrPrefill: nat, metrics: Metrics)

  function InitialSched(cap: int): SchedState {
    SchedState(cap, Initial(cap), 0, 0, ZERO)
  }

  /** The plan after the cost guard, if one is configured. */
  function Guarded(cfg: Config, pool: Pool, plan: Plan): Plan {
    if cfg.bmtBudget == 0 then plan
    else
      var items := Guard(pool, plan.items, cfg.bmtBudget);
      plan.(items := items, prefillTok := plan.prefillTok - (PrefillLeft(plan.items) - PrefillLeft(items)))
  }

  function FinalPlan(cfg: Config, pool: Pool, sched: SchedState, order: seq<Fd>): Plan {
    Guarded(cfg, pool, PlanOf(pool, order, sched.cap, sched.tuning.target, sched.rrDecode, sched.rrPrefill))
  }

  function Nat(x: int): nat {
    if x < 0 then 0 else x
  }

  function Millis(durNs: nat): real {
    durNs as real / 1_000_000.0
  }

  /** Cursors always move; metrics and controller only when there was a model call. */
  function NextSched(sched: SchedState, plan: Plan, rows: nat, durNs: nat): SchedState {
    var s := sched.(rrDecode := plan.nextRrDecode, rrPrefill := plan.nextRrPrefill);
    if rows == 0 then s
    else
      s.(metrics := Record(sched.metrics, Call(durNs, Nat(plan.decodeTok), Nat(plan.prefillTok))),
         tuning := Tune(sched.cap, sched.tuning, Millis(durNs)))
  }

  // ---------------------------------------------------------------- the final plan is enactable

  /** Sessions that the scheduler may serve have a sequence of their own. */
  ghost predicate PoolOk(pool: Pool) {
    && DistinctSeqs(pool)
    && forall fd :: fd in pool && (pool[fd].state.Prefill? || pool[fd].state.Decode?) ==> pool[fd].seqId >= 0
  }

  /** Like `ItemOk`, except that the guard may have trimmed a chunk, down to nothing. */
  ghost predicate FinalItem(pool: Pool, it: BatchItem) {
    && it.fd in pool
    && (it.phase.DECODE? ==> DecodeReady(pool[it.fd]) && it.nTokens == 1)
    && (it.phase.PREFILL? ==> PrefillReady(pool[it.fd]) && 0 <= it.nTokens <= FullChunk(pool[it.fd]))
  }

  ghost predicate FinalItems(pool: Pool, items: seq<BatchItem>) {
    DistinctFds(items) && forall i :: 0 <= i < |items| ==> FinalItem(pool, items[i])
  }

  lemma GuardKeepsItems(pool: Pool, items: seq<BatchItem>, budget: nat)
    requires ItemsOk(pool, items) && DistinctFds(items)
    ensures FinalItems(pool, Guard(pool, items, budget))
  {
    assert forall i :: 0 <= i < |items| ==> ItemOk(pool, items[i]) && items[i].nTokens >= 0;
    var k := GuardCuts(pool, items, budget);
    var out := Guard(pool, items, budget);
    forall i | 0 <= i < |out| ensures FinalItem(pool, out[i]) {
      assert ItemOk(pool, items[i]);
      assert out[i].fd == items[i].fd && out[i].phase == items[i].phase;
      assert out[i] == items[i] || 0 <= out[i].nTokens <= items[i].nTokens;
    }
    forall i, j | 0 <= i < j < |out| ensures out[i].fd != out[j].fd {
      assert out[i].fd == items[i].fd && out[j].fd == items[j].fd;
    }
  }

  lemma FinalPlanItems(cfg: Config, pool: Pool, sched: SchedState, order: seq<Fd>)
    requires Enumerates(order, pool)
    ensures FinalItems(pool, FinalPlan(cfg, pool, sched, order).items)
  {
    var plan := PlanOf(pool, order, sched.cap, sched.tuning.target, sched.rrDecode, sched.rrPrefill);
    PlanIsCorrect(pool, order, sched.cap, sched.tuning.target, sched.rrDecode, sched.rrPrefill);
    assert ItemsOk(pool, plan.items) && DistinctFds(plan.items);
    if cfg.bmtBudget == 0 {
      forall i | 0 <= i < |plan.items| ensures FinalItem(pool, plan.items[i]) {
        assert ItemOk(pool, plan.items[i]);
      }
    } else {
      GuardKeepsItems(pool, plan.items, cfg.bmtBudget);
    }
  }

  lemma FinalItemsEnactable(pool: Pool, items: seq<BatchItem>)
    requires FinalItems(pool, items) && PoolOk(pool)
    ensures AllEnactable(pool, items)
  {
    forall i | 0 <= i < |items| ensures Enactable(pool, items[i]) {
      assert FinalItem(pool, items[i]);
    }
  }

  // ---------------------------------------------------------------- counting

  lemma {:induction false} RowsAreTokens(pool: Pool, items: seq<BatchItem>)
    requires AllEnactable(pool, items) && forall i :: 0 <= i < |items| ==> items[i].nTokens >= 0
    ensures |BatchRows(pool, items)| == Tokens(items)
  {
    if items != [] {
      var n := |items| - 1;
      RowsAreTokens(pool, items[..n]);
      assert Enactable(pool, items[n]);
      ItemRowsLength(pool[items[n].fd], items[n]);
      TokensSnoc(items[..n], items[n]);
      assert items == items[..n] + [items[n]];
    }
  }

  lemma {:induction false} ShrinkTokens(items: seq<BatchItem>, k: nat)
    requires k < |items|
    ensures Tokens(Shrink(items, k)) == Tokens(items) - 1
  {
    if k == 0 {
      assert Shrink(items, k)[1..] == items[1..];
    } else {
      assert Shrink(items, k)[1..] == Shrink(items[1..], k - 1);
      ShrinkTokens(items[1..], k - 1);
    }
  }

  /** The guard's counter tracks the tokens it removes. */
  lemma {:induction false} GuardTokens(pool: Pool, items: seq<BatchItem>, budget: nat)
    ensures var out := Guard(pool, items, budget);
            && Tokens(out) == Tokens(items) - (PrefillLeft(items) - PrefillLeft(out))
            && PrefillLeft(out) <= PrefillLeft(items)
    decreases PrefillLeft(items)
  {
    var k := LastChunk(items);
    if Estimate(pool, items) > budget && k != -1 {
      ShrinkLeavesLess(items, k);
      ShrinkTokens(items, k);
      GuardTokens(pool, Shrink(items, k), budget);
    }
  }

  lemma {:induction false} LeftAppend(a: seq<BatchItem>, b: seq<BatchItem>)
    ensures PrefillLeft(a + b) == PrefillLeft(a) + PrefillLeft(b)
  {
    if b == [] {
      assert a + b == a;
    } else {
      var n := |b| - 1;
      assert (a + b)[..|a + b| - 1] == a + b[..n];
      LeftAppend(a, b[..n]);
    }
  }

  /** Prefill tokens of a list of one phase: none, or all. */
  lemma {:induction false} LeftOfPhase(items: seq<BatchItem>, phase: Phase)
    requires forall i :: 0 <= i < |items| ==> items[i].phase == phase && items[i].nTokens >= 0
    ensures PrefillLeft(items) == if phase.DECODE? then 0 else Tokens(items)
  {
    if items != [] {
      var n := |items| - 1;
      LeftOfPhase(items[..n], phase);
      TokensSnoc(items[..n], items[n]);
      assert items == items[..n] + [items[n]];
    }
  }

  lemma PhaseLeft(pool: Pool, decoders: seq<Fd>, prefills: seq<Fd>, rrd: nat, rrp: nat, budget: int, left: int)
    requires ReadyFds(pool, prefills) && NoDup(prefills)
    ensures PrefillLeft(DecodeItems(decoders, rrd, budget) + PrefillPlan(pool, prefills, rrp, left))
         == Tokens(PrefillPlan(pool, prefills, rrp, left))
  {
    var a, b := DecodeItems(decoders, rrd, budget), PrefillPlan(pool, prefills, rrp, left);
    assert PrefillLeft(a) == 0 by { LeftOfPhase(a, DECODE); }
    assert PrefillLeft(b) == Tokens(b) by {
      PrefillPlanIsOk(pool, prefills, rrp, left);
      AllPrefill(pool, prefills, b, left);
      LeftOfPhase(b, PREFILL);
    }
    LeftAppend(a, b);
  }

  lemma PlanTokens(pool: Pool, order: seq<Fd>, cap: int, target: int, rrd: nat, rrp: nat)
    requires Enumerates(order, pool)
    ensures var plan := PlanOf(pool, order, cap, target, rrd, rrp);
            && Tokens(plan.items) == plan.decodeTok + plan.prefillTok && 0 <= plan.decodeTok
            && (Tokens(plan.items) > 0 ==> Tokens(plan.items) <= Min(target, cap))
  {
    PlanIsCorrect(pool, order, cap, target, rrd, rrp);
  }

  /** What the counters of an unguarded plan count. */
  lemma PlanCounts(pool: Pool, order: seq<Fd>, cap: int, target: int, rrd: nat, rrp: nat)
    requires Enumerates(order, pool)
    ensures var plan := PlanOf(pool, order, cap, target, rrd, rrp);
            && Tokens(plan.items) == plan.decodeTok + plan.prefillTok
            && plan.prefillTok == PrefillLeft(plan.items) && 0 <= plan.decodeTok
            && (Tokens(plan.items) > 0 ==> Tokens(plan.items) <= Min(target, cap))
  {
    PlanTokens(pool, order, cap, target, rrd, rrp);
    var decoders, prefills := DecodePool(pool, order), PrefillPool(pool, order);
    assert ReadyFds(pool, prefills) && NoDup(prefills) by { PoolsAreReady(pool, order); }
    var budget := Min(target, cap);
    PhaseLeft(pool, decoders, prefills, rrd, rrp, budget, budget - |DecodeItems(decoders, rrd, budget)|);
  }

  lemma AllPrefill(pool: Pool, ready: seq<Fd>, items: seq<BatchItem>, budget: int)
    requires PrefillPlanOk(pool, ready, items, budget)
    ensures forall i :: 0 <= i < |items| ==> items[i].phase == PREFILL && items[i].nTokens >= 0
  {
    forall i | 0 <= i < |items| ensures items[i].phase == PREFILL && items[i].nTokens >= 0 {
      assert ItemOk(pool, items[i]);
    }
  }

  lemma GuardedCounts(cfg: Config, pool: Pool, plan: Plan)
    requires Tokens(plan.items) == plan.decodeTok + plan.prefillTok && plan.prefillTok == PrefillLeft(plan.items)
    ensures var g := Guarded(cfg, pool, plan);
            && Tokens(g.items) == g.decodeTok + g.prefillTok && g.prefillTok == PrefillLeft(g.items)
            && g.decodeTok == plan.decodeTok && Tokens(g.items) <= Tokens(plan.items)
  {
    GuardTokens(pool, plan.items, cfg.bmtBudget);
  }

  /** The counters of the final plan add up to the rows of the batch, and the batch fits the capacity. */
  lemma FinalPlanCounts(cfg: Config, pool: Pool, sched: SchedState, order: seq<Fd>)
    requires Enumerates(order, pool) && PoolOk(pool)
    ensures var plan := FinalPlan(cfg, pool, sched, order);
            && AllEnactable(pool, plan.items)
            && |BatchRows(pool, plan.items)| == plan.decodeTok + plan.prefillTok
            && 0 <= plan.decodeTok && 0 <= plan.prefillTok
            && (BatchRows(pool, plan.items) != [] ==>
                  |BatchRows(pool, plan.items)| <= Min(sched.tuning.target, sched.cap))
  {
    PlanCounts(pool, order, sched.cap, sched.tuning.target, sched.rrDecode, sched.rrPrefill);
    GuardedCounts(cfg, pool, PlanOf(pool, order, sched.cap, sched.tuning.target, sched.rrDecode, sched.rrPrefill));
    FinalPlanItems(cfg, pool, sched, order);
    var plan := FinalPlan(cfg, pool, sched, order);
    FinalItemsEnactable(pool, plan.items);
    forall i | 0 <= i < |plan.items| ensures plan.items[i].nTokens >= 0 {
      assert FinalItem(pool, plan.items[i]);
    }
    RowsAreTokens(pool, plan.items);
  }

  // ---------------------------------------------------------------- the shape of the batch

  ghost function RowCost(rows: seq<Row>): int {
    if rows == [] then 0 else RowCost(rows[..|rows| - 1]) + rows[|rows| - 1].pos + 1
  }

  lemma {:induction false} RowCostAppend(a: seq<Row>, b: seq<Row>)
    ensures RowCost(a + b) == RowCost(a) + RowCost(b)
  {
    if b == [] {
      assert a + b == a;
    } else {
      var n := |b| - 1;
      assert (a + b)[..|a + b| - 1] == a + b[..n];
      RowCostAppend(a, b[..n]);
    }
  }

  lemma {:induction false} ConsecutiveCost(rows: seq<Row>, base: nat)
    requires forall j :: 0 <= j < |rows| ==> rows[j].pos == base + j
    ensures RowCost(rows) == ChunkCost(base, |rows|)
  {
    if rows != [] { ConsecutiveCost(rows[..|rows| - 1], base); }
  }

  /** The cost of the batch that is really sent, row by row, is the estimate of the enacted plan. */
  lemma {:induction false} BatchCostIsEstimate(pool: Pool, items: seq<BatchItem>)
    requires AllEnactable(pool, items)
    ensures RowCost(BatchRows(pool, items)) == Estimate(pool, items)
  {
    if items != [] {
      var n := |items| - 1;
      BatchCostIsEstimate(pool, items[..n]);
      assert Enactable(pool, items[n]);
      var rows := ItemRows(pool[items[n].fd], items[n]);
      RowCostAppend(BatchRows(pool, items[..n]), rows);
      ConsecutiveCost(rows, pool[items[n].fd].nPast);
      ItemRowsLength(pool[items[n].fd], items[n]);
      assert ChunkCost(pool[items[n].fd].nPast, 1) == ChunkCost(pool[items[n].fd].nPast, 0) + pool[items[n].fd].nPast + 1;
    }
  }

  /** The positions of the rows that ask for logits, in batch order. */
  ghost function LogitsRows(rows: seq<Row>): seq<nat> {
    if rows == [] then []
    else LogitsRows(rows[..|rows| - 1]) + if rows[|rows| - 1].logits then [|rows| - 1] else []
  }

  lemma {:induction false} LogitsRowsAppend(a: seq<Row>, b: seq<Row>)
    requires forall j :: 0 <= j < |b| ==> (b[j].logits <==> j == |b| - 1)
    ensures LogitsRows(a + b) == LogitsRows(a) + if b == [] then [] else [|a + b| - 1]
  {
    if b == [] {
      assert a + b == a;
    } else {
      var n := |b| - 1;
      assert (a + b)[..|a + b| - 1] == a + b[..n];
      NoLogits(a, b[..n]);
    }
  }

  lemma {:induction false} NoLogits(a: seq<Row>, b: seq<Row>)
    requires forall j :: 0 <= j < |b| ==> !b[j].logits
    ensures LogitsRows(a + b) == LogitsRows(a)
  {
    if b == [] {
      assert a + b == a;
    } else {
      var n := |b| - 1;
      assert (a + b)[..|a + b| - 1] == a + b[..n];
      NoLogits(a, b[..n]);
    }
  }

  /** Samples and logits rows correspond one to one, in order. */
  lemma {:induction false} SamplesAreLogitsRows(pool: Pool, items: seq<BatchItem>)
    requires AllEnactable(pool, items)
    ensures var refs := Samples(pool, items);
            var rows := LogitsRows(BatchRows(pool, items));
            |refs| == |rows| && forall j :: 0 <= j < |refs| ==> refs[j].index == rows[j]
  {
    if items != [] {
      var n := |items| - 1;
      SamplesAreLogitsRows(pool, items[..n]);
      assert Enactable(pool, items[n]);
      ItemRowsLength(pool[items[n].fd], items[n]);
      LogitsRowsAppend(BatchRows(pool, items[..n]), ItemRows(pool[items[n].fd], items[n]));
    }
  }
}
