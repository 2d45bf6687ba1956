/**
 The cost model of sched/bmt.cpp and the guard that trims a plan to a cost budget. The guard
 keeps a running estimate; it is proved to equal the estimator's value at every step.
 */
module Bmt {
  import opened Sessions
  import opened Policy

  // ---------------------------------------------------------------- the estimator

  /** Cost of `m` tokens behind `base` earlier ones, token by token. */
  function ChunkCost(base: nat, m: nat): nat {
    if m == 0 then 0 else ChunkCost(base, m - 1) + base + m
  }

  const TWO32: nat := 0x1_0000_0000
  const TWO64: nat := 0x1_0000_0000_0000_0000

  /** `sum_arith` in 64-bit arithmetic; `n - 1` wraps when `n` is zero. */
  function SumArith(a0: nat, d: nat, n: nat): nat {
    var last := if n == 0 then TWO64 - 1 else n - 1;
    var twice := (2 * a0 % TWO64 + last * d % TWO64) % TWO64;
    n * twice % TWO64 / 2
  }

  lemma {:induction false} TwiceChunkCost(base: nat, m: nat)
    ensures 2 * ChunkCost(base, m) == m * (2 * base + m + 1)
  {
    if m > 0 {
      TwiceChunkCost(base, m - 1);
      assert m * (2 * base + m + 1) == (m - 1) * (2 * base + m) + 2 * base + 2 * m;
    }
  }

  /** The closed form is exact for all 32-bit session counters: nothing wraps. */
  lemma SumArithIsExact(base: nat, m: nat)
    requires base < 0x8000_0000 && m < 0x8000_0000
    ensures SumArith(base + 1, 1, m) == ChunkCost(base, m)
  {
    TwiceChunkCost(base, m);
    if m > 0 {
      var twice := 2 * (base + 1) + (m - 1);
      NoInnerWrap(base + 1, m);
      ProductBound(m, 0x8000_0000, twice, 0x1_8000_0002);
      HalvesExactly(m, twice, ChunkCost(base, m));
    }
  }

  lemma NoInnerWrap(a0: nat, n: nat)
    requires a0 <= 0x8000_0000 && 0 < n < 0x8000_0000
    ensures SumArith(a0, 1, n) == n * (2 * a0 + (n - 1)) % TWO64 / 2
  {
    var last := n - 1;
    assert last * 1 == last;
    assert last % TWO64 == last && 2 * a0 % TWO64 == 2 * a0;
    assert (2 * a0 + last) % TWO64 == 2 * a0 + last;
  }

  lemma HalvesExactly(n: nat, twice: nat, cost: nat)
    requires n * twice == 2 * cost < TWO64
    ensures n * twice % TWO64 / 2 == cost
  {
    var p := n * twice;
    assert p % TWO64 == p;
  }

  lemma ProductBound(a: nat, x: nat, b: nat, y: nat)
    requires a < x && b < y
    ensures a * b < x * y
  {
    assert a * b <= x * b;
  }

  function Chunk(it: BatchItem): nat {
    if it.nTokens > 0 then it.nTokens else 0
  }

  /** Cost of one item; items of unknown sessions are skipped. */
  function ItemCost(pool: Pool, it: BatchItem): nat {
    if it.fd !in pool then 0
    else if it.phase.DECODE? then pool[it.fd].nPast + 1
    else ChunkCost(pool[it.fd].nPast, Chunk(it))
  }

  function Estimate(pool: Pool, items: seq<BatchItem>): nat {
    if items == [] then 0
    else Estimate(pool, items[..|items| - 1]) + ItemCost(pool, items[|items| - 1])
  }

  /** The counters that the estimator reads are `int32_t`. */
  ghost predicate Counters32(pool: Pool, items: seq<BatchItem>) {
    forall i :: 0 <= i < |items| ==>
      items[i].nTokens < 0x8000_0000 && (items[i].fd in pool ==> pool[items[i].fd].nPast < 0x8000_0000)
  }

  /** Addition of `uint64_t`. */
  function Add64(a: nat, b: nat): nat {
    (a + b) % TWO64
  }

  lemma Add64Exact(a: nat, b: nat)
    ensures Add64(a % TWO64, b) == (a + b) % TWO64
  {
    var q, r := a / TWO64, a % TWO64;
    assert a + b == r + b + q * TWO64;
    var p := (r + b) / TWO64;
    assert a + b == (r + b) % TWO64 + (p + q) * TWO64;
  }

  /** `estimate_units`, with the closed form and the 64-bit accumulator of the source. */
  method EstimateUnits(pool: Pool, items: seq<BatchItem>) returns (total: nat)
    requires Counters32(pool, items)
    ensures total == Estimate(pool, items) % TWO64
  {
    total := 0;
    for i := 0 to |items|
      invariant total == Estimate(pool, items[..i]) % TWO64
    {
      var it := items[i];
      assert items[..i + 1][..i] == items[..i];
      Add64Exact(Estimate(pool, items[..i]), ItemCost(pool, it));
      if it.fd in pool {
        var s := pool[it.fd];
        if it.phase.DECODE? {
          total := Add64(total, s.nPast + 1);
        } else {
          SumArithIsExact(s.nPast, Chunk(it));
          hide SumArith;
          total := Add64(total, SumArith(s.nPast + 1, 1, Chunk(it)));
        }
      }
    }
    assert items[..|items|] == items;
  }

  lemma {:induction false} ChunkCostBound(base: nat, m: nat, unit: nat)
    requires base + m <= unit
    ensures ChunkCost(base, m) <= m * unit
  {
    if m > 0 {
      ChunkCostBound(base, m - 1, unit);
      assert m * unit == (m - 1) * unit + unit;
    }
  }

  /** Decode items have one token and chunks are not negative. */
  ghost predicate Sized(items: seq<BatchItem>) {
    forall i :: 0 <= i < |items| ==> items[i].nTokens >= 0 && (items[i].phase.DECODE? ==> items[i].nTokens == 1)
  }

  lemma {:induction false} EstimateBound(pool: Pool, items: seq<BatchItem>)
    requires Counters32(pool, items) && Sized(items)
    ensures Tokens(items) >= 0 && Estimate(pool, items) <= Tokens(items) * TWO32
  {
    if items != [] {
      var n := |items| - 1;
      var it, front := items[n], items[..n];
      EstimateBound(pool, front);
      assert items == front + [it];
      TokensSnoc(front, it);
      if it.fd in pool && it.phase.PREFILL? { ChunkCostBound(pool[it.fd].nPast, it.nTokens, TWO32); }
      assert ItemCost(pool, it) <= it.nTokens * TWO32;
      assert (Tokens(front) + it.nTokens) * TWO32 == Tokens(front) * TWO32 + it.nTokens * TWO32;
    }
  }

  /** The 64-bit accumulator never wraps on a plan of less than 2^31 tokens. */
  lemma EstimateFits(pool: Pool, items: seq<BatchItem>)
    requires Counters32(pool, items) && Sized(items) && Tokens(items) < 0x8000_0000
    ensures Estimate(pool, items) < TWO64
  {
    EstimateBound(pool, items);
  }

  /** Replacing one item changes the estimate by the difference of the two costs. */
  lemma {:induction false} EstimateUpdate(pool: Pool, items: seq<BatchItem>, k: nat, x: BatchItem)
    requires k < |items|
    ensures Estimate(pool, items[k := x]) == Estimate(pool, items) - ItemCost(pool, items[k]) + ItemCost(pool, x)
  {
    var n := |items| - 1;
    if k == n {
      assert items[k := x][..n] == items[..n];
    } else {
      assert items[k := x][..n] == items[..n][k := x];
      EstimateUpdate(pool, items[..n], k, x);
    }
  }

  lemma {:induction false} EstimateZero(pool: Pool, items: seq<BatchItem>)
    requires forall i :: 0 <= i < |items| ==> items[i].phase.PREFILL? && items[i].nTokens <= 0
    ensures Estimate(pool, items) == 0
  {
    if items != [] { EstimateZero(pool, items[..|items| - 1]); }
  }

  // ---------------------------------------------------------------- the guard

  predicate Trimmable(it: BatchItem) {
    it.phase.PREFILL? && it.nTokens > 0
  }

  /** Index of the last item that still holds prefill tokens, or -1. */
  function LastChunk(items: seq<BatchItem>): (k: int)
    ensures -1 <= k < |items| && (k >= 0 ==> Trimmable(items[k]))
    ensures forall i :: k < i < |items| ==> !Trimmable(items[i])
  {
    if items == [] then -1
    else if Trimmable(items[|items| - 1]) then |items| - 1
    else LastChunk(items[..|items| - 1])
  }

  /** The plan with one token less in item `k`. */
  function Shrink(items: seq<BatchItem>, k: nat): seq<BatchItem>
    requires k < |items|
  {
    items[k := items[k].(nTokens := items[k].nTokens - 1)]
  }

  function PrefillLeft(items: seq<BatchItem>): nat {
    if items == [] then 0
    else PrefillLeft(items[..|items| - 1]) + if items[|items| - 1].phase.PREFILL? then Chunk(items[|items| - 1]) else 0
  }

  lemma {:induction false} ShrinkLeavesLess(items: seq<BatchItem>, k: nat)
    requires k < |items| && Trimmable(items[k])
    ensures PrefillLeft(Shrink(items, k)) == PrefillLeft(items) - 1
  {
    var n := |items| - 1;
    if k == n {
      assert Shrink(items, k)[..n] == items[..n];
    } else {
      assert Shrink(items, k)[..n] == Shrink(items[..n], k);
      ShrinkLeavesLess(items[..n], k);
    }
  }

  /** Remove the last prefill token as long as the estimate is over budget. */
  function Guard(pool: Pool, items: seq<BatchItem>, budget: nat): seq<BatchItem>
    decreases PrefillLeft(items)
  {
    var k := LastChunk(items);
    if Estimate(pool, items) <= budget || k == -1 then items
    else
      ShrinkLeavesLess(items, k);
      Guard(pool, Shrink(items, k), budget)
  }

  lemma ShrinkEstimate(pool: Pool, items: seq<BatchItem>, k: nat)
    requires k < |items| && Trimmable(items[k]) && items[k].fd in pool
    ensures Estimate(pool, Shrink(items, k)) == Estimate(pool, items) - (pool[items[k].fd].nPast + items[k].nTokens)
  {
    EstimateUpdate(pool, items, k, items[k].(nTokens := items[k].nTokens - 1));
  }

  /** One removal of the guard. */
  lemma GuardStep(pool: Pool, items: seq<BatchItem>, k: nat, budget: nat)
    requires k < |items| && Trimmable(items[k]) && forall i :: k < i < |items| ==> !Trimmable(items[i])
    requires items[k].fd in pool && Estimate(pool, items) > budget
    ensures Guard(pool, items, budget) == Guard(pool, Shrink(items, k), budget)
    ensures Estimate(pool, Shrink(items, k)) == Estimate(pool, items) - (pool[items[k].fd].nPast + items[k].nTokens)
    ensures PrefillLeft(Shrink(items, k)) == PrefillLeft(items) - 1
  {
    hide Estimate, PrefillLeft;
    LastChunkIs(items, k);
    ShrinkEstimate(pool, items, k);
    ShrinkLeavesLess(items, k);
  }

  lemma GuardStops(pool: Pool, items: seq<BatchItem>, budget: nat)
    requires Estimate(pool, items) <= budget || forall i :: 0 <= i < |items| ==> !Trimmable(items[i])
    ensures Guard(pool, items, budget) == items
  {
    hide Estimate, PrefillLeft;
  }

  lemma LastChunkIs(items: seq<BatchItem>, k: nat)
    requires k < |items| && Trimmable(items[k]) && forall i :: k < i < |items| ==> !Trimmable(items[i])
    ensures LastChunk(items) == k
  {
  }

  /** `out` is `items` with tokens of item `idx` taken away. */
  ghost predicate Trimmed(items: seq<BatchItem>, out: seq<BatchItem>, idx: nat) {
    && |out| == |items| && idx < |items| && out[idx].fd == items[idx].fd
    && forall i :: 0 <= i < |items| && i != idx ==> out[i] == items[i]
  }

  /** The inner loop: tokens of one chunk, from its end, until the estimate fits. */
  method TrimItem(pool: Pool, items0: seq<BatchItem>, idx: nat, est0: nat, budget: nat)
    returns (items: seq<BatchItem>, est: nat, removed: nat)
    requires idx < |items0| && items0[idx].fd in pool && est0 == Estimate(pool, items0)
    requires forall i :: idx < i < |items0| ==> !Trimmable(items0[i])
    ensures Trimmed(items0, items, idx) && est == Estimate(pool, items)
    ensures Guard(pool, items, budget) == Guard(pool, items0, budget)
    ensures PrefillLeft(items) == PrefillLeft(items0) - removed && (removed == 0 ==> items == items0)
    ensures est <= budget || !Trimmable(items[idx])
  {
    hide Estimate, Guard, PrefillLeft;
    items, est, removed := items0, est0, 0;
    while Trimmable(items[idx]) && est > budget
      invariant Trimmed(items0, items, idx) && est == Estimate(pool, items)
      invariant Guard(pool, items, budget) == Guard(pool, items0, budget)
      invariant PrefillLeft(items) == PrefillLeft(items0) - removed && (removed == 0 ==> items == items0)
      decreases PrefillLeft(items)
    {
      GuardStep(pool, items, idx, budget);
      var cost := pool[items[idx].fd].nPast + items[idx].nTokens;
      items := Shrink(items, idx);
      est := est - cost;
      removed := removed + 1;
    }
  }

  /** The trimming loops of `Scheduler::tick`. */
  method TrimToBudget(pool: Pool, plan: Plan, budget: nat) returns (out: Plan, est: nat, trimmed: bool)
    requires Counters32(pool, plan.items) && Sized(plan.items) && Tokens(plan.items) < 0x8000_0000
    requires forall i :: 0 <= i < |plan.items| ==> plan.items[i].fd in pool
    ensures out.items == Guard(pool, plan.items, budget)
    ensures est == Estimate(pool, out.items)
    ensures out.prefillTok == plan.prefillTok - (PrefillLeft(plan.items) - PrefillLeft(out.items))
    ensures out == plan.(items := out.items, prefillTok := out.prefillTok)
    ensures trimmed <==> out.items != plan.items
  {
    EstimateFits(pool, plan.items);
    hide Estimate, Guard, PrefillLeft, Tokens, Sized;
    est := EstimateUnits(pool, plan.items);
    var items := plan.items;
    var prefillTok := plan.prefillTok;
    trimmed := false;
    var idx := |items| - 1;
    while idx >= 0 && est > budget
      invariant -1 <= idx < |items| == |plan.items|
      invariant forall i :: 0 <= i < |items| ==> items[i].fd in pool
      invariant forall i :: idx < i < |items| ==> !Trimmable(items[i])
      invariant est == Estimate(pool, items)
      invariant Guard(pool, plan.items, budget) == Guard(pool, items, budget)
      invariant prefillTok == plan.prefillTok - (PrefillLeft(plan.items) - PrefillLeft(items))
      invariant if trimmed then PrefillLeft(items) < PrefillLeft(plan.items) else items == plan.items
    {
      var removed;
      items, est, removed := TrimItem(pool, items, idx, est, budget);
      prefillTok := prefillTok - removed;
      trimmed := trimmed || removed > 0;
      if est > budget { idx := idx - 1; }
    }
    GuardStops(pool, items, budget);
    out := plan.(items := items, prefillTok := prefillTok);
  }

  // ---------------------------------------------------------------- what the guard does

  /**
   `out` is `items` cut at item `k` (`k == |items|` when nothing was removed): nothing before
   the cut and no decode item is touched, no prefill token is left behind it, and giving one
   token back at the cut would exceed the budget again.
   */
  ghost predicate CutAt(pool: Pool, items: seq<BatchItem>, out: seq<BatchItem>, budget: nat, k: nat) {
    && |out| == |items| && k <= |items|
    && (forall i :: 0 <= i < |items| ==> out[i].fd == items[i].fd && out[i].phase == items[i].phase)
    && (forall i :: 0 <= i < |items| && (i < k || items[i].phase.DECODE?) ==> out[i] == items[i])
    && (forall i :: k < i < |items| && items[i].phase.PREFILL? ==> out[i].nTokens == 0)
    && (Estimate(pool, out) <= budget || forall i :: 0 <= i < |out| ==> !Trimmable(out[i]))
    && (k < |items| ==>
          && items[k].phase.PREFILL? && 0 <= out[k].nTokens < items[k].nTokens
          && Estimate(pool, out[k := out[k].(nTokens := out[k].nTokens + 1)]) > budget)
  }

  lemma {:induction false} GuardCuts(pool: Pool, items: seq<BatchItem>, budget: nat) returns (k: nat)
    requires forall i :: 0 <= i < |items| ==> items[i].nTokens >= 0
    ensures CutAt(pool, items, Guard(pool, items, budget), budget, k)
    decreases PrefillLeft(items)
  {
    var last := LastChunk(items);
    if Estimate(pool, items) <= budget || last == -1 {
      k := |items|;
    } else {
      ShrinkLeavesLess(items, last);
      k := GuardCuts(pool, Shrink(items, last), budget);
      k := ExtendCut(pool, items, last, Guard(pool, items, budget), budget, k);
    }
  }

  lemma ExtendCut(pool: Pool, items: seq<BatchItem>, last: nat, out: seq<BatchItem>, budget: nat, k0: nat) returns (k: nat)
    requires forall i :: 0 <= i < |items| ==> items[i].nTokens >= 0
    requires last < |items| && LastChunk(items) == last && Estimate(pool, items) > budget
    requires CutAt(pool, Shrink(items, last), out, budget, k0)
    ensures CutAt(pool, items, out, budget, k)
  {
    var less := Shrink(items, last);
    if k0 == |items| {
      assert out == less;
      assert out[last := out[last].(nTokens := out[last].nTokens + 1)] == items;
      k := last;
    } else {
      assert Trimmable(less[k0]);
      assert k0 <= last;
      k := k0;
    }
  }

  /**
   The guard is exact: it stays within budget or has removed every prefill token, it removes a
   suffix of the prefill work only, leaves decode items alone, and removes no token too many.
   */
  lemma GuardIsExact(pool: Pool, items: seq<BatchItem>, budget: nat)
    requires forall i :: 0 <= i < |items| ==> items[i].nTokens >= 0
    ensures exists k :: CutAt(pool, items, Guard(pool, items, budget), budget, k)
  {
    var k := GuardCuts(pool, items, budget);
  }

  /** If every planned prefill starts an empty sequence, the guard never empties a plan. */
  lemma GuardKeepsWork(pool: Pool, items: seq<BatchItem>, budget: nat) returns (i: nat)
    requires items != [] && budget > 0
    requires forall i :: 0 <= i < |items| ==> items[i].nTokens > 0
    requires forall i :: 0 <= i < |items| && items[i].phase.PREFILL? ==> items[i].fd in pool && pool[items[i].fd].nPast == 0
    ensures i < |items| == |Guard(pool, items, budget)| && Guard(pool, items, budget)[i].nTokens > 0
    ensures Guard(pool, items, budget)[i].fd == items[i].fd && Guard(pool, items, budget)[i].phase == items[i].phase
  {
    var out := Guard(pool, items, budget);
    var k := GuardCuts(pool, items, budget);
    i := 0;
    if k > 0 {
    } else if j :| 0 <= j < |items| && items[j].phase.DECODE? {
      i := j;
    } else if out[0].nTokens <= 0 {
      assert ChunkCost(0, 1) == 1;
      EstimateZero(pool, out);
      EstimateUpdate(pool, out, 0, out[0].(nTokens := 1));
    }
  }
}
