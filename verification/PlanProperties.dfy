/** What every plan of the baseline policy satisfies, for any pool, cursors and budget. */
module PlanProperties {
  import opened Bounds
  import opened Sessions
  import opened Policy

  // ---------------------------------------------------------------- rotation

  lemma ModUnique(x: int, n: int, q: int, r: int)
    requires n > 0 && x == n * q + r && 0 <= r < n
    ensures x % n == r
  {
    var d := x / n - q;
    assert x == n * (x / n) + x % n;
    assert n * d == r - x % n;
    MulFar(n, d);
  }

  lemma MulFar(n: int, d: int)
    requires n > 0
    ensures d >= 1 ==> n * d >= n
    ensures d <= -1 ==> n * d <= -n
  {
  }

  /** Index reached `i` steps behind `from` on a ring of `n`. */
  function Around(from: nat, i: nat, n: nat): nat
    requires from < n && i < n
  {
    if from + i < n then from + i else from + i - n
  }

  /** Index that the round-robin read visits at step `i`. */
  lemma RotIndex(rr: nat, i: nat, n: nat)
    requires i < n
    ensures (rr + i) % n == Around(rr % n, i, n)
  {
    var q, r0 := rr / n, rr % n;
    assert rr == n * q + r0;
    if r0 + i < n {
      ModUnique(rr + i, n, q, r0 + i);
    } else {
      assert n * (q + 1) == n * q + n;
      ModUnique(rr + i, n, q + 1, r0 + i - n);
    }
  }

  /** The step at which a read starting at `from` visits index `j`. */
  function StepOf(from: nat, j: nat, n: nat): (i: nat)
    requires from < n && j < n
    ensures i < n && Around(from, i, n) == j
  {
    if j >= from then j - from else j + n - from
  }

  /** A rotation reads the ring from `from` on. */
  ghost predicate Turned(fds: seq<Fd>, around: seq<Fd>, from: nat) {
    |around| == |fds| && (fds != [] ==> from < |fds|) &&
    forall i :: 0 <= i < |fds| ==> around[i] == fds[Around(from, i, |fds|)]
  }

  lemma RotateTurns(fds: seq<Fd>, rr: nat) returns (from: nat)
    ensures Turned(fds, Rotate(fds, rr), from)
  {
    from := if fds == [] then 0 else rr % |fds|;
    forall i | 0 <= i < |fds| ensures Rotate(fds, rr)[i] == fds[Around(from, i, |fds|)] {
      RotIndex(rr, i, |fds|);
    }
  }

  lemma TurnedMembers(fds: seq<Fd>, around: seq<Fd>, from: nat)
    requires Turned(fds, around, from)
    ensures forall fd :: fd in around <==> fd in fds
    ensures NoDup(fds) ==> NoDup(around)
  {
    forall fd | fd in fds ensures fd in around {
      var j :| 0 <= j < |fds| && fds[j] == fd;
      var i := StepOf(from, j, |fds|);
      assert around[i] == fd;
    }
  }

  /** Rotation is a permutation. */
  lemma RotateMembers(fds: seq<Fd>, rr: nat)
    ensures |Rotate(fds, rr)| == |fds|
    ensures forall fd :: fd in Rotate(fds, rr) <==> fd in fds
    ensures NoDup(fds) ==> NoDup(Rotate(fds, rr))
  {
    var from := RotateTurns(fds, rr);
    hide Rotate;
    assert |Rotate(fds, rr)| == |fds|;
    TurnedMembers(fds, Rotate(fds, rr), from);
  }

  // ---------------------------------------------------------------- plans

  ghost predicate DistinctFds(items: seq<BatchItem>) {
    forall i, j :: 0 <= i < j < |items| ==> items[i].fd != items[j].fd
  }

  /** Decode items take one token of a ready decoder; prefill items stay inside the prompt. */
  ghost predicate ItemOk(pool: Pool, it: BatchItem) {
    && it.fd in pool
    && (it.phase.DECODE? ==> DecodeReady(pool[it.fd]) && it.nTokens == 1)
    && (it.phase.PREFILL? ==> PrefillReady(pool[it.fd]) && 1 <= it.nTokens <= FullChunk(pool[it.fd]))
  }

  ghost predicate ItemsOk(pool: Pool, items: seq<BatchItem>) {
    forall i :: 0 <= i < |items| ==> ItemOk(pool, items[i])
  }

  /** Every session of `fds` has all it is entitled to. */
  ghost predicate AllFull(pool: Pool, fds: seq<Fd>, items: seq<BatchItem>) {
    forall fd :: fd in fds && fd in pool ==> BatchItem(fd, PREFILL, FullChunk(pool[fd])) in items
  }

  ghost predicate ReadyFds(pool: Pool, fds: seq<Fd>) {
    forall i :: 0 <= i < |fds| ==> fds[i] in pool && PrefillReady(pool[fds[i]])
  }

  /** `items` serves the sessions of `fds` in order, within `budget`, and in full if budget is left. */
  ghost predicate Serves(pool: Pool, fds: seq<Fd>, items: seq<BatchItem>, budget: int) {
    && ItemsOk(pool, items) && DistinctFds(items)
    && (forall i :: 0 <= i < |items| ==> items[i].fd in fds && items[i].phase == PREFILL)
    && 0 <= Tokens(items) && (budget >= 0 ==> Tokens(items) <= budget) && (budget <= 0 ==> items == [])
    && (Tokens(items) < budget ==> AllFull(pool, fds, items))
  }

  lemma {:induction false} PrefillItemsServe(pool: Pool, fds: seq<Fd>, budget: int)
    requires ReadyFds(pool, fds) && NoDup(fds)
    ensures Serves(pool, fds, PrefillItems(pool, fds, budget), budget)
    decreases |fds|
  {
    if fds != [] && budget > 0 {
      var fd, rest := fds[0], fds[1..];
      var chunk := Min(FullChunk(pool[fd]), budget);
      PrefillItemsServe(pool, rest, budget - chunk);
      ServeOneMore(pool, fds, PrefillItems(pool, rest, budget - chunk), budget);
    }
  }

  lemma ServeOneMore(pool: Pool, fds: seq<Fd>, tail: seq<BatchItem>, budget: int)
    requires fds != [] && budget > 0 && ReadyFds(pool, fds) && NoDup(fds)
    requires Serves(pool, fds[1..], tail, budget - Min(FullChunk(pool[fds[0]]), budget))
    ensures Serves(pool, fds, [BatchItem(fds[0], PREFILL, Min(FullChunk(pool[fds[0]]), budget))] + tail, budget)
  {
    var fd, rest := fds[0], fds[1..];
    var chunk := Min(FullChunk(pool[fd]), budget);
    var items := [BatchItem(fd, PREFILL, chunk)] + tail;
    assert items[1..] == tail;
    forall i | 0 <= i < |items| ensures ItemOk(pool, items[i]) && items[i].fd in fds && items[i].phase == PREFILL {
      if i > 0 { assert items[i] == tail[i - 1]; }
    }
    forall i, j | 0 <= i < j < |items| ensures items[i].fd != items[j].fd {
      assert items[j] == tail[j - 1] && tail[j - 1].fd in rest;
    }
    if Tokens(items) < budget {
      forall x | x in fds && x in pool ensures BatchItem(x, PREFILL, FullChunk(pool[x])) in items {
        if x == fd { assert items[0] == BatchItem(x, PREFILL, FullChunk(pool[x])); }
        else { assert x in rest; assert BatchItem(x, PREFILL, FullChunk(pool[x])) in tail; }
      }
    }
  }

  lemma DecodeItemsOk(pool: Pool, ready: seq<Fd>, rr: nat, budget: int)
    requires NoDup(ready) && forall i :: 0 <= i < |ready| ==> ready[i] in pool && DecodeReady(pool[ready[i]])
    ensures DecodePlanOk(pool, ready, DecodeItems(ready, rr, budget), budget)
  {
    var items, around := DecodeItems(ready, rr, budget), Rotate(ready, rr);
    RotateMembers(ready, rr);
    OnesSum(items);
    hide Rotate, Tokens;
    forall i | 0 <= i < |items| ensures items[i].fd in ready {
      assert around[i] in around;
    }
    if |items| < budget {
      forall fd | fd in ready ensures BatchItem(fd, DECODE, 1) in items {
        assert fd in around;
        var i :| 0 <= i < |around| && around[i] == fd;
        assert items[i] == BatchItem(fd, DECODE, 1);
      }
    }
  }

  lemma {:induction false} OnesSum(items: seq<BatchItem>)
    requires forall i :: 0 <= i < |items| ==> items[i].nTokens == 1
    ensures Tokens(items) == |items|
  {
    if items != [] { OnesSum(items[1..]); }
  }

  /** Every promise of the planner about one tick. */
  ghost predicate PlanOk(pool: Pool, plan: Plan, cap: int, target: int) {
    var budget := Min(target, cap);
    && ItemsOk(pool, plan.items) && DistinctFds(plan.items)
    && 0 <= plan.decodeTok && 0 <= plan.prefillTok
    && Tokens(plan.items) == plan.decodeTok + plan.prefillTok
    && (Tokens(plan.items) > 0 ==> Tokens(plan.items) <= budget)
    // decode first: a prefill item means that every ready decoder is served
    && ((exists i :: 0 <= i < |plan.items| && plan.items[i].phase == PREFILL) ==> DecodersServed(pool, plan))
    // first tokens first: an item of any other session means that the waiting ones are full
    && ((exists i :: 0 <= i < |plan.items| && plan.items[i].phase == PREFILL && pool[plan.items[i].fd].firstEmitNs != 0)
        ==> PrefillsFull(pool, plan, true))
    // work conserving: budget is left only when everything eligible is served in full
    && (Tokens(plan.items) < budget ==>
          DecodersServed(pool, plan) && PrefillsFull(pool, plan, true) && PrefillsFull(pool, plan, false))
  }

  ghost predicate DecodersServed(pool: Pool, plan: Plan) {
    forall fd :: fd in pool && DecodeReady(pool[fd]) ==> BatchItem(fd, DECODE, 1) in plan.items
  }

  ghost predicate PrefillsFull(pool: Pool, plan: Plan, waiting: bool) {
    forall fd :: fd in pool && PrefillReady(pool[fd]) && (pool[fd].firstEmitNs == 0) == waiting ==>
                   BatchItem(fd, PREFILL, FullChunk(pool[fd])) in plan.items
  }

  /** The prefill half of a plan. */
  ghost predicate PrefillPlanOk(pool: Pool, ready: seq<Fd>, items: seq<BatchItem>, budget: int) {
    && ItemsOk(pool, items) && DistinctFds(items)
    && (forall i :: 0 <= i < |items| ==> items[i].fd in ready && items[i].phase == PREFILL)
    && 0 <= Tokens(items) && (budget >= 0 ==> Tokens(items) <= budget) && (budget <= 0 ==> items == [])
    && ((exists i :: 0 <= i < |items| && pool[items[i].fd].firstEmitNs != 0) ==> Full(pool, ready, items, true))
    && (Tokens(items) < budget ==> Full(pool, ready, items, true) && Full(pool, ready, items, false))
  }

  ghost predicate Full(pool: Pool, ready: seq<Fd>, items: seq<BatchItem>, waiting: bool) {
    forall fd :: fd in ready && fd in pool && (pool[fd].firstEmitNs == 0) == waiting ==>
                   BatchItem(fd, PREFILL, FullChunk(pool[fd])) in items
  }

  /** `ttft` and `rest` split `ready` by whether the first token is still awaited. */
  ghost predicate Splits(pool: Pool, ready: seq<Fd>, ttft: seq<Fd>, rest: seq<Fd>) {
    && NoDup(ttft) && NoDup(rest) && ReadyFds(pool, ttft) && ReadyFds(pool, rest)
    && (forall fd :: fd in ttft <==> fd in ready && fd in pool && pool[fd].firstEmitNs == 0)
    && (forall fd :: fd in rest <==> fd in ready && fd in pool && pool[fd].firstEmitNs != 0)
  }

  lemma SplitReady(pool: Pool, ready: seq<Fd>, rr: nat)
    requires ReadyFds(pool, ready) && NoDup(ready)
    ensures Splits(pool, ready, TtftPool(pool, Rotate(ready, rr), true), TtftPool(pool, Rotate(ready, rr), false))
  {
    var around := Rotate(ready, rr);
    RotateMembers(ready, rr);
    TtftPoolMembers(pool, around, true);
    TtftPoolMembers(pool, around, false);
    SubpoolReady(pool, ready, TtftPool(pool, around, true));
    SubpoolReady(pool, ready, TtftPool(pool, around, false));
  }

  lemma SubpoolReady(pool: Pool, ready: seq<Fd>, sub: seq<Fd>)
    requires ReadyFds(pool, ready) && forall fd :: fd in sub ==> fd in ready
    ensures ReadyFds(pool, sub)
  {
    forall i | 0 <= i < |sub| ensures sub[i] in pool && PrefillReady(pool[sub[i]]) {
      assert sub[i] in ready;
    }
  }

  lemma PrefillPlanIsOk(pool: Pool, ready: seq<Fd>, rr: nat, budget: int)
    requires ReadyFds(pool, ready) && NoDup(ready)
    ensures PrefillPlanOk(pool, ready, PrefillPlan(pool, ready, rr, budget), budget)
  {
    hide Rotate, TtftPool, PrefillItems, Tokens, PrefillPlanOk, ReadyFds, NoDup, Splits;
    var around := Rotate(ready, rr);
    var ttft, rest := TtftPool(pool, around, true), TtftPool(pool, around, false);
    var a := PrefillItems(pool, ttft, budget);
    assert PrefillPlan(pool, ready, rr, budget) == a + PrefillItems(pool, rest, budget - Tokens(a));
    SplitReady(pool, ready, rr);
    SplitServes(pool, ready, ttft, rest, budget);
  }

  lemma SplitServes(pool: Pool, ready: seq<Fd>, ttft: seq<Fd>, rest: seq<Fd>, budget: int)
    requires Splits(pool, ready, ttft, rest)
    ensures var a := PrefillItems(pool, ttft, budget);
            PrefillPlanOk(pool, ready, a + PrefillItems(pool, rest, budget - Tokens(a)), budget)
  {
    hide PrefillItems, Tokens, PrefillPlanOk, ReadyFds, NoDup, Serves;
    var a := PrefillItems(pool, ttft, budget);
    var b := PrefillItems(pool, rest, budget - Tokens(a));
    PrefillItemsServe(pool, ttft, budget);
    PrefillItemsServe(pool, rest, budget - Tokens(a));
    JoinPrefill(pool, ready, ttft, rest, a, b, budget);
  }

  lemma JoinPrefill(pool: Pool, ready: seq<Fd>, ttft: seq<Fd>, rest: seq<Fd>,
                    a: seq<BatchItem>, b: seq<BatchItem>, budget: int)
    requires Splits(pool, ready, ttft, rest)
    requires Serves(pool, ttft, a, budget) && Serves(pool, rest, b, budget - Tokens(a))
    ensures PrefillPlanOk(pool, ready, a + b, budget)
  {
    TokensAppend(a, b);
    JoinItems(pool, a, b);
    forall i | 0 <= i < |a + b| ensures (a + b)[i].fd in ready && (a + b)[i].phase == PREFILL {
      assert (a + b)[i] == if i < |a| then a[i] else b[i - |a|];
    }
    if Tokens(a) < budget { JoinFull(pool, ready, ttft, a, a + b, true); }
    if Tokens(b) < budget - Tokens(a) { JoinFull(pool, ready, rest, b, a + b, false); }
  }

  lemma JoinItems(pool: Pool, a: seq<BatchItem>, b: seq<BatchItem>)
    requires ItemsOk(pool, a) && ItemsOk(pool, b) && DistinctFds(a) && DistinctFds(b)
    requires forall i, j :: 0 <= i < |a| && 0 <= j < |b| ==> a[i].fd != b[j].fd
    ensures ItemsOk(pool, a + b) && DistinctFds(a + b)
  {
    forall i | 0 <= i < |a + b| ensures ItemOk(pool, (a + b)[i]) {
      assert (a + b)[i] == if i < |a| then a[i] else b[i - |a|];
    }
  }

  lemma JoinFull(pool: Pool, ready: seq<Fd>, fds: seq<Fd>, part: seq<BatchItem>, items: seq<BatchItem>, waiting: bool)
    requires AllFull(pool, fds, part) && forall x :: x in part ==> x in items
    requires forall fd :: fd in fds <==> fd in ready && fd in pool && (pool[fd].firstEmitNs == 0) == waiting
    ensures Full(pool, ready, items, waiting)
  {
  }

  lemma PoolsAreReady(pool: Pool, order: seq<Fd>)
    requires Enumerates(order, pool)
    ensures Pools(pool, DecodePool(pool, order), PrefillPool(pool, order))
  {
    DecodePoolMembers(pool, order);
    PrefillPoolMembers(pool, order);
    var d, p := DecodePool(pool, order), PrefillPool(pool, order);
    assert forall i :: 0 <= i < |d| ==> d[i] in d;
    assert forall i :: 0 <= i < |p| ==> p[i] in p;
  }

  /** The two pools hold exactly the ready sessions, each once. */
  ghost predicate Pools(pool: Pool, decoders: seq<Fd>, prefills: seq<Fd>) {
    && NoDup(decoders) && NoDup(prefills) && ReadyFds(pool, prefills)
    && (forall i :: 0 <= i < |decoders| ==> decoders[i] in pool && DecodeReady(pool[decoders[i]]))
    && (forall fd :: fd in decoders <==> fd in pool && DecodeReady(pool[fd]))
    && (forall fd :: fd in prefills <==> fd in pool && PrefillReady(pool[fd]))
  }

  /** The planner keeps every promise, for any pool, iteration order, cursors and budget. */
  lemma PlanIsCorrect(pool: Pool, order: seq<Fd>, cap: int, target: int, rrd: nat, rrp: nat)
    requires Enumerates(order, pool)
    ensures PlanOk(pool, PlanOf(pool, order, cap, target, rrd, rrp), cap, target)
  {
    PoolsAreReady(pool, order);
    var plan := PlanOf(pool, order, cap, target, rrd, rrp);
    PhasesAreOk(pool, DecodePool(pool, order), PrefillPool(pool, order), cap, target, rrd, rrp, plan);
  }

  lemma PhasesAreOk(pool: Pool, decoders: seq<Fd>, prefills: seq<Fd>, cap: int, target: int, rrd: nat, rrp: nat,
                    plan: Plan)
    requires Pools(pool, decoders, prefills)
    requires var a := DecodeItems(decoders, rrd, Min(target, cap));
             var b := PrefillPlan(pool, prefills, rrp, Min(target, cap) - |a|);
             plan.items == a + b && plan.decodeTok == |a| && plan.prefillTok == Tokens(b)
    ensures PlanOk(pool, plan, cap, target)
  {
    hide DecodeItems, PrefillPlan, Tokens, Min, NoDup, ReadyFds, DecodeReady, PrefillReady, DecodePlanOk, PrefillPlanOk, PlanOk;
    var budget := Min(target, cap);
    var a := DecodeItems(decoders, rrd, budget);
    var b := PrefillPlan(pool, prefills, rrp, budget - |a|);
    DecodeItemsOk(pool, decoders, rrd, budget);
    PrefillPlanIsOk(pool, prefills, rrp, budget - |a|);
    JoinPhases(pool, decoders, prefills, a, b, cap, target, plan);
  }

  /** The decode half of a plan. */
  ghost predicate DecodePlanOk(pool: Pool, ready: seq<Fd>, items: seq<BatchItem>, budget: int) {
    && ItemsOk(pool, items) && DistinctFds(items) && Tokens(items) == |items|
    && (forall i :: 0 <= i < |items| ==> items[i].fd in ready && items[i].phase == DECODE)
    && (budget >= 0 ==> |items| <= budget) && (budget <= 0 ==> items == [])
    && (|items| < budget ==> forall fd :: fd in ready ==> BatchItem(fd, DECODE, 1) in items)
  }

  lemma JoinPhases(pool: Pool, decoders: seq<Fd>, prefills: seq<Fd>, a: seq<BatchItem>, b: seq<BatchItem>,
                   cap: int, target: int, plan: Plan)
    requires forall fd :: fd in decoders <==> fd in pool && DecodeReady(pool[fd])
    requires forall fd :: fd in prefills <==> fd in pool && PrefillReady(pool[fd])
    requires DecodePlanOk(pool, decoders, a, Min(target, cap))
    requires PrefillPlanOk(pool, prefills, b, Min(target, cap) - |a|)
    requires plan.items == a + b && plan.decodeTok == |a| && plan.prefillTok == Tokens(b)
    ensures PlanOk(pool, plan, cap, target)
  {
    var items := a + b;
    TokensAppend(a, b);
    forall i | 0 <= i < |items| ensures ItemOk(pool, items[i]) {
      assert items[i] == if i < |a| then a[i] else b[i - |a|];
    }
    forall i, j | 0 <= i < j < |items| ensures items[i].fd != items[j].fd {
      assert items[i] == if i < |a| then a[i] else b[i - |a|];
      assert items[j] == if j < |a| then a[j] else b[j - |a|];
    }
    if i :| 0 <= i < |items| && items[i].phase == PREFILL && pool[items[i].fd].firstEmitNs != 0 {
      assert items[i] == b[i - |a|];
    }
  }
}
