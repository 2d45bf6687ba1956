/** Round-robin fairness of both phases, over whole stretches of ticks. */
module Fairness {
  import opened Bounds
  import opened Sessions
  import opened Policy
  import opened PlanProperties

  /** What the planner is given at one tick, apart from the decode cursor. */
  datatype TickInput = TickInput(pool: Pool, order: seq<Fd>, cap: int, target: int, rrPrefill: nat) {
    function PlanAt(rr: nat): Plan {
      PlanOf(pool, order, cap, target, rr, rrPrefill)
    }

    function Budget(): int {
      Min(target, cap)
    }
  }

  /** The decode pool is `ready` at every tick, and there is budget. */
  ghost predicate Steady(ticks: seq<TickInput>, ready: seq<Fd>) {
    && NoDup(ready)
    && forall t :: 0 <= t < |ticks| ==> DecodePool(ticks[t].pool, ticks[t].order) == ready && ticks[t].Budget() > 0
  }

  /** `cursors` are the decode cursors of the ticks: each plan hands the next one over. */
  ghost predicate Chained(ticks: seq<TickInput>, cursors: seq<nat>) {
    && |cursors| == |ticks|
    && forall t, u :: 0 <= t < u < |ticks| && u == t + 1 ==> cursors[u] == ticks[t].PlanAt(cursors[t]).nextRrDecode
  }

  predicate Served(tick: TickInput, cursor: nat, fd: Fd) {
    BatchItem(fd, DECODE, 1) in tick.PlanAt(cursor).items
  }

  function CountTrue(flags: seq<bool>): nat {
    if flags == [] then 0
    else CountTrue(flags[..|flags| - 1]) + if flags[|flags| - 1] then 1 else 0
  }

  /** In how many of the ticks `fd` is served. */
  function TimesServed(ticks: seq<TickInput>, cursors: seq<nat>, fd: Fd): nat
    requires |cursors| == |ticks|
  {
    CountTrue(seq(|ticks|, t requires 0 <= t < |ticks| => Served(ticks[t], cursors[t], fd)))
  }

  lemma {:induction false} PrefillItemsPhase(pool: Pool, fds: seq<Fd>, budget: int)
    ensures forall i :: 0 <= i < |PrefillItems(pool, fds, budget)| ==> PrefillItems(pool, fds, budget)[i].phase == PREFILL
    decreases |fds|
  {
    if fds != [] && budget > 0 {
      var chunk := if fds[0] in pool then Min(FullChunk(pool[fds[0]]), budget) else 0;
      PrefillItemsPhase(pool, fds[1..], budget - chunk);
      PrefillItemsPhase(pool, fds[1..], budget);
    }
  }

  lemma PrefillPlanPhase(pool: Pool, ready: seq<Fd>, rr: nat, budget: int)
    ensures forall i :: 0 <= i < |PrefillPlan(pool, ready, rr, budget)| ==>
                          PrefillPlan(pool, ready, rr, budget)[i].phase == PREFILL
  {
    var around := Rotate(ready, rr);
    var first := PrefillItems(pool, TtftPool(pool, around, true), budget);
    PrefillItemsPhase(pool, TtftPool(pool, around, true), budget);
    PrefillItemsPhase(pool, TtftPool(pool, around, false), budget - Tokens(first));
  }

  /** A decoder is served when the read from the cursor reaches it within the budget. */
  lemma ServedIff(ready: seq<Fd>, rr: nat, budget: int, j: nat)
    requires NoDup(ready) && j < |ready| && budget > 0
    ensures BatchItem(ready[j], DECODE, 1) in DecodeItems(ready, rr, budget)
       <==> StepOf(rr % |ready|, j, |ready|) < Min(budget, |ready|)
  {
    var n := |ready|;
    var items, around := DecodeItems(ready, rr, budget), Rotate(ready, rr);
    var i := StepOf(rr % n, j, n);
    RotIndex(rr, i, n);
    assert around[i] == ready[j];
    if i < Min(budget, n) {
      assert items[i] == BatchItem(ready[j], DECODE, 1);
    }
    forall k | 0 <= k < |items| && items[k] == BatchItem(ready[j], DECODE, 1) ensures k == i {
      RotateMembers(ready, rr);
      assert around[k] == around[i];
    }
  }

  /** Moving the cursor by one brings every decoder one step closer, or sends it to the back. */
  lemma NextStep(rr: nat, j: nat, n: nat)
    requires j < n
    ensures var d := StepOf(rr % n, j, n);
            StepOf((rr + 1) % n % n, j, n) == if d == 0 then n - 1 else d - 1
  {
    if n == 1 {
      assert (rr + 1) % 1 == 0 && rr % 1 == 0;
    } else {
      RotIndex(rr, 1, n);
    }
    ModUnique((rr + 1) % n, n, 0, (rr + 1) % n);
  }

  /** How far decoder `j` is from the cursor at tick `t`. */
  function Distance(d: nat, t: nat, n: nat): int {
    if t <= d then d - t else d - t + n
  }

  /** The distance along any sequence of cursors that moves by one. */
  lemma {:induction false} DistanceAlong(c: seq<nat>, j: nat, n: nat, t: nat)
    requires t < |c| && t < n && j < n
    requires forall i, k :: 0 <= i < k < |c| && k == i + 1 ==> c[k] == (c[i] + 1) % n
    ensures StepOf(c[t] % n, j, n) == Distance(StepOf(c[0] % n, j, n), t, n)
  {
    if t > 0 {
      DistanceAlong(c, j, n, t - 1);
      NextStep(c[t - 1], j, n);
    }
  }

  lemma NextCursor(tick: TickInput, cursor: nat, ready: seq<Fd>)
    requires DecodePool(tick.pool, tick.order) == ready != [] && tick.Budget() > 0
    ensures tick.PlanAt(cursor).nextRrDecode == (cursor + 1) % |ready|
  {
  }

  lemma ServedByPlan(tick: TickInput, cursor: nat, ready: seq<Fd>, fd: Fd)
    requires DecodePool(tick.pool, tick.order) == ready
    ensures Served(tick, cursor, fd) <==> BatchItem(fd, DECODE, 1) in DecodeItems(ready, cursor, tick.Budget())
  {
    var a := DecodeItems(ready, cursor, tick.Budget());
    var prefills := PrefillPool(tick.pool, tick.order);
    var b := PrefillPlan(tick.pool, prefills, tick.rrPrefill, tick.Budget() - |a|);
    PrefillPlanPhase(tick.pool, prefills, tick.rrPrefill, tick.Budget() - |a|);
    assert tick.PlanAt(cursor).items == a + b;
    assert BatchItem(fd, DECODE, 1) !in b;
  }

  /** Decoder `j` is served at tick `t` exactly when it is within the budget of the cursor. */
  lemma ServedAtIff(ticks: seq<TickInput>, cursors: seq<nat>, ready: seq<Fd>, j: nat, t: nat)
    requires Steady(ticks, ready) && Chained(ticks, cursors) && j < |ready| && t < |ticks| && t < |ready|
    ensures Served(ticks[t], cursors[t], ready[j])
       <==> Distance(StepOf(cursors[0] % |ready|, j, |ready|), t, |ready|) < Min(ticks[t].Budget(), |ready|)
  {
    forall i, k | 0 <= i < k < |cursors| && k == i + 1 ensures cursors[k] == (cursors[i] + 1) % |ready| {
      NextCursor(ticks[i], cursors[i], ready);
    }
    DistanceAlong(cursors, j, |ready|, t);
    ServedByPlan(ticks[t], cursors[t], ready, ready[j]);
    ServedIff(ready, cursors[t], ticks[t].Budget(), j);
  }

  /**
   While the decode pool stays the same and there is budget, N consecutive ticks serve each of
   the N sessions: here is the tick that does.
   */
  lemma ServedWithinOneRound(ticks: seq<TickInput>, cursors: seq<nat>, ready: seq<Fd>, j: nat) returns (t: nat)
    requires Steady(ticks, ready) && Chained(ticks, cursors) && j < |ready| == |ticks|
    ensures t < |ticks| && Served(ticks[t], cursors[t], ready[j])
  {
    t := StepOf(cursors[0] % |ready|, j, |ready|);
    ServedAtIff(ticks, cursors, ready, j, t);
  }

  /** How often a decoder `d` steps away has been served after `k` ticks of `m` slots each. */
  function Quota(d: nat, k: nat, m: nat, n: nat): int {
    if k <= d + 1 then Max(0, k - Max(0, d - m + 1))
    else Min(m, d + 1) + Max(0, k - (n + d - m + 1))
  }

  lemma {:induction false} CountIsQuota(flags: seq<bool>, d: nat, m: nat, n: nat)
    requires d < n && 0 < m <= n && |flags| <= n
    requires forall t :: 0 <= t < |flags| ==> (flags[t] <==> Distance(d, t, n) < m)
    ensures CountTrue(flags) == Quota(d, |flags|, m, n)
  {
    if flags != [] {
      CountIsQuota(flags[..|flags| - 1], d, m, n);
      QuotaStep(d, |flags| - 1, m, n);
    }
  }

  lemma QuotaStep(d: nat, k: nat, m: nat, n: nat)
    requires d < n && k < n && m <= n
    ensures Quota(d, k + 1, m, n) == Quota(d, k, m, n) + if Distance(d, k, n) < m then 1 else 0
  {
  }

  /** With a constant budget B, N consecutive ticks serve each of the N sessions exactly min(B, N) times. */
  lemma ServedEqually(ticks: seq<TickInput>, cursors: seq<nat>, ready: seq<Fd>, j: nat, budget: int)
    requires Steady(ticks, ready) && Chained(ticks, cursors) && j < |ready| == |ticks|
    requires forall t :: 0 <= t < |ticks| ==> ticks[t].Budget() == budget
    ensures TimesServed(ticks, cursors, ready[j]) == Min(budget, |ready|)
  {
    hide Served, CountTrue, Quota, Distance;
    assert ticks[0].Budget() > 0;
    var n := |ready|;
    var d := StepOf(cursors[0] % n, j, n);
    var flags := seq(n, t requires 0 <= t < n => Served(ticks[t], cursors[t], ready[j]));
    forall t | 0 <= t < n ensures flags[t] <==> Distance(d, t, n) < Min(budget, n) {
      ServedAtIff(ticks, cursors, ready, j, t);
    }
    CountIsQuota(flags, d, Min(budget, n), n);
    FullQuota(d, Min(budget, n), n);
  }

  lemma FullQuota(d: nat, m: nat, n: nat)
    requires d < n && m <= n
    ensures Quota(d, n, m, n) == m
  {
  }

  // ---------------------------------------------------------------- the prefill phase

  ghost predicate AllWaiting(pool: Pool, fds: seq<Fd>) {
    forall i :: 0 <= i < |fds| ==> fds[i] in pool && PrefillReady(pool[fds[i]]) && pool[fds[i]].firstEmitNs == 0
  }

  /** The prefill pool is `ready` at every tick, all of it waiting, and phase A leaves budget. */
  ghost predicate SteadyPrefill(ticks: seq<TickInput>, ready: seq<Fd>) {
    && NoDup(ready)
    && forall t :: 0 <= t < |ticks| ==>
         && PrefillPool(ticks[t].pool, ticks[t].order) == ready && AllWaiting(ticks[t].pool, ready)
         && ticks[t].Budget() > |DecodePool(ticks[t].pool, ticks[t].order)|
  }

  /** Each plan hands its prefill cursor over to the next. */
  ghost predicate PrefillChained(ticks: seq<TickInput>, cursors: seq<nat>) {
    && |cursors| == |ticks|
    && forall t, u :: 0 <= t < u < |ticks| && u == t + 1 ==> ticks[u].rrPrefill == ticks[t].PlanAt(cursors[t]).nextRrPrefill
  }

  /** `fd` is the first prefill item: behind one item per ready decoder. */
  ghost predicate HeadsIn(items: seq<BatchItem>, d: nat, fd: Fd) {
    d < |items| && items[d].phase.PREFILL? && items[d].fd == fd && forall i :: 0 <= i < d ==> items[i].phase.DECODE?
  }

  ghost predicate Heads(tick: TickInput, cursor: nat, fd: Fd) {
    HeadsIn(tick.PlanAt(cursor).items, |DecodePool(tick.pool, tick.order)|, fd)
  }

  lemma {:induction false} AllStay(pool: Pool, fds: seq<Fd>)
    requires AllWaiting(pool, fds)
    ensures TtftPool(pool, fds, true) == fds
  {
    if fds != [] {
      var n := |fds| - 1;
      AllStay(pool, fds[..n]);
      assert fds == fds[..n] + [fds[n]];
    }
  }

  lemma RotateWaiting(pool: Pool, ready: seq<Fd>, rr: nat)
    requires AllWaiting(pool, ready) && ready != []
    ensures AllWaiting(pool, Rotate(ready, rr)) && Rotate(ready, rr) != [] && Rotate(ready, rr)[0] == ready[rr % |ready|]
  {
  }

  /** The prefill read of a tick starts at its cursor. */
  lemma HeadIsAtCursor(tick: TickInput, cursor: nat, ready: seq<Fd>, fd: Fd)
    requires PrefillPool(tick.pool, tick.order) == ready != [] && AllWaiting(tick.pool, ready)
    requires tick.Budget() > |DecodePool(tick.pool, tick.order)|
    ensures Heads(tick, cursor, fd) <==> fd == ready[tick.rrPrefill % |ready|]
    ensures tick.PlanAt(cursor).nextRrPrefill == (tick.rrPrefill + 1) % |ready|
  {
    hide Rotate, TtftPool, PrefillItems, DecodePool, PrefillPool, Tokens, AllWaiting;
    var decoders := DecodePool(tick.pool, tick.order);
    var a := DecodeItems(decoders, cursor, tick.Budget());
    var around, left := Rotate(ready, tick.rrPrefill), tick.Budget() - |a|;
    RotateWaiting(tick.pool, ready, tick.rrPrefill);
    AllStay(tick.pool, around);
    PrefillItemsUnfold(tick.pool, around, left);
    WaitingChunk(tick.pool, around);
    var first := PrefillItems(tick.pool, around, left);
    var rest := PrefillItems(tick.pool, TtftPool(tick.pool, around, false), left - Tokens(first));
    assert tick.PlanAt(cursor).items == a + (first + rest);
    assert first[0].fd == around[0] && first[0].phase == PREFILL;
  }

  /** Without budget, or without sessions, a cursor starts over. */
  lemma CursorsStartOver(tick: TickInput, cursor: nat)
    ensures var plan, d := tick.PlanAt(cursor), |DecodePool(tick.pool, tick.order)|;
            && (tick.Budget() <= 0 || d == 0 ==> plan.nextRrDecode == 0)
            && (tick.Budget() <= d || PrefillPool(tick.pool, tick.order) == [] ==> plan.nextRrPrefill == 0)
  {
    hide DecodePool, PrefillPool, PrefillPlan;
  }

  lemma {:induction false} ItemsInOrder(pool: Pool, fds: seq<Fd>, budget: int)
    requires AllWaiting(pool, fds)
    ensures var items := PrefillItems(pool, fds, budget);
            |items| <= |fds| && forall i :: 0 <= i < |items| ==> items[i].fd == fds[i] && items[i].phase == PREFILL
    decreases |fds|
  {
    PrefillItemsUnfold(pool, fds, budget);
    if fds != [] && budget > 0 {
      WaitingChunk(pool, fds);
      var chunk := Min(FullChunk(pool[fds[0]]), budget);
      ItemsInOrder(pool, fds[1..], budget - chunk);
      hide PrefillItems;
      var items, rest := PrefillItems(pool, fds, budget), PrefillItems(pool, fds[1..], budget - chunk);
      assert items == [BatchItem(fds[0], PREFILL, chunk)] + rest;
      assert forall i :: 0 < i < |items| ==> items[i] == rest[i - 1] && fds[i] == fds[1..][i - 1];
    }
  }

  lemma {:induction false} NobodyElse(pool: Pool, fds: seq<Fd>)
    requires AllWaiting(pool, fds)
    ensures TtftPool(pool, fds, false) == []
  {
    if fds != [] { NobodyElse(pool, fds[..|fds| - 1]); }
  }

  lemma TurnedWaiting(pool: Pool, ready: seq<Fd>, rr: nat)
    requires AllWaiting(pool, ready)
    ensures AllWaiting(pool, Rotate(ready, rr)) && |Rotate(ready, rr)| == |ready|
  {
  }

  lemma RingAt(fds: seq<Fd>, rr: nat, i: nat)
    requires i < |fds|
    ensures |Rotate(fds, rr)| == |fds| && Rotate(fds, rr)[i] == fds[(rr + i) % |fds|]
  {
  }

  /** Both phases follow the rings from their cursors: decoders first, then the waiting sessions. */
  lemma PlanFollowsRings(tick: TickInput, cursor: nat, decoders: seq<Fd>, ready: seq<Fd>, i: nat)
    requires decoders == DecodePool(tick.pool, tick.order) && ready == PrefillPool(tick.pool, tick.order) && AllWaiting(tick.pool, ready)
    requires i < |tick.PlanAt(cursor).items|
    ensures var items := tick.PlanAt(cursor).items;
            var d := |decoders|;
            if i < d then items[i] == BatchItem(decoders[(cursor + i) % d], DECODE, 1)
            else i - d < |ready| && items[i].phase == PREFILL && items[i].fd == ready[(tick.rrPrefill + (i - d)) % |ready|]
  {
    hide TtftPool, PrefillItems, DecodePool, PrefillPool, Tokens, AllWaiting, Rotate;
    var a := DecodeItems(decoders, cursor, tick.Budget());
    var around, left := Rotate(ready, tick.rrPrefill), tick.Budget() - |a|;
    var first := PrefillItems(tick.pool, around, left);
    TurnedWaiting(tick.pool, ready, tick.rrPrefill);
    ItemsInOrder(tick.pool, around, left);
    AllStay(tick.pool, around);
    NobodyElse(tick.pool, around);
    PrefillItemsUnfold(tick.pool, [], left - Tokens(first));
    if left <= 0 { PrefillItemsUnfold(tick.pool, around, left); }
    var items := tick.PlanAt(cursor).items;
    assert items == a + (first + []) == a + first;
    assert items[i] == if i < |a| then a[i] else first[i - |a|];
    assert left > 0 ==> |a| == |decoders|;
    if i < |decoders| {
      RingAt(decoders, cursor, i);
    } else {
      RingAt(ready, tick.rrPrefill, i - |decoders|);
    }
  }

  lemma WaitingChunk(pool: Pool, fds: seq<Fd>)
    requires AllWaiting(pool, fds) && fds != []
    ensures fds[0] in pool && FullChunk(pool[fds[0]]) >= 1
  {
  }

  /**
   While the prefill pool keeps the same N waiting sessions in the same order and phase A leaves
   budget, each of them is the first to be prefilled at exactly one of N consecutive ticks.
   */
  lemma HeadsExactlyOnce(ticks: seq<TickInput>, cursors: seq<nat>, ready: seq<Fd>, j: nat) returns (t: nat)
    requires SteadyPrefill(ticks, ready) && PrefillChained(ticks, cursors) && j < |ready| == |ticks|
    ensures t < |ticks| && Heads(ticks[t], cursors[t], ready[j])
    ensures forall u :: 0 <= u < |ticks| && Heads(ticks[u], cursors[u], ready[j]) ==> u == t
  {
    hide Heads, PrefillPool, DecodePool, AllWaiting;
    var n := |ready|;
    var c := seq(n, t requires 0 <= t < n => ticks[t].rrPrefill);
    forall i, k | 0 <= i < k < |c| && k == i + 1 ensures c[k] == (c[i] + 1) % n {
      HeadIsAtCursor(ticks[i], cursors[i], ready, ready[j]);
    }
    t := StepOf(c[0] % n, j, n);
    forall u | 0 <= u < n ensures Heads(ticks[u], cursors[u], ready[j]) <==> u == t {
      HeadIsAtCursor(ticks[u], cursors[u], ready, ready[j]);
      DistanceAlong(c, j, n, u);
      SamePlace(ready, c[u] % n, j);
    }
  }

  /** Zero steps away is the place itself. */
  lemma SamePlace(ready: seq<Fd>, i: nat, j: nat)
    requires NoDup(ready) && i < |ready| && j < |ready|
    ensures ready[i] == ready[j] <==> StepOf(i, j, |ready|) == 0
  {
    if i < j { assert ready[i] != ready[j]; }
    if j < i { assert ready[j] != ready[i]; }
  }
}
