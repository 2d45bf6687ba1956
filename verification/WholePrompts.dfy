/**
 When a prompt is fed whole. A session decodes after its first chunk, so whatever does not fit
 that chunk is dropped: here is the exact condition, for any pool, order, cursors and guard.
 */
module WholePrompts {
  import opened Bounds
  import opened Sessions
  import opened Policy
  import opened PlanProperties
  import opened Bmt
  import opened Batch
  import opened TickSpec

  // ---------------------------------------------------------------- the condition

  /** `fds` up to and including the first `fd`. */
  function UpTo(fds: seq<Fd>, fd: Fd): seq<Fd> {
    if fds == [] then []
    else if fds[0] == fd then [fd]
    else [fds[0]] + UpTo(fds[1..], fd)
  }

  /** The sessions that still wait for their first token, in the order of this tick. */
  function Waiting(pool: Pool, order: seq<Fd>, rrPrefill: nat): seq<Fd> {
    TtftPool(pool, Rotate(PrefillPool(pool, order), rrPrefill), true)
  }

  function FullItem(pool: Pool, fd: Fd): BatchItem {
    BatchItem(fd, PREFILL, if fd in pool then FullChunk(pool[fd]) else 0)
  }

  /** Full chunks for all of `fds`. */
  function FullItems(pool: Pool, fds: seq<Fd>): seq<BatchItem> {
    if fds == [] then [] else [FullItem(pool, fds[0])] + FullItems(pool, fds[1..])
  }

  /** One token for every ready decoder, then the full chunks of the waiting sessions up to `fd`. */
  function Ahead(pool: Pool, order: seq<Fd>, sched: SchedState, fd: Fd): seq<BatchItem> {
    var decoders := DecodePool(pool, order);
    DecodeItems(decoders, sched.rrDecode, |decoders|) + FullItems(pool, UpTo(Waiting(pool, order, sched.rrPrefill), fd))
  }

  /**
   What is left of the prompt is at most one burst, and everything that comes first, with it,
   fits the token budget and the cost budget.
   */
  predicate FitsWhole(cfg: Config, pool: Pool, sched: SchedState, order: seq<Fd>, fd: Fd)
    requires fd in pool
  {
    && Remaining(pool[fd]) <= 16
    && Tokens(Ahead(pool, order, sched, fd)) <= Min(sched.tuning.target, sched.cap)
    && (cfg.bmtBudget == 0 || Estimate(pool, Ahead(pool, order, sched, fd)) <= cfg.bmtBudget)
  }

  // ---------------------------------------------------------------- the token budget

  lemma {:induction false} UpToMembers(fds: seq<Fd>, fd: Fd)
    ensures forall g :: g in UpTo(fds, fd) ==> g in fds
    ensures fd in fds ==> UpTo(fds, fd) != [] && UpTo(fds, fd)[|UpTo(fds, fd)| - 1] == fd
  {
    if fds != [] && fds[0] != fd { UpToMembers(fds[1..], fd); }
  }

  lemma {:induction false} FullItemsAt(pool: Pool, fds: seq<Fd>)
    ensures |FullItems(pool, fds)| == |fds|
    ensures forall i :: 0 <= i < |fds| ==> FullItems(pool, fds)[i] == FullItem(pool, fds[i])
  {
    if fds != [] { FullItemsAt(pool, fds[1..]); }
  }

  lemma {:induction false} FullTokens(pool: Pool, fds: seq<Fd>)
    requires forall i :: 0 <= i < |fds| ==> fds[i] in pool && PrefillReady(pool[fds[i]])
    ensures Tokens(FullItems(pool, fds)) >= |fds|
  {
    if fds != [] {
      FullTokens(pool, fds[1..]);
      assert FullItems(pool, fds)[1..] == FullItems(pool, fds[1..]);
    }
  }

  lemma ReadyUpTo(pool: Pool, fds: seq<Fd>, fd: Fd)
    requires ReadyFds(pool, fds) && fd in fds
    ensures Tokens(FullItems(pool, UpTo(fds, fd))) >= 1
  {
    UpToMembers(fds, fd);
    var up := UpTo(fds, fd);
    forall i | 0 <= i < |up| ensures up[i] in pool && PrefillReady(pool[up[i]]) {
      assert up[i] in fds;
    }
    FullTokens(pool, up);
  }

  /** A chunk behind a full pool of chunks is full exactly when they all fit the budget. */
  lemma {:induction false} FullIff(pool: Pool, fds: seq<Fd>, budget: int, fd: Fd)
    requires ReadyFds(pool, fds) && NoDup(fds) && fd in fds
    ensures var items, full := PrefillItems(pool, fds, budget), FullItems(pool, UpTo(fds, fd));
            && (FullItem(pool, fd) in items <==> Tokens(full) <= budget)
            && (Tokens(full) <= budget ==> full <= items)
    decreases |fds|
  {
    hide PrefillItems, Tokens, FullItems, FullItem, UpTo, Serves, ReadyFds, NoDup, FullChunk;
    ReadyUpTo(pool, fds, fd);
    if budget <= 0 {
      PrefillItemsUnfold(pool, fds, budget);
    } else {
      var head, rest := fds[0], fds[1..];
      ReadyTail(pool, fds);
      var chunk := Min(FullChunk(pool[head]), budget);
      var tail := PrefillItems(pool, rest, budget - chunk);
      PrefillItemsServe(pool, rest, budget - chunk);
      HeadItem(pool, fds, budget);
      if head == fd {
        NotBehind(pool, fds, tail, budget - chunk);
        OnlyHead(pool, fds);
      } else {
        FullIff(pool, rest, budget - chunk, fd);
        ReadyUpTo(pool, rest, fd);
        FullCons(pool, fds, fd);
        assert FullItem(pool, fd) != BatchItem(head, PREFILL, chunk) by { ItemNames(pool, fd); }
      }
    }
  }

  lemma ItemNames(pool: Pool, fd: Fd)
    ensures FullItem(pool, fd).fd == fd
  {
  }

  lemma ReadyTail(pool: Pool, fds: seq<Fd>)
    requires ReadyFds(pool, fds) && NoDup(fds) && fds != []
    ensures ReadyFds(pool, fds[1..]) && NoDup(fds[1..]) && fds[0] in pool && FullChunk(pool[fds[0]]) >= 1
  {
  }

  /** The first chunk of a pool that has budget. */
  lemma HeadItem(pool: Pool, fds: seq<Fd>, budget: int)
    requires fds != [] && budget > 0 && fds[0] in pool && FullChunk(pool[fds[0]]) >= 1
    ensures var chunk := Min(FullChunk(pool[fds[0]]), budget);
            && PrefillItems(pool, fds, budget) == [BatchItem(fds[0], PREFILL, chunk)] + PrefillItems(pool, fds[1..], budget - chunk)
            && (chunk == FullChunk(pool[fds[0]]) <==> FullItem(pool, fds[0]) == BatchItem(fds[0], PREFILL, chunk))
            && FullItem(pool, fds[0]).nTokens == FullChunk(pool[fds[0]])
  {
    hide FullChunk;
  }

  lemma OnlyHead(pool: Pool, fds: seq<Fd>)
    requires fds != []
    ensures var full := FullItems(pool, UpTo(fds, fds[0]));
            full == [FullItem(pool, fds[0])] && Tokens(full) == FullItem(pool, fds[0]).nTokens
  {
    hide FullItem;
    assert UpTo(fds, fds[0]) == [fds[0]] && [fds[0]][1..] == [];
    assert FullItems(pool, []) == [];
    assert Tokens([]) == 0;
  }

  lemma NotBehind(pool: Pool, fds: seq<Fd>, tail: seq<BatchItem>, budget: int)
    requires fds != [] && NoDup(fds) && Serves(pool, fds[1..], tail, budget)
    ensures FullItem(pool, fds[0]) !in tail
  {
    assert forall i :: 0 <= i < |tail| ==> tail[i].fd in fds[1..];
  }

  lemma FullCons(pool: Pool, fds: seq<Fd>, fd: Fd)
    requires fds != [] && fds[0] != fd
    ensures var full, tail := FullItems(pool, UpTo(fds, fd)), FullItems(pool, UpTo(fds[1..], fd));
            full == [FullItem(pool, fds[0])] + tail && Tokens(full) == FullItem(pool, fds[0]).nTokens + Tokens(tail)
  {
    hide FullItem;
    var up, rest := UpTo(fds, fd), UpTo(fds[1..], fd);
    assert up == [fds[0]] + rest && up[1..] == rest;
    var full := [FullItem(pool, fds[0])] + FullItems(pool, rest);
    assert FullItems(pool, up) == full && full[1..] == FullItems(pool, rest);
  }

  // ---------------------------------------------------------------- the plan

  /** The phases of a plan, and where a waiting session can stand in it. */
  lemma PlanParts(pool: Pool, order: seq<Fd>, sched: SchedState, fd: Fd) returns (a: seq<BatchItem>, first: seq<BatchItem>, rest: seq<BatchItem>)
    requires Enumerates(order, pool) && fd in pool && PrefillReady(pool[fd]) && pool[fd].firstEmitNs == 0
    ensures var budget, waiting := Min(sched.tuning.target, sched.cap), Waiting(pool, order, sched.rrPrefill);
            && PlanOf(pool, order, sched.cap, sched.tuning.target, sched.rrDecode, sched.rrPrefill).items == a + (first + rest)
            && a == DecodeItems(DecodePool(pool, order), sched.rrDecode, budget)
            && first == PrefillItems(pool, waiting, budget - |a|)
            && ReadyFds(pool, waiting) && NoDup(waiting) && fd in waiting
            && FullItem(pool, fd) !in a && FullItem(pool, fd) !in rest
  {
    hide Rotate, TtftPool, PrefillItems, DecodePool, PrefillPool, Tokens, ReadyFds, NoDup;
    var budget := Min(sched.tuning.target, sched.cap);
    var ready := PrefillPool(pool, order);
    a := DecodeItems(DecodePool(pool, order), sched.rrDecode, budget);
    var around := Rotate(ready, sched.rrPrefill);
    var waiting, others := TtftPool(pool, around, true), TtftPool(pool, around, false);
    first := PrefillItems(pool, waiting, budget - |a|);
    rest := PrefillItems(pool, others, budget - |a| - Tokens(first));
    WaitingMembers(pool, order, sched.rrPrefill, fd);
    PrefillItemsServe(pool, others, budget - |a| - Tokens(first));
  }

  lemma WaitingMembers(pool: Pool, order: seq<Fd>, rrPrefill: nat, fd: Fd)
    requires Enumerates(order, pool) && fd in pool && PrefillReady(pool[fd]) && pool[fd].firstEmitNs == 0
    ensures var around := Rotate(PrefillPool(pool, order), rrPrefill);
            var waiting, others := TtftPool(pool, around, true), TtftPool(pool, around, false);
            && ReadyFds(pool, waiting) && NoDup(waiting) && fd in waiting
            && ReadyFds(pool, others) && NoDup(others) && fd !in others
  {
    hide Rotate, TtftPool, NoDup;
    var ready := PrefillPool(pool, order);
    assert NoDup(order);
    PoolsAreReady(pool, order);
    PrefillPoolMembers(pool, order);
    hide PrefillPool;
    RotateMembers(ready, rrPrefill);
    SplitReady(pool, ready, rrPrefill);
  }

  /** Before the guard, a chunk is full exactly when everything up to it fits the token budget. */
  lemma PlannedFullIff(pool: Pool, order: seq<Fd>, sched: SchedState, fd: Fd)
    requires Enumerates(order, pool) && fd in pool && PrefillReady(pool[fd]) && pool[fd].firstEmitNs == 0
    ensures var items := PlanOf(pool, order, sched.cap, sched.tuning.target, sched.rrDecode, sched.rrPrefill).items;
            var ahead := Ahead(pool, order, sched, fd);
            && ahead != [] && ahead[|ahead| - 1] == FullItem(pool, fd)
            && (FullItem(pool, fd) in items <==> Tokens(ahead) <= Min(sched.tuning.target, sched.cap))
            && (Tokens(ahead) <= Min(sched.tuning.target, sched.cap) ==> ahead <= items)
  {
    hide PlanOf, PrefillItems, Tokens, Waiting, ReadyFds, NoDup, Rotate, DecodePool;
    var budget, waiting := Min(sched.tuning.target, sched.cap), Waiting(pool, order, sched.rrPrefill);
    var a, first, rest := PlanParts(pool, order, sched, fd);
    var full := FullItems(pool, UpTo(waiting, fd));
    FullIff(pool, waiting, budget - |a|, fd);
    ReadyUpTo(pool, waiting, fd);
    UpToMembers(waiting, fd);
    FullItemsAt(pool, UpTo(waiting, fd));
    var decoders := DecodePool(pool, order);
    var all := DecodeItems(decoders, sched.rrDecode, |decoders|);
    OnesSum(all);
    TokensAppend(all, full);
    hide FullItems, UpTo, FullItem;
    assert |decoders| <= budget ==> a == all;
  }

  // ---------------------------------------------------------------- the guard

  ghost predicate DecodeFirst(items: seq<BatchItem>) {
    forall i, j :: 0 <= i < j < |items| && items[i].phase.PREFILL? ==> items[j].phase.PREFILL?
  }

  lemma {:induction false} EstimateGrows(pool: Pool, items: seq<BatchItem>, k: nat)
    requires k <= |items|
    ensures Estimate(pool, items[..k]) <= Estimate(pool, items)
  {
    if k == |items| {
      assert items[..k] == items;
    } else {
      var n := |items| - 1;
      assert items[..n][..k] == items[..k];
      EstimateGrows(pool, items[..n], k);
    }
  }

  lemma {:induction false} EmptyTail(pool: Pool, items: seq<BatchItem>, k: nat)
    requires k <= |items| && forall i :: k <= i < |items| ==> items[i].phase.PREFILL? && items[i].nTokens == 0
    ensures Estimate(pool, items) == Estimate(pool, items[..k])
  {
    if k == |items| {
      assert items[..k] == items;
    } else {
      var n := |items| - 1;
      assert items[..n][..k] == items[..k];
      EmptyTail(pool, items[..n], k);
      assert ChunkCost(if items[n].fd in pool then pool[items[n].fd].nPast else 0, 0) == 0;
    }
  }

  lemma {:induction false} ChunkCostGrows(base: nat, m: nat, n: nat)
    requires m <= n
    ensures ChunkCost(base, m) <= ChunkCost(base, n)
  {
    if m < n { ChunkCostGrows(base, m, n - 1); }
  }

  /** The guard leaves a chunk alone exactly when the estimate up to it fits the cost budget. */
  lemma GuardKeepsIff(pool: Pool, items: seq<BatchItem>, budget: nat, i: nat)
    requires DecodeFirst(items) && (forall j :: 0 <= j < |items| ==> items[j].nTokens >= 0)
    requires i < |items| && Trimmable(items[i])
    ensures |Guard(pool, items, budget)| == |items|
    ensures Guard(pool, items, budget)[i] == items[i] <==> Estimate(pool, items[..i + 1]) <= budget
  {
    hide Estimate, Guard;
    var out := Guard(pool, items, budget);
    var k := GuardCuts(pool, items, budget);
    if k > i {
      EstimateGrows(pool, out, i + 1);
      assert out[..i + 1] == items[..i + 1];
      assert Trimmable(out[i]);
    } else {
      CutCost(pool, items, out, budget, k);
      EstimateGrows(pool, items[..i + 1], k + 1);
      assert items[..i + 1][..k + 1] == items[..k + 1];
      assert out[i].nTokens < items[i].nTokens;
    }
  }

  /** Everything up to the item that was cut exceeds the budget. */
  lemma CutCost(pool: Pool, items: seq<BatchItem>, out: seq<BatchItem>, budget: nat, k: nat)
    requires DecodeFirst(items) && CutAt(pool, items, out, budget, k) && k < |items|
    ensures Estimate(pool, items[..k + 1]) > budget
  {
    var more := out[k := out[k].(nTokens := out[k].nTokens + 1)];
    forall i | k + 1 <= i < |more| ensures more[i].phase.PREFILL? && more[i].nTokens == 0 {
      assert items[i].phase.PREFILL?;
    }
    EmptyTail(pool, more, k + 1);
    assert more[..k + 1][..k] == items[..k] && items[..k + 1][..k] == items[..k];
    if items[k].fd in pool {
      ChunkCostGrows(pool[items[k].fd].nPast, out[k].nTokens + 1, items[k].nTokens);
    }
    assert ItemCost(pool, more[k]) <= ItemCost(pool, items[k]);
  }

  // ---------------------------------------------------------------- the final plan

  lemma PlanIsDecodeFirst(pool: Pool, order: seq<Fd>, sched: SchedState)
    requires Enumerates(order, pool)
    ensures var items := PlanOf(pool, order, sched.cap, sched.tuning.target, sched.rrDecode, sched.rrPrefill).items;
            DecodeFirst(items) && forall j :: 0 <= j < |items| ==> items[j].nTokens > 0
  {
    hide DecodeItems, PrefillPlan, DecodePool, PrefillPool, Tokens, NoDup, ReadyFds;
    var budget := Min(sched.tuning.target, sched.cap);
    var decoders, prefills := DecodePool(pool, order), PrefillPool(pool, order);
    var a := DecodeItems(decoders, sched.rrDecode, budget);
    var b := PrefillPlan(pool, prefills, sched.rrPrefill, budget - |a|);
    var items := PlanOf(pool, order, sched.cap, sched.tuning.target, sched.rrDecode, sched.rrPrefill).items;
    assert items == a + b;
    PoolsAreReady(pool, order);
    PrefillPlanIsOk(pool, prefills, sched.rrPrefill, budget - |a|);
    DecodeItemsOk(pool, decoders, sched.rrDecode, budget);
    hide PlanOf;
    forall j | 0 <= j < |items| ensures items[j].nTokens > 0 && (items[j].phase.PREFILL? <==> j >= |a|) {
      assert items[j] == if j < |a| then a[j] else b[j - |a|];
      assert j < |a| ==> ItemOk(pool, a[j]);
      assert j >= |a| ==> ItemOk(pool, b[j - |a|]);
    }
  }

  /** A waiting session's item: at most its full chunk, and the one item of that session. */
  lemma ItemOfFd(pool: Pool, items: seq<BatchItem>, fd: Fd, i: nat)
    requires ItemsOk(pool, items) && DistinctFds(items) && i < |items| && items[i].fd == fd && fd in pool && !DecodeReady(pool[fd])
    ensures items[i].phase.PREFILL? && 1 <= items[i].nTokens <= FullChunk(pool[fd])
    ensures forall it :: it in items && it.fd == fd ==> it == items[i]
  {
    assert ItemOk(pool, items[i]);
  }

  /**
   The rest of a waiting session's prompt is planned as one chunk exactly when it is at most one
   burst and it fits both budgets together with everything that comes first.
   */
  lemma WholePromptIff(cfg: Config, pool: Pool, sched: SchedState, order: seq<Fd>, fd: Fd)
    requires Enumerates(order, pool) && fd in pool && PrefillReady(pool[fd]) && pool[fd].firstEmitNs == 0
    ensures BatchItem(fd, PREFILL, Remaining(pool[fd])) in FinalPlan(cfg, pool, sched, order).items
       <==> FitsWhole(cfg, pool, sched, order, fd)
  {
    var plan := PlanOf(pool, order, sched.cap, sched.tuning.target, sched.rrDecode, sched.rrPrefill);
    PlanIsCorrect(pool, order, sched.cap, sched.tuning.target, sched.rrDecode, sched.rrPrefill);
    assert ItemsOk(pool, plan.items) && DistinctFds(plan.items);
    hide PlanOf, PlanOk, Ahead, Tokens, Estimate, Guard;
    PlanIsDecodeFirst(pool, order, sched);
    PlannedFullIff(pool, order, sched, fd);
    if cfg.bmtBudget == 0 {
      FullIsWhole(pool, plan.items, fd);
    } else {
      FullIsWhole(pool, plan.items, fd);
      GuardedWhole(pool, plan.items, cfg.bmtBudget, fd, Ahead(pool, order, sched, fd));
    }
  }

  /** A planned item is the whole rest of the prompt when it is full and the rest is at most one burst. */
  lemma FullIsWhole(pool: Pool, items: seq<BatchItem>, fd: Fd)
    requires ItemsOk(pool, items) && DistinctFds(items) && fd in pool && PrefillReady(pool[fd]) && pool[fd].firstEmitNs == 0
    ensures BatchItem(fd, PREFILL, Remaining(pool[fd])) in items <==> Remaining(pool[fd]) <= BURST && FullItem(pool, fd) in items
  {
    if i :| 0 <= i < |items| && items[i].fd == fd {
      ItemOfFd(pool, items, fd, i);
    }
  }

  /** What the guard leaves of a plan, for one waiting session. */
  lemma GuardedWhole(pool: Pool, items: seq<BatchItem>, budget: nat, fd: Fd, ahead: seq<BatchItem>)
    requires ItemsOk(pool, items) && DistinctFds(items) && DecodeFirst(items)
    requires fd in pool && PrefillReady(pool[fd]) && pool[fd].firstEmitNs == 0
    requires ahead != [] && ahead[|ahead| - 1] == FullItem(pool, fd) && (FullItem(pool, fd) in items ==> ahead <= items)
    ensures BatchItem(fd, PREFILL, Remaining(pool[fd])) in Guard(pool, items, budget)
       <==> Remaining(pool[fd]) <= BURST && FullItem(pool, fd) in items && Estimate(pool, ahead) <= budget
  {
    hide Estimate, Guard;
    var whole := BatchItem(fd, PREFILL, Remaining(pool[fd]));
    var out := Guard(pool, items, budget);
    assert forall j :: 0 <= j < |items| ==> ItemOk(pool, items[j]) && items[j].nTokens >= 0;
    var k := GuardCuts(pool, items, budget);
    FullIsWhole(pool, items, fd);
    if FullItem(pool, fd) in items {
      var i := |ahead| - 1;
      assert items[i] == FullItem(pool, fd) && items[..i + 1] == ahead;
      GuardKeepsIff(pool, items, budget, i);
      WholeAt(pool, items, out, fd, i);
    } else {
      forall j | 0 <= j < |out| ensures out[j] != whole {
        if out[j].fd == fd { ItemOfFd(pool, items, fd, j); }
      }
    }
  }

  lemma WholeAt(pool: Pool, items: seq<BatchItem>, out: seq<BatchItem>, fd: Fd, i: nat)
    requires ItemsOk(pool, items) && DistinctFds(items) && |out| == |items| && i < |items|
    requires fd in pool && PrefillReady(pool[fd]) && pool[fd].firstEmitNs == 0 && items[i] == FullItem(pool, fd)
    requires forall j :: 0 <= j < |items| ==> out[j].fd == items[j].fd && out[j].phase == items[j].phase
    requires out[i].nTokens <= items[i].nTokens
    ensures BatchItem(fd, PREFILL, Remaining(pool[fd])) in out <==> Remaining(pool[fd]) <= BURST && out[i] == items[i]
  {
    if j :| 0 <= j < |out| && out[j] == BatchItem(fd, PREFILL, Remaining(pool[fd])) {
      assert items[j].fd == items[i].fd;
    }
  }
}
