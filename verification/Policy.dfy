/**
 `BaselinePolicy::schedule_tick`: one token for each ready DECODE session in round-robin order,
 then PREFILL chunks, sessions without a first token first and at most 16 tokens each.
 */
module Policy {
  import opened Bounds
  import opened Sessions

  datatype Phase = PREFILL | DECODE

  datatype BatchItem = BatchItem(fd: Fd, phase: Phase, nTokens: int)

  datatype Plan = Plan(
    items: seq<BatchItem>,
    nextRrDecode: nat,
    nextRrPrefill: nat,
    decodeTok: int,
    prefillTok: int
  )

  const BURST := 16

  function Tokens(items: seq<BatchItem>): int {
    if items == [] then 0 else items[0].nTokens + Tokens(items[1..])
  }

  // ---------------------------------------------------------------- what the planner computes

  function DecodePool(pool: Pool, order: seq<Fd>): seq<Fd> {
    if order == [] then []
    else
      var n := |order| - 1;
      DecodePool(pool, order[..n]) + if order[n] in pool && DecodeReady(pool[order[n]]) then [order[n]] else []
  }

  function PrefillPool(pool: Pool, order: seq<Fd>): seq<Fd> {
    if order == [] then []
    else
      var n := |order| - 1;
      PrefillPool(pool, order[..n]) + if order[n] in pool && PrefillReady(pool[order[n]]) then [order[n]] else []
  }

  /** `pool` read from the cursor on, wrapping around. */
  function Rotate(fds: seq<Fd>, rr: nat): seq<Fd> {
    seq(|fds|, i requires 0 <= i < |fds| => fds[(rr + i) % |fds|])
  }

  /** The sessions of `fds` whose request still waits for its first token (`waiting`), or the others. */
  function TtftPool(pool: Pool, fds: seq<Fd>, waiting: bool): seq<Fd> {
    if fds == [] then []
    else
      var n := |fds| - 1;
      TtftPool(pool, fds[..n], waiting) +
      if fds[n] in pool && (pool[fds[n]].firstEmitNs == 0) == waiting then [fds[n]] else []
  }

  function DecodeItems(ready: seq<Fd>, rr: nat, budget: int): seq<BatchItem> {
    var n := if budget <= 0 then 0 else Min(budget, |ready|);
    seq(n, i requires 0 <= i < n => BatchItem(Rotate(ready, rr)[i], DECODE, 1))
  }

  /** The chunk a session is entitled to when the budget does not bind. */
  function FullChunk(s: ClientSession): int {
    if s.firstEmitNs == 0 then Min(Remaining(s), BURST) else Remaining(s)
  }

  function PrefillItems(pool: Pool, fds: seq<Fd>, budget: int): seq<BatchItem> {
    if fds == [] || budget <= 0 then []
    else
      var chunk := if fds[0] in pool then Min(FullChunk(pool[fds[0]]), budget) else 0;
      if chunk <= 0 then PrefillItems(pool, fds[1..], budget)
      else [BatchItem(fds[0], PREFILL, chunk)] + PrefillItems(pool, fds[1..], budget - chunk)
  }

  /** Phase B: the waiting sessions, then the others with what is left. */
  function PrefillPlan(pool: Pool, ready: seq<Fd>, rr: nat, budget: int): seq<BatchItem> {
    var around := Rotate(ready, rr);
    var first := PrefillItems(pool, TtftPool(pool, around, true), budget);
    first + PrefillItems(pool, TtftPool(pool, around, false), budget - Tokens(first))
  }

  function Advance(rr: nat, n: nat): nat {
    if n == 0 then 0 else (rr + 1) % n
  }

  function PlanOf(pool: Pool, order: seq<Fd>, cap: int, target: int, rrd: nat, rrp: nat): Plan {
    var budget := Min(target, cap);
    var decoders, prefills := DecodePool(pool, order), PrefillPool(pool, order);
    var a := DecodeItems(decoders, rrd, budget);
    var b := PrefillPlan(pool, prefills, rrp, budget - |a|);
    Plan(a + b,
         if budget > 0 then Advance(rrd, |decoders|) else 0,
         if budget - |a| > 0 then Advance(rrp, |prefills|) else 0,
         |a|, Tokens(b))
  }

  // ---------------------------------------------------------------- the planner

  lemma {:induction false} TokensAppend(a: seq<BatchItem>, b: seq<BatchItem>)
    ensures Tokens(a + b) == Tokens(a) + Tokens(b)
  {
    if a == [] {
      assert a + b == b;
    } else {
      assert (a + b)[1..] == a[1..] + b;
      TokensAppend(a[1..], b);
    }
  }

  lemma TokensSnoc(a: seq<BatchItem>, x: BatchItem)
    ensures Tokens(a + [x]) == Tokens(a) + x.nTokens
  {
    TokensAppend(a, [x]);
    assert Tokens([x]) == x.nTokens + Tokens([]);
  }

  /** The two pools, built in one pass over the sessions. */
  method BuildPools(pool: Pool, order: seq<Fd>) returns (decoders: seq<Fd>, prefills: seq<Fd>)
    requires Enumerates(order, pool)
    ensures decoders == DecodePool(pool, order) && prefills == PrefillPool(pool, order)
  {
    decoders, prefills := [], [];
    for i := 0 to |order|
      invariant decoders == DecodePool(pool, order[..i])
      invariant prefills == PrefillPool(pool, order[..i])
    {
      assert order[..i + 1][..i] == order[..i];
      assert order[i] in pool;
      var s := pool[order[i]];
      if DecodeReady(s) {
        decoders := decoders + [order[i]];
      } else if PrefillReady(s) {
        prefills := prefills + [order[i]];
      }
    }
    assert order[..|order|] == order;
  }

  /** `schedule_pool`: chunks for the sessions of `fds` while budget is left. */
  method SchedulePool(pool: Pool, fds: seq<Fd>, budget0: int) returns (items: seq<BatchItem>, budget: int)
    ensures items == PrefillItems(pool, fds, budget0) && budget == budget0 - Tokens(items)
  {
    hide PrefillItems, Tokens;
    items, budget := [], budget0;
    var i := 0;
    NoTokens();
    assert fds[0..] == fds;
    while i < |fds| && budget > 0
      invariant 0 <= i <= |fds| && budget == budget0 - Tokens(items)
      invariant items + PrefillItems(pool, fds[i..], budget) == PrefillItems(pool, fds, budget0)
    {
      var fd := fds[i];
      assert fds[i..][1..] == fds[i + 1..];
      PrefillItemsUnfold(pool, fds[i..], budget);
      if fd in pool {
        var s := pool[fd];
        var chunk := Min(Remaining(s), budget);
        if s.firstEmitNs == 0 {
          chunk := Min(chunk, BURST);
        }
        if chunk > 0 {
          var item := BatchItem(fd, PREFILL, chunk);
          TokensSnoc(items, item);
          assert items + ([item] + PrefillItems(pool, fds[i + 1..], budget - chunk))
              == (items + [item]) + PrefillItems(pool, fds[i + 1..], budget - chunk);
          items := items + [item];
          budget := budget - chunk;
        }
      }
      i := i + 1;
    }
    PrefillItemsUnfold(pool, fds[i..], budget);
  }

  lemma NoTokens()
    ensures Tokens([]) == 0
  {
  }

  /** One round of `schedule_pool`. */
  lemma PrefillItemsUnfold(pool: Pool, fds: seq<Fd>, budget: int)
    ensures fds == [] || budget <= 0 ==> PrefillItems(pool, fds, budget) == []
    ensures fds != [] && budget > 0 ==>
              var chunk := if fds[0] in pool then Min(FullChunk(pool[fds[0]]), budget) else 0;
              PrefillItems(pool, fds, budget) ==
                if chunk <= 0 then PrefillItems(pool, fds[1..], budget)
                else [BatchItem(fds[0], PREFILL, chunk)] + PrefillItems(pool, fds[1..], budget - chunk)
  {
  }

  method SplitByFirstToken(pool: Pool, fds: seq<Fd>) returns (ttft: seq<Fd>, rest: seq<Fd>)
    requires forall fd :: fd in fds ==> fd in pool
    ensures ttft == TtftPool(pool, fds, true) && rest == TtftPool(pool, fds, false)
  {
    ttft, rest := [], [];
    for i := 0 to |fds|
      invariant ttft == TtftPool(pool, fds[..i], true)
      invariant rest == TtftPool(pool, fds[..i], false)
    {
      assert fds[..i + 1][..i] == fds[..i];
      assert fds[i] in fds;
      if pool[fds[i]].firstEmitNs == 0 {
        ttft := ttft + [fds[i]];
      } else {
        rest := rest + [fds[i]];
      }
    }
    assert fds[..|fds|] == fds;
  }

  /** Phase A. */
  method PlanDecode(ready: seq<Fd>, rr: nat, budget0: int) returns (items: seq<BatchItem>, budget: int)
    ensures items == DecodeItems(ready, rr, budget0) && budget == budget0 - |items|
  {
    items, budget := [], budget0;
    var n := |ready|;
    var i := 0;
    while i < n && budget > 0
      invariant 0 <= i <= n && budget == budget0 - i && (i > 0 ==> 0 <= budget)
      invariant |items| == i
      invariant forall k :: 0 <= k < i ==> items[k] == BatchItem(Rotate(ready, rr)[k], DECODE, 1)
    {
      items := items + [BatchItem(ready[(rr + i) % n], DECODE, 1)];
      budget := budget - 1;
      i := i + 1;
    }
  }

  /** Phase B. */
  method PlanPrefill(pool: Pool, ready: seq<Fd>, rr: nat, budget: int) returns (items: seq<BatchItem>)
    requires forall fd :: fd in ready ==> fd in pool
    ensures items == PrefillPlan(pool, ready, rr, budget)
  {
    var around := Rotate(ready, rr);
    var ttft, rest := SplitByFirstToken(pool, around);
    var first, left := SchedulePool(pool, ttft, budget);
    items := first;
    if left > 0 {
      var second, _ := SchedulePool(pool, rest, left);
      items := first + second;
    } else {
      assert first + [] == first;
    }
  }

  /** `BaselinePolicy::schedule_tick`. */
  method ScheduleTick(pool: Pool, order: seq<Fd>, cap: int, target: int, rrd: nat, rrp: nat)
    returns (plan: Plan)
    requires Enumerates(order, pool)
    ensures plan == PlanOf(pool, order, cap, target, rrd, rrp)
  {
    hide DecodePool, PrefillPool, DecodeItems, PrefillPlan, Tokens;
    var decoders, prefills := BuildPools(pool, order);
    var a, budget := PlanDecode(decoders, rrd, Min(target, cap));
    var nextD := if decoders != [] && Min(target, cap) > 0 then (rrd + 1) % |decoders| else 0;
    PrefillPoolMembers(pool, order);
    var b := PlanPrefill(pool, prefills, rrp, budget);
    var nextP := if prefills != [] && budget > 0 then (rrp + 1) % |prefills| else 0;
    plan := Plan(a + b, nextD, nextP, |a|, Tokens(b));
  }

  // ---------------------------------------------------------------- facts about pools

  lemma {:induction false} DecodePoolMembers(pool: Pool, order: seq<Fd>)
    ensures forall fd :: fd in DecodePool(pool, order) <==> fd in order && fd in pool && DecodeReady(pool[fd])
    ensures NoDup(order) ==> NoDup(DecodePool(pool, order))
  {
    if order != [] {
      var n := |order| - 1;
      assert order == order[..n] + [order[n]];
      DecodePoolMembers(pool, order[..n]);
    }
  }

  lemma {:induction false} PrefillPoolMembers(pool: Pool, order: seq<Fd>)
    ensures forall fd :: fd in PrefillPool(pool, order) <==> fd in order && fd in pool && PrefillReady(pool[fd])
    ensures NoDup(order) ==> NoDup(PrefillPool(pool, order))
  {
    if order != [] {
      var n := |order| - 1;
      assert order == order[..n] + [order[n]];
      PrefillPoolMembers(pool, order[..n]);
    }
  }

  lemma {:induction false} TtftPoolMembers(pool: Pool, fds: seq<Fd>, waiting: bool)
    ensures forall fd :: fd in TtftPool(pool, fds, waiting) <==>
                         fd in fds && fd in pool && (pool[fd].firstEmitNs == 0) == waiting
    ensures NoDup(fds) ==> NoDup(TtftPool(pool, fds, waiting))
  {
    if fds != [] {
      var n := |fds| - 1;
      assert fds == fds[..n] + [fds[n]];
      TtftPoolMembers(pool, fds[..n], waiting);
    }
  }
}
