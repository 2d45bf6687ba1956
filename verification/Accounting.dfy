/** The split accounting of decode time and tokens in `Scheduler::tick`. */
module Accounting {
  datatype Metrics = Metrics(
    batchCalls: nat,
    lastBatchSize: nat,
    decodePhaseTokens: nat,
    prefillTokens: nat,
    decodeNsGen: nat,
    prefillNs: nat,
    decodeMsLast: nat,
    decodeNs: nat,
    decodeCalls: nat,
    decodeTokens: nat,
    decodeMsMin: nat,
    decodeMsMax: nat
  )

  const ZERO := Metrics(0, 0, 0, 0, 0, 0, 0, 0, 0, 0, 0xFFFF_FFFF, 0)

  /** One model call: its duration and its generation and prefill tokens. */
  datatype Call = Call(durNs: nat, gen: nat, prefill: nat) {
    function Total(): nat { gen + prefill }
  }

  /** `d * g / n`, rounded down. */
  function Share(d: nat, g: nat, n: nat): nat
    requires n > 0
  {
    Product(d, g) / n
  }

  function Product(a: nat, b: nat): nat {
    a * b
  }

  lemma ShareBound(d: nat, g: nat, n: nat)
    requires n > 0 && g <= n
    ensures Share(d, g, n) <= d && (g == 0 ==> Share(d, g, n) == 0)
  {
    var x := d * g;
    assert x <= d * n by { ProductMonotone(d, g, n); }
    var q := x / n;
    assert q * n <= x;
    if q > d {
      ProductMonotone(n, d + 1, q);
    }
  }

  lemma ProductMonotone(k: nat, a: nat, b: nat)
    requires a <= b
    ensures k * a <= k * b
  {
  }

  /** Duration share of the generation tokens. */
  function GenNs(c: Call): nat {
    if c.Total() == 0 then 0 else Share(c.durNs, c.gen, c.Total())
  }

  lemma GenShare(c: Call)
    ensures GenNs(c) <= c.durNs && (c.gen == 0 ==> GenNs(c) == 0)
  {
    hide Share;
    if c.Total() > 0 {
      ShareBound(c.durNs, c.gen, c.Total());
    }
  }

  function Record(x: Metrics, c: Call): Metrics {
    var genNs := GenNs(c);
    GenShare(c);
    var y := x.(batchCalls := x.batchCalls + 1,
                lastBatchSize := c.Total(),
                decodePhaseTokens := x.decodePhaseTokens + c.gen,
                prefillTokens := x.prefillTokens + c.prefill,
                decodeNsGen := x.decodeNsGen + genNs,
                prefillNs := x.prefillNs + (c.durNs - genNs));
    if c.gen == 0 then y
    else
      var ms := (genNs + 500_000) / 1_000_000;
      y.(decodeMsLast := ms,
         decodeNs := x.decodeNs + genNs,
         decodeCalls := x.decodeCalls + 1,
         decodeTokens := x.decodeTokens + c.gen,
         decodeMsMin := if ms < x.decodeMsMin then ms else x.decodeMsMin,
         decodeMsMax := if ms > x.decodeMsMax then ms else x.decodeMsMax)
  }

  function RecordAll(calls: seq<Call>): Metrics {
    if calls == [] then ZERO else Record(RecordAll(calls[..|calls| - 1]), calls[|calls| - 1])
  }

  function TotalNs(calls: seq<Call>): nat {
    if calls == [] then 0 else TotalNs(calls[..|calls| - 1]) + calls[|calls| - 1].durNs
  }

  function TotalTokens(calls: seq<Call>): nat {
    if calls == [] then 0 else TotalTokens(calls[..|calls| - 1]) + calls[|calls| - 1].Total()
  }

  /** Nothing is lost or counted twice. */
  ghost predicate Balanced(x: Metrics, calls: seq<Call>) {
    && x.batchCalls == |calls|
    && x.decodeNsGen + x.prefillNs == TotalNs(calls)
    && x.decodePhaseTokens + x.prefillTokens == TotalTokens(calls)
    && x.decodeNs == x.decodeNsGen
    && x.decodeTokens == x.decodePhaseTokens
    && (x.decodeCalls > 0 ==> x.decodeMsMin <= x.decodeMsLast <= x.decodeMsMax)
    && (calls != [] ==> x.lastBatchSize == calls[|calls| - 1].Total())
    && x.decodeCalls == GenCalls(calls) && Extremes(x, calls)
  }

  /** The calls that generated something. */
  function GenCalls(calls: seq<Call>): nat {
    if calls == [] then 0 else GenCalls(calls[..|calls| - 1]) + if calls[|calls| - 1].gen > 0 then 1 else 0
  }

  /** Generation time of a call in milliseconds, rounded. */
  function GenMs(c: Call): nat {
    (GenNs(c) + 500_000) / 1_000_000
  }

  /** Minimum and maximum bound all decode times, and are among them or at their start values. */
  ghost predicate Extremes(x: Metrics, calls: seq<Call>) {
    && (forall i :: 0 <= i < |calls| && calls[i].gen > 0 ==> x.decodeMsMin <= GenMs(calls[i]) <= x.decodeMsMax)
    && (x.decodeMsMin == 0xFFFF_FFFF || exists i :: 0 <= i < |calls| && calls[i].gen > 0 && GenMs(calls[i]) == x.decodeMsMin)
    && (x.decodeMsMax == 0 || exists i :: 0 <= i < |calls| && calls[i].gen > 0 && GenMs(calls[i]) == x.decodeMsMax)
  }

  lemma RecordExtremes(x: Metrics, calls: seq<Call>, c: Call)
    requires Extremes(x, calls)
    ensures Extremes(Record(x, c), calls + [c])
  {
    GenShare(c);
    hide GenNs;
    var y, all := Record(x, c), calls + [c];
    assert all[|calls|] == c && forall i :: 0 <= i < |calls| ==> all[i] == calls[i];
    if i :| 0 <= i < |calls| && calls[i].gen > 0 && GenMs(calls[i]) == x.decodeMsMin { assert all[i] == calls[i]; }
    if i :| 0 <= i < |calls| && calls[i].gen > 0 && GenMs(calls[i]) == x.decodeMsMax { assert all[i] == calls[i]; }
  }

  lemma ShareIsFloor(d: nat, g: nat, n: nat)
    requires n > 0
    ensures Share(d, g, n) * n <= d * g < (Share(d, g, n) + 1) * n
  {
    var x := d * g;
    var q := x / n;
    assert x == q * n + x % n;
  }

  /**
   The split of one call: generation gets the part of the time that its tokens are of all tokens,
   rounded down to a nanosecond, prefill the rest; the last decode time is that part in
   milliseconds, rounded to the nearest.
   */
  lemma RecordSplits(x: Metrics, c: Call)
    requires c.Total() > 0
    ensures var y := Record(x, c);
            var q := y.decodeNsGen - x.decodeNsGen;
            && 0 <= q && q * c.Total() <= c.durNs * c.gen < (q + 1) * c.Total()
            && y.prefillNs - x.prefillNs == c.durNs - q
            && (c.gen > 0 ==> 1_000_000 * y.decodeMsLast <= q + 500_000 < 1_000_000 * (y.decodeMsLast + 1))
  {
    GenShare(c);
    ShareIsFloor(c.durNs, c.gen, c.Total());
    hide Share;
  }

  lemma ZeroBalances(x: Metrics, calls: seq<Call>)
    requires x == ZERO && calls == []
    ensures Balanced(x, calls)
  {
    hide Record, GenNs, GenMs;
  }

  lemma RecordBalances(x: Metrics, calls: seq<Call>, c: Call)
    requires Balanced(x, calls)
    ensures Balanced(Record(x, c), calls + [c])
  {
    hide Extremes, GenNs;
    GenShare(c);
    RecordExtremes(x, calls, c);
    assert (calls + [c])[..|calls|] == calls;
  }

  /** The counters balance after any list of model calls. */
  lemma {:induction false} CountersBalance(calls: seq<Call>)
    ensures Balanced(RecordAll(calls), calls)
  {
    hide Record, Balanced;
    if calls == [] {
      ZeroBalances(RecordAll(calls), calls);
    } else {
      var n := |calls| - 1;
      CountersBalance(calls[..n]);
      RecordBalances(RecordAll(calls[..n]), calls[..n], calls[n]);
      assert calls[..n] + [calls[n]] == calls;
    }
  }
}
