/**
 `TopPSampler::sample` over exact reals: greedy choice, top-k ranking, softmax, nucleus cut
 and inverse-CDF draw. `exp` is a parameter; where a result needs it, it is assumed positive
 and monotone. The uniform draw `r` is a parameter too.
 */
module Sampling {
  import opened FiniteSets

  datatype Params = Params(temperature: real, topP: real, topK: int)

  /** Sum of the first `n` entries. */
  function Sum(p: seq<real>, n: nat): real
    requires n <= |p|
  {
    if n == 0 then 0.0 else Sum(p, n - 1) + p[n - 1]
  }

  ghost predicate Descending(p: seq<real>) {
    forall i, j :: 0 <= i < j < |p| ==> p[i] >= p[j]
  }

  ghost predicate Positive(p: seq<real>) {
    forall i :: 0 <= i < |p| ==> p[i] > 0.0
  }

  lemma {:induction false} SumIncreases(p: seq<real>, m: nat, n: nat)
    requires m <= n <= |p| && Positive(p)
    ensures Sum(p, m) <= Sum(p, n)
    ensures m < n ==> Sum(p, m) < Sum(p, n)
    decreases n - m
  {
    if m < n { SumIncreases(p, m, n - 1); }
  }

  /** Dividing every entry by `d` divides every prefix sum by `d`. */
  lemma {:induction false} SumScaled(p: seq<real>, q: seq<real>, d: real, n: nat)
    requires d > 0.0 && n <= |p| && n <= |q|
    requires forall i :: 0 <= i < n ==> q[i] == p[i] / d
    ensures Sum(q, n) == Sum(p, n) / d
  {
    if n > 0 {
      SumScaled(p, q, d, n - 1);
      assert (Sum(p, n - 1) + p[n - 1]) / d == Sum(p, n - 1) / d + p[n - 1] / d;
    }
  }

  // ---------------------------------------------------------------- finite sets of ranks

  lemma {:induction false} HasMaximum(s: set<int>)
    requires s != {}
    ensures exists m :: m in s && forall i :: i in s ==> i <= m
  {
    var x := Member(s);
    var t := s - {x};
    if t == {} {
      assert s == {x};
    } else {
      HasMaximum(t);
      var m :| m in t && forall i :: i in t ==> i <= m;
      var top := if x > m then x else m;
      assert top in s && forall i :: i in s ==> i <= top by {
        forall i | i in s ensures i <= top { assert i == x || i in t; }
      }
    }
  }

  /** Total of `p` over a set of ranks, taken from the largest rank down. */
  ghost function Mass(p: seq<real>, s: set<int>): real
    requires forall i :: i in s ==> 0 <= i < |p|
    decreases |s|
  {
    if s == {} then 0.0
    else
      HasMaximum(s);
      var m :| m in s && forall i :: i in s ==> i <= m;
      Mass(p, s - {m}) + p[m]
  }

  /** Exchange argument: no set of ranks weighs more than the same number of top ranks. */
  lemma {:induction false} TopRanksAreHeaviest(p: seq<real>, s: set<int>)
    requires Descending(p) && forall i :: i in s ==> 0 <= i < |p|
    ensures |s| <= |p| && Mass(p, s) <= Sum(p, |s|)
    decreases |s|
  {
    BoundedCard(s, |p|);
    if s != {} {
      var m := MassPeels(p, s);
      hide Mass;
      BoundedCard(s, m + 1);
      TopRanksAreHeaviest(p, s - {m});
      assert |s - {m}| == |s| - 1;
      assert p[m] <= p[|s| - 1];
    }
  }

  lemma MassPeels(p: seq<real>, s: set<int>) returns (m: int)
    requires s != {} && forall i :: i in s ==> 0 <= i < |p|
    ensures m in s && (forall i :: i in s ==> i <= m) && Mass(p, s) == Mass(p, s - {m}) + p[m]
  {
    HasMaximum(s);
    m :| m in s && (forall i :: i in s ==> i <= m) && Mass(p, s) == Mass(p, s - {m}) + p[m];
  }

  // ---------------------------------------------------------------- nucleus cut

  /** `cut` is the shortest non-empty prefix that reaches `topP`, or everything. */
  ghost predicate IsCut(p: seq<real>, topP: real, cut: int) {
    && 1 <= cut <= |p|
    && (cut < |p| ==> Sum(p, cut) >= topP)
    && forall k: nat :: 1 <= k < cut ==> Sum(p, k) < topP
  }

  /**
   The nucleus is optimal: it reaches `topP`, and no set of fewer ranks does.
   `p` is a descending probability vector, as `SoftmaxIsDistribution` shows of the sampler's.
   */
  lemma NucleusIsOptimal(p: seq<real>, topP: real, cut: int)
    requires Descending(p) && Positive(p) && Sum(p, |p|) == 1.0
    requires 0.0 < topP < 0.9999 && IsCut(p, topP, cut)
    ensures Sum(p, cut) >= topP
    ensures forall s: set<int> :: (forall i :: i in s ==> 0 <= i < |p|) && |s| < cut ==> Mass(p, s) < topP
  {
    forall s: set<int> | (forall i :: i in s ==> 0 <= i < |p|) && |s| < cut
      ensures Mass(p, s) < topP
    {
      TopRanksAreHeaviest(p, s);
    }
  }

  // ---------------------------------------------------------------- draw

  /** Rank chosen by the draw loop: the first whose running sum covers `r`, else the last. */
  ghost predicate IsDraw(q: seq<real>, r: real, k: int) {
    && 0 <= k < |q|
    && (k < |q| - 1 ==> r <= Sum(q, k + 1))
    && forall i: nat :: 1 <= i <= k ==> r > Sum(q, i)
  }

  /**
   The draw is exact inverse-CDF sampling: rank `k` is chosen exactly for the `r` of an
   interval whose length is that rank's probability, and exactly one rank is chosen.
   */
  lemma DrawIsInverseCdf(q: seq<real>, r: real, k: int)
    requires Positive(q) && Sum(q, |q|) == 1.0 && 0.0 <= r < 1.0 && 0 <= k < |q|
    ensures IsDraw(q, r, k) <==> (k == 0 || Sum(q, k) < r) && r <= Sum(q, k + 1)
    ensures Sum(q, k + 1) - Sum(q, k) == q[k]
    ensures IsDraw(q, r, k) ==> forall j :: IsDraw(q, r, j) ==> j == k
  {
    if (k == 0 || Sum(q, k) < r) && r <= Sum(q, k + 1) {
      forall i: nat | 1 <= i <= k ensures r > Sum(q, i) { SumIncreases(q, i, k); }
    }
  }

  // ---------------------------------------------------------------- ranking and softmax

  /** What `partial_sort` promises: a permutation of the ids whose first `k` are the top, in order. */
  ghost predicate Ranking(logits: seq<real>, idx: seq<int>, k: nat) {
    && |idx| == |logits| && k <= |idx|
    && (forall i :: 0 <= i < |idx| ==> 0 <= idx[i] < |logits|)
    && (forall i, j :: 0 <= i < j < |idx| ==> idx[i] != idx[j])
    && (forall i, j :: 0 <= i < j < |idx| && i < k ==> logits[idx[i]] >= logits[idx[j]])
  }

  /** Number of ranks that take part: `top_k` when it is active, otherwise all. */
  function UseCount(n: nat, topK: int): nat {
    if 0 < topK < n then topK else n
  }

  function Scaled(logits: seq<real>, idx: seq<int>, temperature: real, i: nat): real
    requires temperature != 0.0 && i < |idx| && 0 <= idx[i] < |logits|
  {
    logits[idx[i]] * (1.0 / temperature)
  }

  /** Unnormalised softmax weights of the first `k` ranks, shifted by the largest scaled logit. */
  ghost function Weights(logits: seq<real>, idx: seq<int>, k: nat, t: real, exp: real -> real): seq<real>
    requires Ranking(logits, idx, k) && t > 0.0 && 0 < k
  {
    seq(k, i requires 0 <= i < k => exp(Scaled(logits, idx, t, i) - Scaled(logits, idx, t, 0)))
  }

  ghost function Probs(w: seq<real>): seq<real>
    requires Sum(w, |w|) > 0.0
  {
    seq(|w|, i requires 0 <= i < |w| => w[i] / Sum(w, |w|))
  }

  /** What the code relies on: monotone, and non-negative even where it underflows to zero. */
  ghost predicate ExpLike(exp: real -> real) {
    && (forall x :: exp(x) >= 0.0)
    && (forall x, y :: x <= y ==> exp(x) <= exp(y))
  }

  ghost predicate ExpPositive(exp: real -> real) {
    ExpLike(exp) && forall x :: exp(x) > 0.0
  }

  lemma ScaledDescends(a: real, b: real, t: real)
    requires t > 0.0 && a >= b
    ensures a * (1.0 / t) >= b * (1.0 / t)
  {
    var inv := 1.0 / t;
    assert inv > 0.0;
    assert (a - b) * inv >= 0.0;
  }

  lemma WeightsDescend(logits: seq<real>, idx: seq<int>, k: nat, t: real, exp: real -> real)
    requires Ranking(logits, idx, k) && t > 0.0 && 0 < k && ExpLike(exp)
    ensures Descending(Weights(logits, idx, k, t, exp))
  {
    forall i, j | 0 <= i < j < k ensures Scaled(logits, idx, t, i) >= Scaled(logits, idx, t, j) {
      ScaledDescends(logits[idx[i]], logits[idx[j]], t);
    }
  }

  /** In a descending non-negative vector with a positive total, the head is positive. */
  lemma {:induction false} HeadPositive(w: seq<real>, n: nat)
    requires 0 < n <= |w| && Descending(w) && (forall i :: 0 <= i < |w| ==> w[i] >= 0.0)
    ensures Sum(w, n) > 0.0 ==> w[0] > 0.0
    ensures Sum(w, n) >= w[0]
  {
    if n == 1 {
      assert Sum(w, 1) == Sum(w, 0) + w[0];
    } else {
      HeadPositive(w, n - 1);
    }
  }

  lemma ProbsDistribute(w: seq<real>)
    requires |w| > 0 && Positive(w) && Descending(w)
    ensures Sum(w, |w|) > 0.0
    ensures Positive(Probs(w)) && Descending(Probs(w)) && Sum(Probs(w), |w|) == 1.0
  {
    SumIncreases(w, 0, |w|);
    var total := Sum(w, |w|);
    var p := Probs(w);
    forall i | 0 <= i < |w| ensures p[i] > 0.0 {
      Quotients(w[i], w[i], total);
    }
    forall i, j | 0 <= i < j < |w| ensures p[i] >= p[j] {
      Quotients(w[i], w[j], total);
    }
    SumScaled(w, p, total, |w|);
    Quotients(total, total, total);
  }

  lemma Quotients(a: real, b: real, d: real)
    requires d > 0.0 && a >= b > 0.0
    ensures a / d >= b / d > 0.0
    ensures d / d == 1.0
  {
  }

  /** Softmax of a ranking is a positive descending distribution. */
  lemma SoftmaxIsDistribution(logits: seq<real>, idx: seq<int>, k: nat, t: real, exp: real -> real)
    requires Ranking(logits, idx, k) && t > 0.0 && 0 < k && ExpPositive(exp)
    ensures var w := Weights(logits, idx, k, t, exp);
            && |w| == k && Sum(w, k) > 0.0
            && Positive(Probs(w)) && Descending(Probs(w)) && Sum(Probs(w), k) == 1.0
  {
    WeightsDescend(logits, idx, k, t, exp);
    ProbsDistribute(Weights(logits, idx, k, t, exp));
  }

  // ---------------------------------------------------------------- temperature

  ghost predicate SumsToProduct(exp: real -> real, x: real, y: real) {
    exp(x + y) == exp(x) * exp(y)
  }

  /** The law of the exponential. */
  ghost predicate ExpHom(exp: real -> real) {
    ExpPositive(exp) && forall x, y :: SumsToProduct(exp, x, y)
  }

  lemma SplitSum(exp: real -> real, x: real, y: real)
    requires ExpHom(exp)
    ensures exp(x + y) == exp(x) * exp(y) && exp(x) > 0.0 && exp(y) > 0.0
  {
    hide ExpLike;
    assert SumsToProduct(exp, x, y);
  }

  /**
   The softmax distribution at temperature `t`, without saying how it is computed: probabilities
   of the kept ranks are to each other as the exponentials of logit over temperature.
   */
  ghost predicate Boltzmann(p: seq<real>, logits: seq<real>, idx: seq<int>, k: nat, t: real, exp: real -> real)
    requires Ranking(logits, idx, k) && t > 0.0
  {
    && |p| == k && Positive(p) && Sum(p, k) == 1.0
    && forall i, j :: 0 <= i < k && 0 <= j < k ==> p[i] * exp(logits[idx[j]] / t) == p[j] * exp(logits[idx[i]] / t)
  }

  lemma DivIsTimes(a: real, t: real)
    requires t > 0.0
    ensures a / t == a * (1.0 / t)
  {
  }

  /** `exp(x - z) * exp(y) == exp(y - z) * exp(x)`. */
  lemma ShiftCancels(exp: real -> real, x: real, y: real, z: real)
    requires ExpHom(exp)
    ensures exp(x - z) * exp(y) == exp(y - z) * exp(x)
  {
    hide ExpHom;
    SplitSum(exp, x - z, y);
    SplitSum(exp, y - z, x);
    assert (x - z) + y == (y - z) + x;
  }

  lemma SharesKeepRatio(a: real, b: real, total: real, x: real, y: real)
    requires total > 0.0 && a * x == b * y
    ensures (a / total) * x == (b / total) * y
  {
    DivIsTimes(a, total);
    DivIsTimes(b, total);
    var inv := 1.0 / total;
    assert (a * inv) * x == (a * x) * inv;
    assert (b * inv) * y == (b * y) * inv;
  }

  lemma SoftmaxIsBoltzmann(logits: seq<real>, idx: seq<int>, k: nat, t: real, exp: real -> real)
    requires Ranking(logits, idx, k) && t > 0.0 && 0 < k && ExpHom(exp)
    ensures var w := Weights(logits, idx, k, t, exp);
            Sum(w, k) > 0.0 && Boltzmann(Probs(w), logits, idx, k, t, exp)
  {
    hide Sum, ExpHom, ExpPositive, Descending, Weights, Probs, Positive;
    HomIsPositive(exp);
    SoftmaxIsDistribution(logits, idx, k, t, exp);
    var p := Probs(Weights(logits, idx, k, t, exp));
    SoftmaxRatio(logits, idx, k, t, exp, 0, 0);
    forall i, j | 0 <= i < k && 0 <= j < k ensures p[i] * exp(logits[idx[j]] / t) == p[j] * exp(logits[idx[i]] / t) {
      SoftmaxRatio(logits, idx, k, t, exp, i, j);
    }
  }

  lemma HomIsPositive(exp: real -> real)
    requires ExpHom(exp)
    ensures ExpPositive(exp)
  {
    hide ExpPositive;
  }

  lemma SoftmaxRatio(logits: seq<real>, idx: seq<int>, k: nat, t: real, exp: real -> real, i: nat, j: nat)
    requires Ranking(logits, idx, k) && t > 0.0 && i < k && j < k && ExpHom(exp) && Sum(Weights(logits, idx, k, t, exp), k) > 0.0
    ensures var w := Weights(logits, idx, k, t, exp);
            && |Probs(w)| == k
            && Probs(w)[i] * exp(logits[idx[j]] / t) == Probs(w)[j] * exp(logits[idx[i]] / t)
  {
    hide Sum, ExpHom;
    var w := Weights(logits, idx, k, t, exp);
    DivIsTimes(logits[idx[i]], t);
    DivIsTimes(logits[idx[j]], t);
    var x, y, z := Scaled(logits, idx, t, i), Scaled(logits, idx, t, j), Scaled(logits, idx, t, 0);
    ShiftCancels(exp, x, y, z);
    assert w[i] == exp(x - z) && w[j] == exp(y - z);
    assert x == logits[idx[i]] / t && y == logits[idx[j]] / t;
    SharesKeepRatio(w[i], w[j], Sum(w, k), exp(y), exp(x));
  }

  lemma {:induction false} SumTimes(q: seq<real>, c: real, r: seq<real>, d: real, n: nat)
    requires n <= |q| && n <= |r| && forall j :: 0 <= j < n ==> c * q[j] == d * r[j]
    ensures c * Sum(q, n) == d * Sum(r, n)
  {
    if n > 0 {
      SumTimes(q, c, r, d, n - 1);
      assert c * Sum(q, n) == c * Sum(q, n - 1) + c * q[n - 1];
      assert d * Sum(r, n) == d * Sum(r, n - 1) + d * r[n - 1];
    }
  }

  lemma Scales(a: real, b: real, f: real)
    requires f > 0.0
    ensures a < b ==> a * f < b * f
    ensures a * f == b * f ==> a == b
  {
    assert (b - a) * f == b * f - a * f;
  }

  /** Equal products: the side with the smaller factor is the larger one. */
  lemma CancelFactor(a: real, b: real, f: real, g: real)
    requires a * f == b * g && 0.0 < f <= g && b > 0.0
    ensures a >= b
  {
    Scales(a, b, f);
    NonNegProduct(b, g - f);
    assert b * (g - f) == b * g - b * f;
  }

  /** The distribution is determined by logits and temperature. */
  lemma BoltzmannIsUnique(p: seq<real>, q: seq<real>, logits: seq<real>, idx: seq<int>, k: nat, t: real, exp: real -> real)
    requires Ranking(logits, idx, k) && t > 0.0 && ExpHom(exp)
    requires Boltzmann(p, logits, idx, k, t, exp) && Boltzmann(q, logits, idx, k, t, exp)
    ensures p == q
  {
    hide Sum, ExpHom, Ranking;
    forall i | 0 <= i < k ensures p[i] == q[i] {
      forall j | 0 <= j < k ensures p[i] * q[j] == q[i] * p[j] {
        SameRatio(p, q, logits, idx, k, t, exp, i, j);
      }
      SumTimes(q, p[i], p, q[i], k);
    }
  }

  lemma SameRatio(p: seq<real>, q: seq<real>, logits: seq<real>, idx: seq<int>, k: nat, t: real, exp: real -> real, i: nat, j: nat)
    requires Ranking(logits, idx, k) && t > 0.0 && ExpHom(exp) && i < k && j < k
    requires Boltzmann(p, logits, idx, k, t, exp) && Boltzmann(q, logits, idx, k, t, exp)
    ensures p[i] * q[j] == q[i] * p[j]
  {
    hide Sum, ExpHom;
    var e, f := exp(logits[idx[i]] / t), exp(logits[idx[j]] / t);
    SplitSum(exp, logits[idx[i]] / t, logits[idx[j]] / t);
    CrossRatio(p[i], p[j], q[i], q[j], e, f, e, f);
    Scales(p[i] * q[j], q[i] * p[j], f * e);
    assert f * e == e * f;
  }

  /** Two ratios, multiplied crosswise. */
  lemma CrossRatio(pi: real, pj: real, qi: real, qj: real, ei: real, ej: real, fi: real, fj: real)
    requires pi * ej == pj * ei && qi * fj == qj * fi && ei > 0.0 && ej > 0.0 && fi > 0.0 && fj > 0.0
    ensures (pi * qj) * (ej * fi) == (qi * pj) * (ei * fj)
    ensures ej * fi > 0.0 && ei * fj > 0.0
  {
    assert (pi * qj) * (ej * fi) == (pi * ej) * (qj * fi);
    assert (qi * pj) * (ei * fj) == (pj * ei) * (qi * fj);
  }

  /** Exponents at two temperatures: the larger logit gains more at the lower one. */
  lemma ExponentGap(x: real, y: real, t: real, u: real)
    requires 0.0 < t <= u && x >= y
    ensures y / t + x / u <= x / t + y / u
  {
    DivIsTimes(x, t);
    DivIsTimes(y, t);
    DivIsTimes(x, u);
    DivIsTimes(y, u);
    InverseAntitone(t, u);
    GapProduct(x, y, 1.0 / t, 1.0 / u);
  }

  lemma GapProduct(x: real, y: real, a: real, b: real)
    requires x >= y && a >= b
    ensures y * a + x * b <= x * a + y * b
  {
    NonNegProduct(x - y, a - b);
    assert (x - y) * (a - b) == x * a + y * b - (y * a + x * b);
  }

  lemma NonNegProduct(p: real, q: real)
    requires p >= 0.0 && q >= 0.0
    ensures p * q >= 0.0
  {
  }

  lemma InverseAntitone(t: real, u: real)
    requires 0.0 < t <= u
    ensures 1.0 / t >= 1.0 / u
  {
  }

  lemma Monotone(exp: real -> real, x: real, y: real)
    requires ExpHom(exp) && x <= y
    ensures exp(x) <= exp(y)
  {
    hide SumsToProduct;
  }

  lemma CoolerGain(exp: real -> real, x: real, y: real, t: real, u: real)
    requires ExpHom(exp) && 0.0 < t <= u && x >= y
    ensures 0.0 < exp(y / t) * exp(x / u) <= exp(x / t) * exp(y / u)
  {
    hide ExpHom;
    var a, b, c, d := y / t, x / u, x / t, y / u;
    ExponentGap(x, y, t, u);
    SplitSum(exp, a, b);
    SplitSum(exp, c, d);
    Monotone(exp, a + b, c + d);
    PositiveProduct(exp(a), exp(b));
  }

  /** At the lower temperature a higher rank is relatively more probable. */
  lemma CoolerRatio(p: seq<real>, q: seq<real>, logits: seq<real>, idx: seq<int>, k: nat, t: real, u: real, exp: real -> real, i: nat, j: nat)
    requires Ranking(logits, idx, k) && 0.0 < t <= u && ExpHom(exp) && i <= j < k
    requires Boltzmann(p, logits, idx, k, t, exp) && Boltzmann(q, logits, idx, k, u, exp)
    ensures p[i] * q[j] >= q[i] * p[j]
  {
    hide Sum, ExpHom;
    var x, y := logits[idx[i]], logits[idx[j]];
    assert x >= y;
    SplitSum(exp, x / t, y / u);
    SplitSum(exp, y / t, x / u);
    CrossRatio(p[i], p[j], q[i], q[j], exp(x / t), exp(y / t), exp(x / u), exp(y / u));
    CoolerGain(exp, x, y, t, u);
    hide Boltzmann;
    PositiveProduct(q[i], p[j]);
    CancelFactor(p[i] * q[j], q[i] * p[j], exp(y / t) * exp(x / u), exp(x / t) * exp(y / u));
  }

  lemma PositiveProduct(a: real, b: real)
    requires a > 0.0 && b > 0.0
    ensures a * b > 0.0
  {
  }

  /** One rank of the prefix against the ranks behind the prefix. */
  lemma {:induction false} AgainstTail(p: seq<real>, q: seq<real>, i: nat, n: nat, m: nat)
    requires i < n <= m <= |p| == |q| && forall j :: n <= j < m ==> p[i] * q[j] >= q[i] * p[j]
    ensures p[i] * (Sum(q, m) - Sum(q, n)) >= q[i] * (Sum(p, m) - Sum(p, n))
  {
    if n < m {
      AgainstTail(p, q, i, n, m - 1);
      assert p[i] * (Sum(q, m) - Sum(q, n)) == p[i] * (Sum(q, m - 1) - Sum(q, n)) + p[i] * q[m - 1];
      assert q[i] * (Sum(p, m) - Sum(p, n)) == q[i] * (Sum(p, m - 1) - Sum(p, n)) + q[i] * p[m - 1];
    }
  }

  ghost predicate Outweighs(a: real, c: real, b: real, d: real) {
    a * c >= b * d
  }

  /** The same for distributions, whose tail has what the prefix leaves. */
  lemma AgainstRest(p: seq<real>, q: seq<real>, i: nat, n: nat)
    requires i < n <= |p| == |q| && Sum(p, |p|) == 1.0 && Sum(q, |q|) == 1.0
    requires forall j :: n <= j < |p| ==> p[i] * q[j] >= q[i] * p[j]
    ensures Outweighs(p[i], 1.0 - Sum(q, n), q[i], 1.0 - Sum(p, n))
  {
    hide Sum;
    AgainstTail(p, q, i, n, |p|);
  }

  lemma {:induction false} PrefixAgainst(p: seq<real>, q: seq<real>, c: real, d: real, n: nat)
    requires n <= |p| && n <= |q| && forall i :: 0 <= i < n ==> Outweighs(p[i], c, q[i], d)
    ensures Outweighs(Sum(p, n), c, Sum(q, n), d)
  {
    if n > 0 {
      PrefixAgainst(p, q, c, d, n - 1);
      assert Sum(p, n) * c == Sum(p, n - 1) * c + p[n - 1] * c;
      assert Sum(q, n) * d == Sum(q, n - 1) * d + q[n - 1] * d;
    }
  }

  /** A lower temperature never lowers the mass of the top ranks. */
  lemma CoolerIsSharper(p: seq<real>, q: seq<real>, logits: seq<real>, idx: seq<int>, k: nat, t: real, u: real, exp: real -> real, n: nat)
    requires Ranking(logits, idx, k) && 0.0 < t <= u && ExpHom(exp) && n <= k
    requires Boltzmann(p, logits, idx, k, t, exp) && Boltzmann(q, logits, idx, k, u, exp)
    ensures Sum(p, n) >= Sum(q, n)
  {
    hide Sum, ExpHom, Ranking, Outweighs;
    forall i | 0 <= i < n ensures Outweighs(p[i], 1.0 - Sum(q, n), q[i], 1.0 - Sum(p, n)) {
      forall j | n <= j < k ensures p[i] * q[j] >= q[i] * p[j] {
        CoolerRatio(p, q, logits, idx, k, t, u, exp, i, j);
      }
      AgainstRest(p, q, i, n);
    }
    PrefixAgainst(p, q, 1.0 - Sum(q, n), 1.0 - Sum(p, n), n);
    Complements(Sum(p, n), Sum(q, n));
  }

  lemma Complements(a: real, b: real)
    requires Outweighs(a, 1.0 - b, b, 1.0 - a)
    ensures a >= b
  {
    assert a * (1.0 - b) == a - a * b && b * (1.0 - a) == b - a * b;
  }

  lemma {:induction false} ElementsCard(idx: seq<int>)
    ensures |set i | 0 <= i < |idx| :: idx[i]| <= |idx|
    ensures (forall i, j :: 0 <= i < j < |idx| ==> idx[i] != idx[j]) ==> |set i | 0 <= i < |idx| :: idx[i]| == |idx|
  {
    var all := set i | 0 <= i < |idx| :: idx[i];
    if idx != [] {
      var n := |idx| - 1;
      var front := idx[..n];
      ElementsCard(front);
      var before := set i | 0 <= i < |front| :: front[i];
      assert all == before + {idx[n]};
    }
  }

  /** A ranking mentions every id. */
  lemma RankingCovers(logits: seq<real>, idx: seq<int>, k: nat, id: int)
    requires Ranking(logits, idx, k) && 0 <= id < |logits|
    ensures exists i :: 0 <= i < |idx| && idx[i] == id
  {
    var all := set i | 0 <= i < |idx| :: idx[i];
    ElementsCard(idx);
    if id !in all {
      var more := all + {id};
      BoundedCard(more, |logits|);
    }
  }

  /** Fewer than `k` ids have a strictly larger logit than any of the `k` top ranks. */
  lemma TopKBound(logits: seq<real>, idx: seq<int>, k: nat, rank: nat)
    requires Ranking(logits, idx, k) && rank < k
    ensures var larger := set j | 0 <= j < |logits| && logits[j] > logits[idx[rank]];
            |larger| < k
  {
    var larger := set j | 0 <= j < |logits| && logits[j] > logits[idx[rank]];
    var above := idx[..rank];
    var top := set i | 0 <= i < |above| :: above[i];
    forall j | j in larger ensures j in top {
      RankingCovers(logits, idx, k, j);
      var i :| 0 <= i < |idx| && idx[i] == j;
      assert i < rank;
      assert above[i] == j;
    }
    ElementsCard(above);
    SubsetCard(larger, top);
  }

  // ---------------------------------------------------------------- the sampler

  /** Lowest-index argmax, the greedy branch. */
  method Argmax(logits: seq<real>) returns (best: int)
    requires |logits| > 0
    ensures IsArgmax(logits, best)
  {
    best := 0;
    var bestv := logits[0];
    for i := 1 to |logits|
      invariant 0 <= best < i && bestv == logits[best]
      invariant forall j :: 0 <= j < i ==> logits[j] <= bestv
      invariant forall j :: 0 <= j < best ==> logits[j] < bestv
    {
      if logits[i] > bestv {
        bestv, best := logits[i], i;
      }
    }
  }

  ghost predicate IsArgmax(logits: seq<real>, best: int) {
    && 0 <= best < |logits|
    && (forall j :: 0 <= j < |logits| ==> logits[j] <= logits[best])
    && (forall j :: 0 <= j < best ==> logits[j] < logits[best])
  }

  /** The greedy choice is determined by the logits alone. */
  lemma ArgmaxIsUnique(logits: seq<real>, a: int, b: int)
    requires IsArgmax(logits, a) && IsArgmax(logits, b)
    ensures a == b
  {
    assert logits[a] == logits[b];
  }

  /** `partial_sort` of the id array by descending logit, up to rank `k`. */
  method PartialSort(logits: seq<real>, idx: array<int>, k: nat)
    requires Ranking(logits, idx[..], 0) && k <= idx.Length
    modifies idx
    ensures Ranking(logits, idx[..], k)
  {
    for m := 0 to k
      invariant Ranking(logits, idx[..], m)
    {
      var best := m;
      for j := m + 1 to idx.Length
        invariant m <= best < idx.Length
        invariant forall i :: m <= i < j ==> logits[idx[i]] <= logits[idx[best]]
      {
        if logits[idx[j]] > logits[idx[best]] { best := j; }
      }
      ghost var was := idx[..];
      idx[m], idx[best] := idx[best], idx[m];
      SwapKeepsRanking(logits, was, idx[..], m, best);
    }
  }

  lemma SwapKeepsRanking(logits: seq<real>, was: seq<int>, now: seq<int>, m: nat, best: nat)
    requires Ranking(logits, was, m) && m <= best < |was|
    requires forall i :: m <= i < |was| ==> logits[was[i]] <= logits[was[best]]
    requires now == was[m := was[best]][best := was[m]]
    ensures Ranking(logits, now, m + 1)
  {
    assert forall i :: 0 <= i < |now| ==> now[i] == was[if i == m then best else if i == best then m else i];
  }

  /** The nucleus cut loop. */
  method NucleusCut(probs: seq<real>, topP: real) returns (cut: int)
    requires |probs| > 0
    ensures topP >= 0.9999 ==> cut == |probs|
    ensures topP < 0.9999 ==> IsCut(probs, topP, cut)
  {
    cut := |probs|;
    if topP < 0.9999 {
      var c := 0.0;
      cut := 0;
      while cut < |probs|
        invariant 0 <= cut <= |probs| && c == Sum(probs, cut)
        invariant forall k: nat :: 1 <= k <= cut ==> Sum(probs, k) < topP
      {
        c := c + probs[cut];
        if c >= topP {
          cut := cut + 1;
          break;
        }
        cut := cut + 1;
      }
    }
  }

  /** The prefix that the top-p filter keeps; `topP` of 0.9999 and above switches it off. */
  ghost predicate Keeps(p: seq<real>, topP: real, cut: int) {
    if topP >= 0.9999 then cut == |p| else IsCut(p, topP, cut)
  }

  ghost function Renormalised(p: seq<real>, cut: nat): seq<real>
    requires cut <= |p| && Sum(p, cut) > 0.0
  {
    seq(cut, i requires 0 <= i < cut => p[i] / Sum(p, cut))
  }

  /** Renormalise the kept prefix and draw from it; returns a rank. */
  method DrawRank(probs: seq<real>, cut: nat, r: real) returns (rank: int)
    requires 0 < cut <= |probs| && Sum(probs, cut) > 0.0
    ensures IsDraw(Renormalised(probs, cut), r, rank)
  {
    ghost var kept := Renormalised(probs, cut);
    var csum := 0.0;
    for i := 0 to cut
      invariant csum == Sum(probs, i)
    {
      csum := csum + probs[i];
    }
    var q := new real[cut](i requires 0 <= i < cut => probs[i] / csum);
    var acc := 0.0;
    rank := 0;
    while rank < cut - 1
      invariant 0 <= rank <= cut - 1 && acc == Sum(kept, rank)
      invariant forall i: nat :: 1 <= i <= rank ==> r > Sum(kept, i)
    {
      acc := acc + q[rank];
      if r <= acc { return; }
      rank := rank + 1;
    }
  }

  /** The largest scaled logit among the first `k` ranks, found by scanning. */
  method MaxScaled(logits: seq<real>, idx: seq<int>, k: nat, t: real) returns (top: real)
    requires Ranking(logits, idx, k) && t > 0.0 && 0 < k
    ensures top == Scaled(logits, idx, t, 0)
  {
    top := Scaled(logits, idx, t, 0);
    for i := 1 to k
      invariant top == Scaled(logits, idx, t, 0)
    {
      ScaledDescends(logits[idx[0]], logits[idx[i]], t);
      var x := Scaled(logits, idx, t, i);
      if x > top { top := x; }
    }
  }

  method Exponentials(logits: seq<real>, idx: seq<int>, k: nat, t: real, exp: real -> real)
    returns (ws: seq<real>, sum: real)
    requires Ranking(logits, idx, k) && t > 0.0 && 0 < k
    ensures ws == Weights(logits, idx, k, t, exp) && sum == Sum(ws, k)
  {
    ghost var w := Weights(logits, idx, k, t, exp);
    var top := MaxScaled(logits, idx, k, t);
    ws, sum := [], 0.0;
    for i := 0 to k
      invariant |ws| == i && sum == Sum(w, i)
      invariant ws == w[..i]
    {
      var v := exp(Scaled(logits, idx, t, i) - top);
      assert v == w[i];
      ws, sum := ws + [v], sum + v;
    }
  }

  /** Softmax over the first `k` ranks. */
  method Softmax(logits: seq<real>, idx: seq<int>, k: nat, t: real, exp: real -> real)
    returns (probs: seq<real>, sum: real)
    requires Ranking(logits, idx, k) && t > 0.0 && 0 < k
    ensures sum == Sum(Weights(logits, idx, k, t, exp), k)
    ensures sum > 0.0 ==> probs == Probs(Weights(logits, idx, k, t, exp))
    ensures ExpHom(exp) ==> sum > 0.0 && Boltzmann(probs, logits, idx, k, t, exp)
  {
    hide Sum, ExpHom, Boltzmann;
    if ExpHom(exp) { SoftmaxIsBoltzmann(logits, idx, k, t, exp); }
    var ws, total := Exponentials(logits, idx, k, t, exp);
    sum := total;
    probs := ws;
    if sum > 0.0 {
      var ps := new real[k](i requires 0 <= i < k => ws[i]);
      for i := 0 to k
        invariant forall j :: 0 <= j < i ==> ps[j] == ws[j] / sum
        invariant forall j :: i <= j < k ==> ps[j] == ws[j]
      {
        ps[i] := ps[i] / sum;
      }
      probs := ps[..];
    }
  }

  /** Rank `rank` is what draw `r` picks from the nucleus of `probs`. */
  ghost predicate Picked(probs: seq<real>, topP: real, r: real, rank: int) {
    exists cut: nat :: Keeps(probs, topP, cut) && cut <= |probs| && Sum(probs, cut) > 0.0 && IsDraw(Renormalised(probs, cut), r, rank)
  }

  /** Rank `rank` of ranking `idx` is what the sampler picks for draw `r` at a positive temperature. */
  ghost predicate Drawn(logits: seq<real>, idx: seq<int>, p: Params, r: real, exp: real -> real, rank: int)
    requires |logits| > 0 && p.temperature > 0.0 && Ranking(logits, idx, UseCount(|logits|, p.topK))
  {
    var k := UseCount(|logits|, p.topK);
    var w := Weights(logits, idx, k, p.temperature, exp);
    if Sum(w, k) <= 0.0 then rank == 0
    else exists cut: nat :: Keeps(Probs(w), Clamp(p.topP), cut) && Sum(Probs(w), cut) > 0.0 &&
                            IsDraw(Renormalised(Probs(w), cut), r, rank)
  }

  function Clamp(x: real): real {
    if x < 0.0 then 0.0 else if x > 1.0 then 1.0 else x
  }

  /**
   `TopPSampler::sample`. `idx` is the ranking that `partial_sort` produced; ties may be
   broken either way, so the contract holds of every such ranking.
   */
  method Sample(logits: seq<real>, p: Params, r: real, exp: real -> real)
    returns (id: int, ghost idx: seq<int>, ghost rank: int)
    requires ExpLike(exp)
    ensures |logits| == 0 ==> id == 0
    ensures |logits| > 0 ==> 0 <= id < |logits|
    ensures |logits| > 0 && p.temperature <= 0.0 ==> IsArgmax(logits, id)
    ensures |logits| > 0 && p.temperature > 0.0 ==>
              && Ranking(logits, idx, UseCount(|logits|, p.topK))
              && 0 <= rank < UseCount(|logits|, p.topK) && id == idx[rank]
              && Drawn(logits, idx, p, r, exp, rank)
    ensures |logits| > 0 && p.temperature > 0.0 && ExpHom(exp) ==>
              exists probs :: Boltzmann(probs, logits, idx, UseCount(|logits|, p.topK), p.temperature, exp) && Picked(probs, Clamp(p.topP), r, rank)
  {
    hide Sum, ExpLike, Ranking, ExpHom, Boltzmann;
    id, idx, rank := 0, [], 0;
    if |logits| == 0 { return; }
    if p.temperature <= 0.0 {
      id := Argmax(logits);
      return;
    }
    var n := |logits|;
    var k := UseCount(n, p.topK);
    var ids := new int[n](i => i);
    PartialSort(logits, ids, k);
    idx := ids[..];
    var probs, sum := Softmax(logits, ids[..], k, p.temperature, exp);
    if sum <= 0.0 {
      id := ids[0];
      return;
    }
    var cut := NucleusCut(probs, Clamp(p.topP));
    KeptMassPositive(logits, idx, k, p.temperature, exp, cut);
    var drawn := DrawRank(probs, cut, r);
    assert Picked(probs, Clamp(p.topP), r, drawn);
    rank := drawn;
    id := ids[drawn];
  }

  lemma KeptMassPositive(logits: seq<real>, idx: seq<int>, k: nat, t: real, exp: real -> real, cut: int)
    requires Ranking(logits, idx, k) && t > 0.0 && 0 < k && ExpLike(exp)
    requires 0 < cut <= k && Sum(Weights(logits, idx, k, t, exp), k) > 0.0
    ensures Sum(Probs(Weights(logits, idx, k, t, exp)), cut) > 0.0
  {
    var w := Weights(logits, idx, k, t, exp);
    WeightsDescend(logits, idx, k, t, exp);
    HeadPositive(w, k);
    HeadPositive(w, cut);
    SumScaled(w, Probs(w), Sum(w, k), cut);
    Quotients(Sum(w, cut), Sum(w, cut), Sum(w, k));
  }

  /**
   The sampler as a whole, with `exp` positive: the kept ranks are an optimal nucleus of the
   softmax distribution of the top-k set, the draw picks rank `rank` exactly on an interval of
   length equal to its renormalised probability, and fewer than top-k ids beat the result.
   */
  lemma SamplerIsNucleusSampling(logits: seq<real>, idx: seq<int>, p: Params, r: real, exp: real -> real, rank: int)
    returns (cut: nat)
    requires |logits| > 0 && p.temperature > 0.0 && Ranking(logits, idx, UseCount(|logits|, p.topK))
    requires ExpPositive(exp) && 0.0 <= r < 1.0 && 0.0 < p.topP < 0.9999
    requires Drawn(logits, idx, p, r, exp, rank)
    ensures var k := UseCount(|logits|, p.topK);
            var w := Weights(logits, idx, k, p.temperature, exp);
            && Sum(w, k) > 0.0 && 0 <= rank < cut <= k
            && var probs := Probs(w);
            && Sum(probs, cut) > 0.0
            && Sum(probs, cut) >= p.topP
            && (forall s: set<int> :: (forall i :: i in s ==> 0 <= i < k) && |s| < cut ==> Mass(probs, s) < p.topP)
            && (rank == 0 || Sum(probs, rank) / Sum(probs, cut) < r)
            && r <= Sum(probs, rank + 1) / Sum(probs, cut)
            && |set j | 0 <= j < |logits| && logits[j] > logits[idx[rank]]| < k
  {
    var k := UseCount(|logits|, p.topK);
    var w := Weights(logits, idx, k, p.temperature, exp);
    SoftmaxIsDistribution(logits, idx, k, p.temperature, exp);
    var probs := Probs(w);
    cut :| Keeps(probs, Clamp(p.topP), cut) && Sum(probs, cut) > 0.0 && IsDraw(Renormalised(probs, cut), r, rank);
    NucleusIsOptimal(probs, p.topP, cut);
    TopKBound(logits, idx, k, rank);
    RenormalisedInterval(probs, cut, r, rank);
  }

  /** `top_p` of zero or less keeps one rank, of 0.9999 or more keeps all. */
  lemma TopPEdges(probs: seq<real>, topP: real, cut: int)
    requires Positive(probs) && probs != [] && Keeps(probs, Clamp(topP), cut)
    ensures (topP <= 0.0 ==> cut == 1) && (topP >= 0.9999 ==> cut == |probs|)
  {
    if topP <= 0.0 {
      SumIncreases(probs, 0, 1);
      assert Sum(probs, 1) >= 0.0;
    }
  }

  /** The interval of a rank, in terms of the distribution before renormalisation. */
  lemma RenormalisedInterval(probs: seq<real>, cut: nat, r: real, rank: int)
    requires Positive(probs) && 0 < cut <= |probs| && Sum(probs, cut) > 0.0 && 0.0 <= r < 1.0
    requires 0 <= rank < cut
    ensures var q := Renormalised(probs, cut);
            && q[rank] == probs[rank] / Sum(probs, cut)
            && (IsDraw(q, r, rank) <==>
                (rank == 0 || Sum(probs, rank) / Sum(probs, cut) < r) && r <= Sum(probs, rank + 1) / Sum(probs, cut))
            && Sum(probs, rank + 1) / Sum(probs, cut) - Sum(probs, rank) / Sum(probs, cut) == q[rank]
  {
    var q := Renormalised(probs, cut);
    hide Sum, IsDraw;
    RenormalisedSums(probs, cut, rank);
    RenormalisedSums(probs, cut, rank + 1);
    RenormalisedIsDistribution(probs, cut);
    DrawIsInverseCdf(q, r, rank);
  }

  lemma RenormalisedSums(probs: seq<real>, cut: nat, n: nat)
    requires n <= cut <= |probs| && Sum(probs, cut) > 0.0
    ensures Sum(Renormalised(probs, cut), n) == Sum(probs, n) / Sum(probs, cut)
  {
    SumScaled(probs, Renormalised(probs, cut), Sum(probs, cut), n);
  }

  lemma RenormalisedIsDistribution(probs: seq<real>, cut: nat)
    requires Positive(probs) && cut <= |probs| && Sum(probs, cut) > 0.0
    ensures var q := Renormalised(probs, cut);
            Positive(q) && Sum(q, cut) == 1.0
  {
    var d := Sum(probs, cut);
    forall i | 0 <= i < cut ensures probs[i] / d > 0.0 { Quotients(probs[i], probs[i], d); }
    RenormalisedSums(probs, cut, cut);
    Quotients(d, d, d);
  }
}
