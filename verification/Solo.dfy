/**
 The reference: one request decoded by itself. No batch, no positions to keep, no states: feed a
 prefix, draw a token, feed it, draw the next, until an end token or the token limit.
 */
module Solo {
  import opened Bytes
  import opened Protocol
  import opened Batch
  import Sampling

  /** Tokens at consecutive positions from zero. */
  function Place(tokens: seq<int>): seq<Cell> {
    seq(|tokens|, i requires 0 <= i < |tokens| => Cell(i, tokens[i]))
  }

  datatype SoloEnd = Running | Ended(reason: bytes)

  datatype SoloRun = SoloRun(tokens: seq<int>, end: SoloEnd)

  /** What a request has produced after the given draws. The first token is never an end. */
  function Decode(m: LanguageModel, maxTokens: nat, fed: seq<int>, params: Sampling.Params, draws: seq<real>): SoloRun {
    if draws == [] then SoloRun([], Running)
    else
      var n := |draws| - 1;
      var r := Decode(m, maxTokens, fed, params, draws[..n]);
      if r.end.Ended? then r
      else
        var t := m.sample(m.logits(Place(fed + r.tokens)), params, draws[n]);
        if |r.tokens| == 0 then SoloRun([t], Running)
        else if |r.tokens| - 1 >= maxTokens then SoloRun(r.tokens, Ended(LENGTH))
        else if m.isEog(t) then SoloRun(r.tokens, Ended(STOP))
        else SoloRun(r.tokens + [t], Running)
  }

  /** At most `maxTokens + 1` tokens, and the length limit ends a request exactly when it is reached. */
  lemma {:induction false} DecodeBound(m: LanguageModel, maxTokens: nat, fed: seq<int>, params: Sampling.Params, draws: seq<real>)
    ensures var r := Decode(m, maxTokens, fed, params, draws);
            && |r.tokens| <= maxTokens + 1 && |r.tokens| <= |draws|
            && (r.end.Ended? ==> |r.tokens| >= 1 && (r.end.reason == LENGTH <==> |r.tokens| == maxTokens + 1))
  {
    if draws != [] {
      DecodeBound(m, maxTokens, fed, params, draws[..|draws| - 1]);
      assert |LENGTH| != |STOP|;
    }
  }

  /** The tokens that the draws yield if nothing ends the request. */
  function Free(m: LanguageModel, fed: seq<int>, params: Sampling.Params, draws: seq<real>): (ts: seq<int>)
    ensures |ts| == |draws|
  {
    if draws == [] then []
    else
      var n := |draws| - 1;
      var ts := Free(m, fed, params, draws[..n]);
      ts + [m.sample(m.logits(Place(fed + ts)), params, draws[n])]
  }

  predicate EndsAt(m: LanguageModel, ts: seq<int>, k: int) {
    0 <= k < |ts| && m.isEog(ts[k])
  }

  /** The run is the free continuation up to its end, and where that is. */
  ghost predicate Cuts(m: LanguageModel, maxTokens: nat, free: seq<int>, r: SoloRun) {
    && r.tokens <= free
    && (forall k :: 1 <= k < |r.tokens| ==> !EndsAt(m, free, k))
    && (r.end.Running? ==> r.tokens == free && |free| <= maxTokens + 1)
    && (r.end.Ended? ==> |free| > |r.tokens| >= 1 && (|r.tokens| == maxTokens + 1 || EndsAt(m, free, |r.tokens|)))
  }

  lemma {:induction false} DecodeCutsFree(m: LanguageModel, maxTokens: nat, fed: seq<int>, params: Sampling.Params, draws: seq<real>)
    ensures Cuts(m, maxTokens, Free(m, fed, params, draws), Decode(m, maxTokens, fed, params, draws))
  {
    if draws != [] {
      var n := |draws| - 1;
      DecodeCutsFree(m, maxTokens, fed, params, draws[..n]);
      var free, before := Free(m, fed, params, draws), Free(m, fed, params, draws[..n]);
      assert forall k :: 0 <= k < n ==> (EndsAt(m, free, k) <==> EndsAt(m, before, k));
    }
  }

  /**
   `max_tokens` is the number of tokens after the first. A request emits more than that exactly
   when it samples often enough and none of these tokens is an end token.
   */
  lemma LimitExceededIff(m: LanguageModel, maxTokens: nat, fed: seq<int>, params: Sampling.Params, draws: seq<real>)
    ensures |Decode(m, maxTokens, fed, params, draws).tokens| > maxTokens
       <==> |draws| > maxTokens && forall k :: 1 <= k <= maxTokens ==> !EndsAt(m, Free(m, fed, params, draws), k)
  {
    hide Decode;
    DecodeCutsFree(m, maxTokens, fed, params, draws);
    DecodeBound(m, maxTokens, fed, params, draws);
    var free, r := Free(m, fed, params, draws), Decode(m, maxTokens, fed, params, draws);
    assert |r.tokens| <= maxTokens < |draws| ==> EndsAt(m, free, |r.tokens|) && 1 <= |r.tokens|;
  }

  /** The sampler ignores the draw for these parameters, as the greedy branch does. */
  ghost predicate IgnoresDraws(m: LanguageModel, params: Sampling.Params) {
    forall logits, x, y :: m.sample(logits, params, x) == m.sample(logits, params, y)
  }

  /** Greedy decoding depends on how many samples were taken, not on the shared random numbers. */
  lemma {:induction false} GreedyIsDeterministic(m: LanguageModel, maxTokens: nat, fed: seq<int>, params: Sampling.Params,
                                                 a: seq<real>, b: seq<real>)
    requires IgnoresDraws(m, params) && |a| == |b|
    ensures Decode(m, maxTokens, fed, params, a) == Decode(m, maxTokens, fed, params, b)
  {
    if a != [] {
      var n := |a| - 1;
      GreedyIsDeterministic(m, maxTokens, fed, params, a[..n], b[..n]);
      var logits := m.logits(Place(fed + Decode(m, maxTokens, fed, params, a[..n]).tokens));
      var x, y := a[n], b[n];
      assert m.sample(logits, params, x) == m.sample(logits, params, y);
    }
  }

  /** A sampler that meets the contract of the greedy branch ignores the draw. */
  lemma ArgmaxIgnoresDraws(m: LanguageModel, params: Sampling.Params)
    requires forall logits, r ::
               Sampling.IsArgmax(logits, m.sample(logits, params, r)) ||
               (|logits| == 0 && m.sample(logits, params, r) == 0)
    ensures IgnoresDraws(m, params)
  {
    forall logits, x, y ensures m.sample(logits, params, x) == m.sample(logits, params, y) {
      if |logits| > 0 {
        Sampling.ArgmaxIsUnique(logits, m.sample(logits, params, x), m.sample(logits, params, y));
      }
    }
  }
}
