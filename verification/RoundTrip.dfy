/**
 End-to-end JSON: what the server reads from the CLI's request payload, and what the CLI reads
 from the server's token events. The readers search for `"key"` textually, so the question is
 where that text can first occur.
 */
module RoundTrip {
  import opened Bytes
  import opened Protocol
  import opened Json

  const ID: bytes := [105, 100]
  const PROMPT: bytes := [112, 114, 111, 109, 112, 116]
  const TEXT: bytes := [116, 101, 120, 116]
  const EVENT: bytes := [101, 118, 101, 110, 116]
  const TOKEN: bytes := [116, 111, 107, 101, 110]
  // ","event":"
  const EVENT_KEY: bytes := [34, 44, 34, 101, 118, 101, 110, 116, 34, 58, 34]

  // ","prompt":"
  const PROMPT_KEY: bytes := [34, 44, 34, 112, 114, 111, 109, 112, 116, 34, 58, 34]

  lemma AtConcat(a: bytes, b: bytes, c: bytes)
    ensures At(a + b + c, |a|, b)
    ensures At(a + b + c, |a| + |b|, c)
    ensures At(a + b + c, 0, a)
  {
    var j := a + b + c;
    assert forall k :: 0 <= k < |a| ==> a[k] == j[k];
    assert forall k :: 0 <= k < |b| ==> b[k] == j[|a| + k];
    assert forall k :: 0 <= k < |c| ==> c[k] == j[|a| + |b| + k];
  }

  /** No key match can close on a quote inside an escaped string. */
  lemma ClosingQuoteOutside(j: bytes, off: nat, s: bytes, key: bytes, p: int)
    requires At(j, off, Escape(s)) && MatchAt(j, Quoted(key), p)
    requires key != [] && key[|key| - 1] != BACKSLASH
    ensures p + |key| + 1 < off || off + |Escape(s)| <= p + |key| + 1
  {
    MatchEnds(j, key, p);
    var q := p + |key| + 1;
    assert j[p + 1 + (|key| - 1)] == key[|key| - 1];
    assert off < q < off + |Escape(s)| ==> Escape(s)[q - off - 1] == j[off + (q - off - 1)];
    if off <= q < off + |Escape(s)| {
      assert Escape(s)[q - off] == j[off + (q - off)];
      EscapeGuardsQuotes(s, q - off);
    }
  }

  lemma OpenIdBytes(j: bytes)
    requires At(j, 0, OPEN_ID)
    ensures |j| >= 7 && j[0] == 123 && j[1] == 34 && j[2] == 105 && j[3] == 100
    ensures j[4] == 34 && j[5] == 58 && j[6] == 34
  {
    assert OPEN_ID[0] == 123 && OPEN_ID[1] == 34 && OPEN_ID[2] == 105 && OPEN_ID[3] == 100;
    assert OPEN_ID[4] == 34 && OPEN_ID[5] == 58 && OPEN_ID[6] == 34;
  }

  lemma PromptKeyBytes(j: bytes, i: nat)
    requires At(j, i, PROMPT_KEY)
    ensures |j| >= i + 12 && j[i] == 34 && j[i + 1] == 44 && j[i + 2] == 34 && j[i + 3] == 112
    ensures j[i + 4] == 114 && j[i + 5] == 111 && j[i + 6] == 109 && j[i + 7] == 112 && j[i + 8] == 116
    ensures j[i + 9] == 34 && j[i + 10] == 58 && j[i + 11] == 34
  {
    assert PROMPT_KEY[0] == 34 && PROMPT_KEY[1] == 44 && PROMPT_KEY[2] == 34 && PROMPT_KEY[3] == 112;
    assert PROMPT_KEY[4] == 114 && PROMPT_KEY[5] == 111 && PROMPT_KEY[6] == 109 && PROMPT_KEY[7] == 112;
    assert PROMPT_KEY[8] == 116 && PROMPT_KEY[9] == 34 && PROMPT_KEY[10] == 58 && PROMPT_KEY[11] == 34;
  }

  /** The value of "id" always starts right behind the opening of the payload. */
  lemma IdStart(j: bytes)
    requires At(j, 0, OPEN_ID)
    ensures ValueStart(j, ID) == 7
  {
    OpenIdBytes(j);
    assert j[1..5] == Quoted(ID);
    assert MatchAt(j, Quoted(ID), 1);
    if MatchAt(j, Quoted(ID), 0) { MatchEnds(j, ID, 0); }
    ValueStartIs(j, ID, 1, 5);
  }

  lemma ValueStartIs(j: bytes, key: bytes, r: nat, colon: nat)
    requires Find(j, Quoted(key), 0) == r && r <= colon && colon + 1 < |j|
    requires j[colon] == COLON && j[colon + 1] == QUOTE
    requires forall i :: r <= i < colon ==> j[i] != COLON
    ensures ValueStart(j, key) == colon + 2
  {
    hide Find, Quoted, MatchAt;
    FindByte(j, COLON, r, colon);
    FindByte(j, QUOTE, colon, colon + 1);
  }

  /** An id and the bytes `rest` right behind it, as every payload here begins. */
  ghost predicate Opens(j: bytes, id: bytes, rest: bytes) {
    At(j, 0, OPEN_ID) && At(j, 7, Escape(id)) && At(j, 7 + |Escape(id)|, rest)
  }

  /** The value of "prompt" is found even when the key first matches at the end of the id. */
  lemma PromptStart(j: bytes, id: bytes)
    requires Opens(j, id, PROMPT_KEY)
    ensures ValueStart(j, PROMPT) == 19 + |Escape(id)|
  {
    var n := |Escape(id)|;
    PromptKeyBytes(j, 7 + n);
    PromptKeyMatches(j, n);
    var r := Find(j, Quoted(PROMPT), 0);
    ClosingQuoteOutside(j, 7, id, PROMPT, r);
    PromptMatches(j, n, r);
    NoColonBeforePrompt(j, n, r);
    ValueStartIs(j, PROMPT, r, n + 17);
  }

  lemma PromptKeyMatches(j: bytes, n: nat)
    requires At(j, 7 + n, PROMPT_KEY)
    ensures MatchAt(j, Quoted(PROMPT), n + 9)
  {
    PromptKeyBytes(j, 7 + n);
    assert j[n + 9..n + 17] == Quoted(PROMPT);
  }

  lemma NoColonBeforePrompt(j: bytes, n: nat, r: int)
    requires At(j, 7 + n, PROMPT_KEY) && MatchAt(j, Quoted(PROMPT), r) && (r == n || r == n + 9)
    ensures forall i :: r <= i < n + 17 ==> j[i] != COLON
  {
    PromptKeyBytes(j, 7 + n);
    forall i | r <= i < n + 17 ensures j[i] != COLON {
      if i < r + 8 { NoColonInMatch(j, PROMPT, r, i); }
    }
  }

  lemma NoColonInMatch(j: bytes, key: bytes, r: int, i: int)
    requires MatchAt(j, Quoted(key), r) && COLON !in key && r <= i < r + |key| + 2
    ensures i < |j| && j[i] != COLON
  {
    MatchEnds(j, key, r);
    if r < i < r + |key| + 1 {
      assert j[r + 1 + (i - r - 1)] == key[i - r - 1];
    }
  }

  lemma PromptMatches(j: bytes, n: nat, r: int)
    requires At(j, 7 + n, PROMPT_KEY) && MatchAt(j, Quoted(PROMPT), r) && r <= 9 + n
    requires r + 7 < 7 || 7 + n <= r + 7
    ensures r == n || r == 9 + n
  {
    PromptKeyBytes(j, 7 + n);
    MatchEnds(j, PROMPT, r);
    assert j[r + 1 + 5] == PROMPT[5];
  }

  /** The CLI's request: `tail` is everything from the quote that closes the prompt. */
  function RequestPayload(id: bytes, prompt: bytes, tail: bytes): bytes {
    OPEN_ID + Escape(id) + (PROMPT_KEY + Escape(prompt) + tail)
  }

  lemma RequestLayout(id: bytes, prompt: bytes, tail: bytes)
    requires |tail| > 0 && tail[0] == QUOTE
    ensures var j := RequestPayload(id, prompt, tail);
            && Opens(j, id, PROMPT_KEY)
            && Literal(j, 7, Escape(id))
            && Literal(j, 19 + |Escape(id)|, Escape(prompt))
            && At(j, 19 + |Escape(id)| + |Escape(prompt)|, tail)
            && |j| == 19 + |Escape(id)| + |Escape(prompt)| + |tail|
  {
    LayoutOf(Escape(id), Escape(prompt), tail);
  }

  lemma LayoutOf(e: bytes, p: bytes, tail: bytes)
    requires |tail| > 0 && tail[0] == QUOTE
    ensures var j := OPEN_ID + e + (PROMPT_KEY + p + tail);
            && At(j, 0, OPEN_ID) && At(j, 7 + |e|, PROMPT_KEY)
            && Literal(j, 7, e) && Literal(j, 19 + |e|, p) && At(j, 19 + |e| + |p|, tail)
            && |j| == 19 + |e| + |p| + |tail|
  {
    var j := OPEN_ID + e + (PROMPT_KEY + p + tail);
    NestedLayout(OPEN_ID, e, PROMPT_KEY, p, tail);
    assert |OPEN_ID| == 7 && |PROMPT_KEY| == 12;
    PromptKeyBytes(j, 7 + |e|);
    LiteralBefore(j, 19 + |e|, p, tail);
  }

  /** Two strings between three fixed parts. */
  lemma NestedLayout(a: bytes, e: bytes, k: bytes, x: bytes, tail: bytes)
    ensures var j := a + e + (k + x + tail);
            && At(j, 0, a) && At(j, |a|, e) && At(j, |a| + |e|, k)
            && At(j, |a| + |e| + |k|, x) && At(j, |a| + |e| + |k| + |x|, tail)
  {
    hide At;
    var inner := k + x + tail;
    var j := a + e + inner;
    AtConcat(a, e, inner);
    AtConcat(k, x, tail);
    AtWithin(j, |a| + |e|, inner, 0, k);
    AtWithin(j, |a| + |e|, inner, |k|, x);
    AtWithin(j, |a| + |e|, inner, |k| + |x|, tail);
  }

  lemma AtWithin(j: bytes, i: nat, s: bytes, k: nat, t: bytes)
    requires At(j, i, s) && At(s, k, t)
    ensures At(j, i + k, t)
  {
    forall x | 0 <= x < |t| ensures t[x] == j[i + k + x] {
      assert s[k + x] == j[i + (k + x)];
    }
  }

  /**
   CLI to server: whatever the id and the prompt, both are found and neither is flagged. They
   come back unchanged exactly when they hold no control byte other than \n, \r and \t.
   */
  lemma RequestIsReadBack(id: bytes, prompt: bytes, tail: bytes)
    requires |tail| > 0 && tail[0] == QUOTE
    ensures var j := RequestPayload(id, prompt, tail);
            && ExtractString(j, ID) == Extracted(Sanitised(id), false)
            && ExtractString(j, PROMPT) == Extracted(Sanitised(prompt), false)
            && (ExtractString(j, ID).value == id <==> Printable(id))
            && (ExtractString(j, PROMPT).value == prompt <==> Printable(prompt))
  {
    hide RequestPayload, Escape, ParseString, Sanitised, Printable, ValueStart, Literal;
    var j := RequestPayload(id, prompt, tail);
    RequestLayout(id, prompt, tail);
    IdStart(j);
    ParseEscaped(j, 7, id);
    PromptStart(j, id);
    ParseEscaped(j, 19 + |Escape(id)|, prompt);
    SanitisedIsIdentity(id);
    SanitisedIsIdentity(prompt);
  }

  // ---------------------------------------------------------------- keys at the end of an id

  ghost predicate Suffix(w: bytes, s: bytes) {
    |w| <= |s| && s[|s| - |w|..] == w
  }

  /** The id is the key, or ends in a quote and the key: then `"key"` matches at the id's end. */
  ghost predicate KeyAtEnd(id: bytes, key: bytes) {
    id == key || Suffix([QUOTE] + key, id)
  }

  /** Printed as itself, and not the second of two hexadecimal digits. */
  ghost predicate PlainAfter(prev: byte, c: byte) {
    c >= 0x20 && c != QUOTE && c != BACKSLASH && !(IsHex(prev) && IsHex(c))
  }

  ghost predicate PlainKey(key: bytes) {
    && key != []
    && (forall i :: 0 <= i < |key| ==> key[i] >= 0x20 && key[i] != QUOTE && key[i] != BACKSLASH)
    && (forall i, k :: 0 <= i < k < |key| && k == i + 1 ==> !(IsHex(key[i]) && IsHex(key[k])))
  }

  /** Only a plain byte prints a plain byte last. */
  lemma LastByte(f: bytes, b: byte, c: byte)
    requires var e := f + EscapeByte(b);
             && e[|e| - 1] == c && c >= 0x20 && c != QUOTE && c != BACKSLASH
             && (|e| > 1 ==> e[|e| - 2] != BACKSLASH && PlainAfter(e[|e| - 2], c))
    ensures b == c && EscapeByte(b) == [c]
  {
    var x := EscapeByte(b);
    var e := f + x;
    if |x| == 2 {
      assert e[|e| - 2] == x[0];
    } else if |x| == 6 {
      assert e[|e| - 2] == x[4] && e[|e| - 1] == x[5];
    }
  }

  lemma Snoc(s: bytes) returns (front: bytes, last: byte)
    requires Escape(s) != []
    ensures s == front + [last] && Escape(s) == Escape(front) + EscapeByte(last)
  {
    front, last := s[..|s| - 1], s[|s| - 1];
    assert s == front + [last];
    EscapeSnoc(front, last);
  }

  /** A plain last byte of an escaped string is the last byte of the string. */
  lemma PeelPlain(s: bytes, f: bytes, c: byte) returns (front: bytes)
    requires Escape(s) == f + [c] && c >= 0x20 && c != QUOTE && c != BACKSLASH
    requires f != [] ==> f[|f| - 1] != BACKSLASH && PlainAfter(f[|f| - 1], c)
    ensures s == front + [c] && Escape(front) == f
  {
    var fr, last := Snoc(s);
    front := fr;
    var e := Escape(front) + EscapeByte(last);
    assert e == f + [c];
    assert e[|e| - 1] == c && (|e| > 1 ==> e[|e| - 2] == f[|f| - 1]);
    LastByte(Escape(front), last, c);
    assert Escape(front) == e[..|e| - 1] == f;
  }

  /** The last byte of a plain key, and what stands before it. */
  lemma PlainEnd(x: bytes, key: bytes)
    requires PlainKey(key) && (x != [] ==> x[|x| - 1] == QUOTE)
    ensures var m := |key| - 1;
            var f := x + key[..m];
            && key[m] >= 0x20 && key[m] != QUOTE && key[m] != BACKSLASH
            && (f != [] ==> f[|f| - 1] != BACKSLASH && PlainAfter(f[|f| - 1], key[m]))
            && (m > 0 ==> PlainKey(key[..m]))
  {
    var m := |key| - 1;
    var f := x + key[..m];
    assert f != [] ==> f[|f| - 1] == if m == 0 then x[|x| - 1] else key[m - 1];
  }

  /** A plain key at the end of an escaped string is at the end of the string. */
  lemma {:induction false} PeelKey(s: bytes, x: bytes, key: bytes) returns (front: bytes)
    requires Escape(s) == x + key && PlainKey(key) && (x != [] ==> x[|x| - 1] == QUOTE)
    ensures s == front + key && Escape(front) == x
    decreases |key|
  {
    hide Escape, PlainKey, PlainAfter;
    var m := |key| - 1;
    assert m >= 0 by { NonEmptyKey(key); }
    var shorter, c := key[..m], key[m];
    PlainEnd(x, key);
    LastApart(x, key);
    var s0 := PeelPlain(s, x + shorter, c);
    if m == 0 {
      assert x + shorter == x;
      front := s0;
    } else {
      front := PeelKey(s0, x, shorter);
      LastApart(front, key);
    }
  }

  lemma NonEmptyKey(key: bytes)
    requires PlainKey(key)
    ensures key != []
  {
  }

  lemma LastApart(x: bytes, key: bytes)
    requires key != []
    ensures x + key == (x + key[..|key| - 1]) + [key[|key| - 1]]
  {
  }

  lemma PeelQuote(s: bytes, u: bytes) returns (front: bytes)
    requires Escape(s) == u + [QUOTE]
    ensures s == front + [QUOTE]
  {
    var f, last := Snoc(s);
    front := f;
    var b := EscapeByte(last);
    assert (Escape(f) + b)[|Escape(f)| + |b| - 1] == b[|b| - 1] == QUOTE;
  }

  lemma EscapeEmpty(s: bytes)
    ensures Escape(s) == [] <==> s == []
  {
  }

  lemma {:induction false} PlainEscape(key: bytes)
    requires forall i :: 0 <= i < |key| ==> key[i] >= 0x20 && key[i] != QUOTE && key[i] != BACKSLASH
    ensures Escape(key) == key
  {
    if key != [] { PlainEscape(key[1..]); }
  }

  lemma EscapedQuote()
    ensures Escape([QUOTE]) == [BACKSLASH, QUOTE]
  {
    assert Escape([QUOTE]) == [BACKSLASH, QUOTE] + Escape([]);
  }

  lemma KeySurvivesEscape(id: bytes, key: bytes)
    requires PlainKey(key) && KeyAtEnd(id, key)
    ensures KeyAtEnd(Escape(id), key)
  {
    hide Escape, Suffix;
    PlainEscape(key);
    if id != key {
      var front := SplitSuffix(id, [QUOTE] + key);
      QuotedKeyEscaped(front, key);
    }
  }

  lemma QuotedKeyEscaped(front: bytes, key: bytes)
    requires Escape(key) == key
    ensures Suffix([QUOTE] + key, Escape(front + ([QUOTE] + key)))
  {
    hide Escape, Suffix;
    var w := [QUOTE] + key;
    EscapeAppend(front, w);
    EscapeAppend([QUOTE], key);
    EscapedQuote();
    assert Escape(front) + ([BACKSLASH, QUOTE] + key) == (Escape(front) + [BACKSLASH]) + w;
    SuffixOf(Escape(front + w), Escape(front) + [BACKSLASH], w);
  }

  lemma SuffixOf(s: bytes, x: bytes, w: bytes)
    requires s == x + w
    ensures Suffix(w, s)
  {
  }

  lemma SplitSuffix(s: bytes, w: bytes) returns (x: bytes)
    requires Suffix(w, s)
    ensures s == x + w
  {
    x := s[..|s| - |w|];
  }

  lemma WholeKeyEscaped(id: bytes, key: bytes)
    requires PlainKey(key) && Escape(id) == key
    ensures id == key
  {
    assert [] + key == key;
    var front := PeelKey(id, [], key);
    EscapeEmpty(front);
  }

  lemma SuffixKeyEscaped(id: bytes, key: bytes)
    requires PlainKey(key) && Suffix([QUOTE] + key, Escape(id))
    ensures Suffix([QUOTE] + key, id)
  {
    hide Escape, PlainKey, Suffix;
    var x := SplitSuffix(Escape(id), [QUOTE] + key);
    assert x + ([QUOTE] + key) == (x + [QUOTE]) + key;
    var front := PeelKey(id, x + [QUOTE], key);
    var g := PeelQuote(front, x);
    assert (g + [QUOTE]) + key == g + ([QUOTE] + key);
    SuffixOf(id, g, [QUOTE] + key);
  }

  /** The escaped id shows `"key` at its end exactly when the id itself does. */
  lemma KeyAtEndEscaped(id: bytes, key: bytes)
    requires PlainKey(key)
    ensures KeyAtEnd(id, key) <==> KeyAtEnd(Escape(id), key)
  {
    if KeyAtEnd(id, key) {
      KeySurvivesEscape(id, key);
    } else if Escape(id) == key {
      WholeKeyEscaped(id, key);
    } else if Suffix([QUOTE] + key, Escape(id)) {
      SuffixKeyEscaped(id, key);
    }
  }

  /** The textual match at the end of the id, in terms of the id. */
  lemma MatchAtIdEnd(j: bytes, id: bytes, key: bytes)
    requires At(j, 0, OPEN_ID) && At(j, 7, Escape(id)) && PlainKey(key) && |key| >= 3
    requires COLON !in key
    requires 7 + |Escape(id)| < |j| && j[7 + |Escape(id)|] == QUOTE
    ensures MatchAt(j, Quoted(key), 6 + |Escape(id)| - |key|) <==> KeyAtEnd(id, key)
  {
    hide Escape, KeyAtEnd, Quoted, PlainKey;
    KeyAtEndEscaped(id, key);
    OpenIdBytes(j);
    if MatchAt(j, Quoted(key), 6 + |Escape(id)| - |key|) { MatchShowsKey(j, Escape(id), key); }
    if KeyAtEnd(Escape(id), key) { KeyMakesMatch(j, Escape(id), key); }
  }

  lemma MatchShowsKey(j: bytes, e: bytes, key: bytes)
    requires At(j, 7, e) && COLON !in key && 3 <= |key| && j[6] == QUOTE && j[5] == COLON
    requires MatchAt(j, Quoted(key), 6 + |e| - |key|)
    ensures KeyAtEnd(e, key)
  {
    var n, k := |e|, |key|;
    MatchEnds(j, key, 6 + n - k);
    if n < k {
      // the match would have to run over the colon in front of the id
      NoColonInMatch(j, key, 6 + n - k, 5);
    } else {
      forall i | n - k <= i < n ensures e[i] == key[i - (n - k)] {
        assert j[7 + n - k + (i - (n - k))] == key[i - (n - k)];
      }
      assert e[n - k..] == key;
      if n > k {
        assert e[n - k - 1] == QUOTE;
        assert e[n - k - 1..] == [QUOTE] + key;
      }
    }
  }

  lemma KeyMakesMatch(j: bytes, e: bytes, key: bytes)
    requires At(j, 7, e) && 7 + |e| < |j| && j[7 + |e|] == QUOTE && j[6] == QUOTE
    requires KeyAtEnd(e, key)
    ensures MatchAt(j, Quoted(key), 6 + |e| - |key|)
  {
    var n, k := |e|, |key|;
    var p := 6 + n - k;
    var w := [QUOTE] + key;
    if e == key {
      assert p == 6;
    } else {
      assert forall i :: 0 <= i < k + 1 ==> w[i] == e[n - k - 1..][i];
      assert w[0] == e[n - k - 1] == j[7 + (n - k - 1)];
    }
    assert j[p] == QUOTE;
    forall i | 0 <= i < k ensures j[p + 1 + i] == key[i] {
      assert e != key ==> w[i + 1] == key[i];
      assert e[n - k + i] == key[i];
    }
    assert j[p..p + k + 2] == Quoted(key);
  }

  // ---------------------------------------------------------------- token events at the CLI

  lemma TokenTextBytes(j: bytes, i: nat)
    requires At(j, i, TOKEN_TEXT)
    ensures |j| >= i + 26 && j[i] == 34 && j[i + 1] == 44 && j[i + 2] == 34
    ensures j[i + 3] == 101 && j[i + 4] == 118 && j[i + 5] == 101 && j[i + 6] == 110 && j[i + 7] == 116
    ensures j[i + 8] == 34 && j[i + 9] == 58 && j[i + 10] == 34
    ensures j[i + 11] == 116 && j[i + 12] == 111 && j[i + 13] == 107 && j[i + 14] == 101 && j[i + 15] == 110
    ensures j[i + 16] == 34 && j[i + 17] == 44 && j[i + 18] == 34
    ensures j[i + 19] == 116 && j[i + 20] == 101 && j[i + 21] == 120 && j[i + 22] == 116
    ensures j[i + 23] == 34 && j[i + 24] == 58 && j[i + 25] == 34
  {
    var t := TOKEN_TEXT;
    assert t[0] == 34 && t[1] == 44 && t[2] == 34 && t[3] == 101 && t[4] == 118 && t[5] == 101 && t[6] == 110;
    assert t[7] == 116 && t[8] == 34 && t[9] == 58 && t[10] == 34 && t[11] == 116 && t[12] == 111 && t[13] == 107;
    assert t[14] == 101 && t[15] == 110 && t[16] == 34 && t[17] == 44 && t[18] == 34 && t[19] == 116 && t[20] == 101;
    assert t[21] == 120 && t[22] == 116 && t[23] == 34 && t[24] == 58 && t[25] == 34;
  }

  lemma TextMatches(j: bytes, n: nat, r: int)
    requires At(j, 0, OPEN_ID) && At(j, 7 + n, TOKEN_TEXT) && MatchAt(j, Quoted(TEXT), r) && r <= 25 + n
    requires r + 5 < 7 || 7 + n <= r + 5
    ensures r == 2 + n || r == 25 + n
  {
    OpenIdBytes(j);
    TokenTextBytes(j, 7 + n);
    MatchEnds(j, TEXT, r);
    assert j[r + 1 + 3] == TEXT[3];
  }

  lemma EventKeyBytes(j: bytes, i: nat)
    requires At(j, i, EVENT_KEY)
    ensures |j| >= i + 11 && j[i] == 34 && j[i + 1] == 44 && j[i + 2] == 34
    ensures j[i + 3] == 101 && j[i + 4] == 118 && j[i + 5] == 101 && j[i + 6] == 110 && j[i + 7] == 116
    ensures j[i + 8] == 34 && j[i + 9] == 58 && j[i + 10] == 34
  {
    var t := EVENT_KEY;
    assert t[0] == 34 && t[1] == 44 && t[2] == 34 && t[3] == 101 && t[4] == 118 && t[5] == 101 && t[6] == 110;
    assert t[7] == 116 && t[8] == 34 && t[9] == 58 && t[10] == 34;
  }

  lemma EventMatches(j: bytes, n: nat, r: int)
    requires At(j, 0, OPEN_ID) && At(j, 7 + n, EVENT_KEY) && MatchAt(j, Quoted(EVENT), r) && r <= 9 + n
    requires r + 6 < 7 || 7 + n <= r + 6
    ensures r == 1 + n || r == 9 + n
  {
    OpenIdBytes(j);
    EventKeyBytes(j, 7 + n);
    MatchEnds(j, EVENT, r);
    assert j[r + 1 + 4] == EVENT[4];
  }

  /** From a match of `key` at the end of the id, the next colon is the one behind "event". */
  lemma NoColonBeforeEvent(j: bytes, n: nat, key: bytes, r: int)
    requires At(j, 7 + n, EVENT_KEY) && MatchAt(j, Quoted(key), r) && COLON !in key
    requires r + |key| + 1 == 7 + n || (r == n + 9 && |key| == 5)
    ensures forall i :: r <= i < n + 16 ==> j[i] != COLON
  {
    EventKeyBytes(j, 7 + n);
    forall i | r <= i < n + 16 ensures j[i] != COLON {
      if i < r + |key| + 2 { NoColonInMatch(j, key, r, i); }
    }
  }

  /** The event key at the front of a longer text. */
  lemma StartsWithKey(j: bytes, i: nat, t: bytes)
    requires At(j, i, t) && EVENT_KEY <= t
    ensures At(j, i, EVENT_KEY)
  {
    forall k | 0 <= k < |EVENT_KEY| ensures EVENT_KEY[k] == j[i + k] {
      assert t[k] == j[i + k];
    }
  }

  lemma WordTokenAt(j: bytes, n: nat)
    requires At(j, 7 + n, TOKEN_TEXT)
    ensures CliParse(j, n + 18) == TOKEN
  {
    TokenTextBytes(j, 7 + n);
    CliPlain(j, n + 18, n + 23);
    assert CliParse(j, n + 23) == [];
    assert j[n + 18..n + 23] == TOKEN;
  }

  lemma TextStart(j: bytes, id: bytes)
    requires Opens(j, id, TOKEN_TEXT)
    ensures ValueStart(j, TEXT) == |Escape(id)| + (if KeyAtEnd(id, TEXT) then 18 else 33)
  {
    hide Escape, ValueStart, KeyAtEnd, Quoted;
    var n := |Escape(id)|;
    var r := Find(j, Quoted(TEXT), 0);
    TextKeyMatches(j, n);
    ClosingQuoteOutside(j, 7, id, TEXT, r);
    TokenTextBytes(j, 7 + n);
    MatchAtIdEnd(j, id, TEXT);
    TextStartAt(j, n, r);
  }

  lemma TextStartAt(j: bytes, n: nat, r: int)
    requires At(j, 0, OPEN_ID) && At(j, 7 + n, TOKEN_TEXT) && r == Find(j, Quoted(TEXT), 0)
    requires r + 5 < 7 || 7 + n <= r + 5
    ensures ValueStart(j, TEXT) == n + (if MatchAt(j, Quoted(TEXT), n + 2) then 18 else 33)
  {
    TextKeyMatches(j, n);
    TextMatches(j, n, r);
    if r == n + 2 {
      StartsWithKey(j, 7 + n, TOKEN_TEXT);
      NoColonBeforeEvent(j, n, TEXT, r);
      TokenTextBytes(j, 7 + n);
      ValueStartIs(j, TEXT, r, n + 16);
    } else {
      NoColonInText(j, n);
      TokenTextBytes(j, 7 + n);
      ValueStartIs(j, TEXT, r, n + 31);
    }
  }

  lemma NoColonInText(j: bytes, n: nat)
    requires At(j, 7 + n, TOKEN_TEXT)
    ensures forall i :: n + 25 <= i < n + 31 ==> j[i] != COLON
  {
    TokenTextBytes(j, 7 + n);
  }

  lemma TextKeyMatches(j: bytes, n: nat)
    requires At(j, 7 + n, TOKEN_TEXT)
    ensures MatchAt(j, Quoted(TEXT), n + 25)
  {
    TokenTextBytes(j, 7 + n);
    assert j[n + 25..n + 31] == Quoted(TEXT);
  }

  lemma TokenEventLayout(id: bytes, text: bytes, t: int)
    ensures var j := Payload(Token(id, text, t));
            Opens(j, id, TOKEN_TEXT) && Literal(j, 33 + |Escape(id)|, Escape(text))
  {
    EventLayoutOf(Escape(id), Escape(text), Decimal(t) + [125]);
  }

  lemma EventLayoutOf(e: bytes, x: bytes, rest: bytes)
    ensures var j := OPEN_ID + e + (TOKEN_TEXT + x + (TOKEN_ID + rest));
            && At(j, 0, OPEN_ID) && At(j, 7, e) && At(j, 7 + |e|, TOKEN_TEXT) && Literal(j, 33 + |e|, x)
  {
    hide At, Literal;
    var tail := TOKEN_ID + rest;
    NestedLayout(OPEN_ID, e, TOKEN_TEXT, x, tail);
    TokenIdQuote(rest);
    assert |OPEN_ID| == 7 && |TOKEN_TEXT| == 26;
    LiteralBefore(OPEN_ID + e + (TOKEN_TEXT + x + tail), 33 + |e|, x, tail);
  }

  lemma TokenIdQuote(rest: bytes)
    ensures (TOKEN_ID + rest)[0] == QUOTE
  {
    assert TOKEN_ID[0] == QUOTE;
  }

  lemma LiteralBefore(j: bytes, i: nat, s: bytes, tail: bytes)
    requires At(j, i, s) && At(j, i + |s|, tail) && tail != [] && tail[0] == QUOTE
    ensures Literal(j, i, s)
  {
    assert tail[0] == j[i + |s| + 0];
  }

  /**
   Server to CLI: the event kind is always read as "token". The text comes back through
   `json_get_string` up to exotic control bytes, unless the id is `text` or ends in `"text`:
   then the word "token" is printed instead.
   */
  lemma TokenEventAtCli(id: bytes, text: bytes, t: int)
    ensures var j := Payload(Token(id, text, t));
            && GetString(j, EVENT) == TOKEN
            && GetString(j, TEXT) == (if KeyAtEnd(id, TEXT) then TOKEN else CliEcho(text))
            && (GetString(j, TEXT) == text <==> if KeyAtEnd(id, TEXT) then text == TOKEN else Printable(text))
  {
    hide Payload, Escape, ValueStart, CliParse, CliEcho, Literal, KeyAtEnd, Printable, At;
    var j := Payload(Token(id, text, t));
    var n := |Escape(id)|;
    TokenEventLayout(id, text, t);
    TextStart(j, id);
    StartsWithKey(j, 7 + n, TOKEN_TEXT);
    EventStart(j, id);
    WordTokenAt(j, n);
    CliParseEscaped(j, 33 + n, text);
    CliEchoIsIdentity(text);
  }

  /** Every event of a request has its kind right behind the id. */
  lemma EventStart(j: bytes, id: bytes)
    requires Opens(j, id, EVENT_KEY)
    ensures ValueStart(j, EVENT) == |Escape(id)| + 18
  {
    hide Escape, ValueStart;
    var n := |Escape(id)|;
    var r := Find(j, Quoted(EVENT), 0);
    EventKeyMatches(j, n);
    ClosingQuoteOutside(j, 7, id, EVENT, r);
    EventStartAt(j, n, r);
  }

  lemma EventKeyMatches(j: bytes, n: nat)
    requires At(j, 7 + n, EVENT_KEY)
    ensures MatchAt(j, Quoted(EVENT), n + 9)
  {
    EventKeyBytes(j, 7 + n);
    assert j[n + 9..n + 16] == Quoted(EVENT);
  }

  lemma EventStartAt(j: bytes, n: nat, r: int)
    requires At(j, 0, OPEN_ID) && At(j, 7 + n, EVENT_KEY) && r == Find(j, Quoted(EVENT), 0)
    requires r + 6 < 7 || 7 + n <= r + 6
    ensures ValueStart(j, EVENT) == n + 18
  {
    EventKeyMatches(j, n);
    EventMatches(j, n, r);
    NoColonBeforeEvent(j, n, EVENT, r);
    EventKeyBytes(j, 7 + n);
    ValueStartIs(j, EVENT, r, n + 16);
  }
}
