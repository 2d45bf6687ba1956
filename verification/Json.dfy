/**
 The hand-written JSON readers: `extract_json_string` in the server and `json_get_string` in
 the CLI, against the payloads that the CLI and the server build with `json_escape`.
 */
module Json {
  import opened Bytes
  import opened Protocol

  const COLON: byte := 58

  // ---------------------------------------------------------------- searching

  predicate MatchAt(j: bytes, pat: bytes, k: int) {
    0 <= k && k + |pat| <= |j| && j[k..k + |pat|] == pat
  }

  /** `std::string::find`: the first match at or after `from`, or -1. */
  function Find(j: bytes, pat: bytes, from: nat): (r: int)
    ensures r == -1 ==> forall k :: from <= k ==> !MatchAt(j, pat, k)
    ensures r != -1 ==> from <= r && MatchAt(j, pat, r)
    ensures r != -1 ==> forall k :: from <= k < r ==> !MatchAt(j, pat, k)
    decreases |j| - from
  {
    if from + |pat| > |j| then -1
    else if MatchAt(j, pat, from) then from
    else Find(j, pat, from + 1)
  }

  function Quoted(key: bytes): bytes {
    [QUOTE] + key + [QUOTE]
  }

  lemma MatchEnds(j: bytes, key: bytes, p: int)
    requires MatchAt(j, Quoted(key), p)
    ensures 0 <= p && p + |key| + 1 < |j|
    ensures j[p] == QUOTE && j[p + |key| + 1] == QUOTE
    ensures forall i :: 0 <= i < |key| ==> j[p + 1 + i] == key[i]
  {
    var m := j[p..p + |key| + 2];
    assert m == Quoted(key);
    assert m[0] == QUOTE && m[|key| + 1] == QUOTE;
    forall i | 0 <= i < |key| ensures j[p + 1 + i] == key[i] {
      assert m[i + 1] == key[i];
    }
  }

  /** First occurrence of one byte. */
  lemma FindByte(j: bytes, c: byte, from: nat, at: nat)
    requires from <= at < |j| && j[at] == c
    requires forall i :: from <= i < at ==> j[i] != c
    ensures Find(j, [c], from) == at
  {
    assert j[at..at + 1] == [c];
    assert MatchAt(j, [c], at);
    forall k | from <= k < at ensures !MatchAt(j, [c], k) {
      assert j[k..k + 1] == [j[k]];
      assert [j[k]][0] != [c][0];
    }
  }

  /** Where the value of `key` starts: behind the first quote after the first colon after the key. */
  function ValueStart(j: bytes, key: bytes): int {
    var k := Find(j, Quoted(key), 0);
    if k == -1 then -1
    else
      var colon := Find(j, [COLON], k);
      if colon == -1 then -1
      else
        var q := Find(j, [QUOTE], colon);
        if q == -1 then -1 else q + 1
  }

  // ---------------------------------------------------------------- the server's reader

  datatype Extracted = Extracted(value: bytes, invalid: bool)

  predicate IsHex(c: byte) {
    48 <= c <= 57 || 97 <= c <= 102 || 65 <= c <= 70
  }

  /** The byte a two-character escape stands for, if the server supports it. */
  function ShortEscape(e: byte): int {
    if e == QUOTE then QUOTE
    else if e == BACKSLASH then BACKSLASH
    else if e == 47 then 47
    else if e == 98 then 8
    else if e == 102 then 12
    else if e == 110 then 10
    else if e == 114 then 13
    else if e == 116 then 9
    else -1
  }

  function Cons(c: byte, x: Extracted): Extracted {
    Extracted([c] + x.value, x.invalid)
  }

  predicate HexRun(j: bytes, i: nat) {
    i + 4 <= |j| && IsHex(j[i]) && IsHex(j[i + 1]) && IsHex(j[i + 2]) && IsHex(j[i + 3])
  }

  /** The string literal that starts at `i`. Unicode escapes are skipped and read as '?'. */
  function ParseString(j: bytes, i: nat): Extracted
    decreases |j| - i
  {
    if i >= |j| then Extracted([], false)
    else if j[i] == BACKSLASH then
      if i + 1 >= |j| then Extracted([], true)
      else if ShortEscape(j[i + 1]) != -1 then Cons(ShortEscape(j[i + 1]), ParseString(j, i + 2))
      else if j[i + 1] == 117 && HexRun(j, i + 2) then Cons(63, ParseString(j, i + 6))
      else Extracted([], true)
    else if j[i] == QUOTE then Extracted([], false)
    else if j[i] < 0x20 then Extracted([], true)
    else Cons(j[i], ParseString(j, i + 1))
  }

  function ExtractString(j: bytes, key: bytes): Extracted {
    var i := ValueStart(j, key);
    if i == -1 then Extracted([], false) else ParseString(j, i)
  }

  /** Two-character escapes and what they stand for, as in section 7 of RFC 8259. */
  const RFC_ESCAPES: seq<(byte, byte)> :=
    [(34, 34), (92, 92), (47, 47), (98, 8), (102, 12), (110, 10), (114, 13), (116, 9)]

  /** The server reads exactly these, and flags every other escape that is not a unicode one. */
  lemma ServerReadsRfcEscapes(j: bytes, i: nat)
    requires i + 1 < |j| && j[i] == BACKSLASH
    ensures forall k :: 0 <= k < |RFC_ESCAPES| && RFC_ESCAPES[k].0 == j[i + 1] ==>
                          ParseString(j, i) == Extracted([RFC_ESCAPES[k].1] + ParseString(j, i + 2).value, ParseString(j, i + 2).invalid)
    ensures j[i + 1] != 117 && (forall k :: 0 <= k < |RFC_ESCAPES| ==> RFC_ESCAPES[k].0 != j[i + 1]) ==>
              ParseString(j, i) == Extracted([], true)
  {
    var t := RFC_ESCAPES;
    assert t[0] == (34, 34) && t[1] == (92, 92) && t[2] == (47, 47) && t[3] == (98, 8);
    assert t[4] == (102, 12) && t[5] == (110, 10) && t[6] == (114, 13) && t[7] == (116, 9);
  }

  /** What has been read so far, then the rest of the literal. */
  function Resumed(out: bytes, x: Extracted): Extracted {
    Extracted(out + x.value, x.invalid)
  }

  lemma ResumedCons(out: bytes, c: byte, x: Extracted)
    ensures Resumed(out, Cons(c, x)) == Resumed(out + [c], x)
  {
    assert out + ([c] + x.value) == (out + [c]) + x.value;
  }

  /** `extract_json_string`. */
  method ExtractJsonString(j: bytes, key: bytes) returns (out: bytes, invalid: bool)
    ensures Extracted(out, invalid) == ExtractString(j, key)
  {
    var start := ValueStart(j, key);
    if start == -1 { return [], false; }
    out, invalid := ReadLiteral(j, start);
  }

  /** The character loop of `extract_json_string`. */
  method ReadLiteral(j: bytes, start: nat) returns (out: bytes, invalid: bool)
    ensures Extracted(out, invalid) == ParseString(j, start)
  {
    out, invalid := [], false;
    var i := start;
    while i < |j|
      invariant ParseString(j, start) == Resumed(out, ParseString(j, i))
      decreases |j| - i
    {
      var c := j[i];
      if c == BACKSLASH {
        if i + 1 >= |j| { return out, true; }
        var e := j[i + 1];
        if ShortEscape(e) != -1 {
          ResumedCons(out, ShortEscape(e), ParseString(j, i + 2));
          out, i := out + [ShortEscape(e)], i + 2;
        } else if e == 117 && HexRun(j, i + 2) {
          ResumedCons(out, 63, ParseString(j, i + 6));
          out, i := out + [63], i + 6;
        } else {
          return out, true;
        }
      } else if c == QUOTE {
        return out, false;
      } else {
        if c < 0x20 { return out, true; }
        ResumedCons(out, c, ParseString(j, i + 1));
        out, i := out + [c], i + 1;
      }
    }
  }

  /** Bytes that `json_escape` writes as a unicode escape. */
  predicate Exotic(c: byte) {
    c < 0x20 && c != 9 && c != 10 && c != 13
  }

  ghost predicate Printable(s: bytes) {
    forall i :: 0 <= i < |s| ==> !Exotic(s[i])
  }

  /** What the server reads back: exotic control bytes become '?'. */
  function Sanitised(s: bytes): bytes {
    seq(|s|, i requires 0 <= i < |s| => if Exotic(s[i]) then 63 else s[i])
  }

  /** `s` stands at `i` in `j`. */
  ghost predicate At(j: bytes, i: nat, s: bytes) {
    i + |s| <= |j| && forall k :: 0 <= k < |s| ==> s[k] == j[i + k]
  }

  /** `s` stands at `i` in `j`, closed by a quote. */
  ghost predicate Literal(j: bytes, i: nat, s: bytes) {
    At(j, i, s) && i + |s| < |j| && j[i + |s|] == QUOTE
  }

  lemma LiteralTail(j: bytes, i: nat, e: bytes, rest: bytes)
    requires Literal(j, i, e + rest)
    ensures At(j, i, e) && Literal(j, i + |e|, rest)
  {
    var s := e + rest;
    assert forall k :: 0 <= k < |e| ==> e[k] == s[k];
    assert forall k :: 0 <= k < |rest| ==> rest[k] == s[|e| + k];
  }

  /** The server reads an escaped string literal back, up to exotic control bytes. */
  lemma {:induction false} ParseEscaped(j: bytes, i: nat, s: bytes)
    requires Literal(j, i, Escape(s))
    ensures ParseString(j, i) == Extracted(Sanitised(s), false)
    decreases |s|
  {
    if s != [] {
      assert Literal(j, i, EscapeByte(s[0]) + Escape(s[1..]));
      hide *;
      LiteralTail(j, i, EscapeByte(s[0]), Escape(s[1..]));
      ParseEscaped(j, i + |EscapeByte(s[0])|, s[1..]);
      ParseOne(j, i, s[0]);
      SanitisedCons(s);
    }
  }

  lemma SanitisedCons(s: bytes)
    requires s != []
    ensures Extracted(Sanitised(s), false) == Cons(if Exotic(s[0]) then 63 else s[0], Extracted(Sanitised(s[1..]), false))
  {
    assert Sanitised(s) == [if Exotic(s[0]) then 63 else s[0]] + Sanitised(s[1..]);
  }

  lemma ParseOne(j: bytes, i: nat, c: byte)
    requires At(j, i, EscapeByte(c))
    ensures ParseString(j, i) == Cons(if Exotic(c) then 63 else c, ParseString(j, i + |EscapeByte(c)|))
  {
    var e := EscapeByte(c);
    assert e[0] == j[i];
    if Exotic(c) {
      assert e[1] == j[i + 1] && e[2] == j[i + 2] && e[3] == j[i + 3] && e[4] == j[i + 4] && e[5] == j[i + 5];
    } else if |e| == 2 {
      assert e[1] == j[i + 1];
    }
  }

  // ---------------------------------------------------------------- the CLI's reader

  function CliEscape(e: byte): byte {
    if e == 110 then 10 else if e == 114 then 13 else if e == 116 then 9 else e
  }

  function CliParse(j: bytes, i: nat): bytes
    decreases |j| - i
  {
    if i >= |j| then []
    else if j[i] == BACKSLASH then
      if i + 1 >= |j| then [] else [CliEscape(j[i + 1])] + CliParse(j, i + 2)
    else if j[i] == QUOTE then []
    else [j[i]] + CliParse(j, i + 1)
  }

  function GetString(j: bytes, key: bytes): bytes {
    var i := ValueStart(j, key);
    if i == -1 then [] else CliParse(j, i)
  }

  /** `json_get_string`. */
  method JsonGetString(j: bytes, key: bytes) returns (out: bytes)
    ensures out == GetString(j, key)
  {
    hide CliParse;
    out := [];
    var start := ValueStart(j, key);
    if start == -1 { return; }
    var i := start;
    while i < |j|
      invariant start <= i
      invariant CliParse(j, start) == out + CliParse(j, i)
      decreases |j| - i
    {
      CliUnfold(j, i);
      ghost var read := out;
      var c := j[i];
      i := i + 1;
      if c == BACKSLASH {
        if i >= |j| { break; }
        var e := j[i];
        i := i + 1;
        out := out + [CliEscape(e)];
        assert read + ([CliEscape(e)] + CliParse(j, i)) == out + CliParse(j, i);
      } else if c == QUOTE {
        break;
      } else {
        out := out + [c];
        assert read + ([c] + CliParse(j, i)) == out + CliParse(j, i);
      }
    }
    CliUnfold(j, i);
  }

  /** What the CLI reads back: it drops the backslash of a unicode escape and keeps its text. */
  function CliEcho(s: bytes): bytes {
    if s == [] then [] else CliEchoByte(s[0]) + CliEcho(s[1..])
  }

  function CliEchoByte(b: byte): bytes {
    if Exotic(b) then EscapeByte(b)[1..] else [b]
  }

  lemma {:induction false} CliParseEscaped(j: bytes, i: nat, s: bytes)
    requires Literal(j, i, Escape(s))
    ensures CliParse(j, i) == CliEcho(s)
    decreases |s|
  {
    hide CliParse, EscapeByte;
    if s == [] {
      CliUnfold(j, i);
    } else {
      LiteralTail(j, i, EscapeByte(s[0]), Escape(s[1..]));
      hide Escape, Literal, At;
      CliParseEscaped(j, i + |EscapeByte(s[0])|, s[1..]);
      CliParseOne(j, i, s[0]);
    }
  }

  lemma CliParseOne(j: bytes, i: nat, c: byte)
    requires At(j, i, EscapeByte(c))
    ensures CliParse(j, i) ==
            (if Exotic(c) then EscapeByte(c)[1..] else [c]) + CliParse(j, i + |EscapeByte(c)|)
  {
    hide CliParse;
    var e := EscapeByte(c);
    assert e[0] == j[i];
    if Exotic(c) {
      CliParseUnicode(j, i, e);
    } else {
      CliUnfold(j, i);
      assert |e| == 2 ==> e[1] == j[i + 1];
    }
  }

  lemma CliParseUnicode(j: bytes, i: nat, e: bytes)
    requires |e| == 6 && e[0] == BACKSLASH && e[1] == 117 && At(j, i, e)
    requires forall k :: 2 <= k < 6 ==> e[k] != BACKSLASH && e[k] != QUOTE
    ensures CliParse(j, i) == e[1..] + CliParse(j, i + 6)
  {
    hide CliParse;
    CliUnfold(j, i);
    assert e[1] == j[i + 1];
    forall k | i + 2 <= k < i + 6 ensures j[k] != BACKSLASH && j[k] != QUOTE { assert j[k] == e[k - i]; }
    CliPlain(j, i + 2, i + 6);
    assert e[1..] == [e[1]] + j[i + 2..i + 6];
  }

  /** One round of the CLI's loop. */
  lemma CliUnfold(j: bytes, i: nat)
    ensures i >= |j| ==> CliParse(j, i) == []
    ensures i < |j| && j[i] != BACKSLASH && j[i] != QUOTE ==> CliParse(j, i) == [j[i]] + CliParse(j, i + 1)
    ensures i < |j| && j[i] == QUOTE ==> CliParse(j, i) == []
    ensures i + 1 == |j| && j[i] == BACKSLASH ==> CliParse(j, i) == []
    ensures i + 1 < |j| && j[i] == BACKSLASH ==> CliParse(j, i) == [CliEscape(j[i + 1])] + CliParse(j, i + 2)
  {
  }

  lemma {:induction false} CliPlain(j: bytes, i: nat, n: nat)
    requires i <= n <= |j| && forall k :: i <= k < n ==> j[k] != BACKSLASH && j[k] != QUOTE
    ensures CliParse(j, i) == j[i..n] + CliParse(j, n)
    decreases n - i
  {
    hide CliParse;
    if i < n {
      CliUnfold(j, i);
      CliPlain(j, i + 1, n);
      assert j[i..n] == [j[i]] + j[i + 1..n];
    }
  }

  /** Text survives the CLI's reader exactly when it has no exotic control byte. */
  lemma {:induction false} CliEchoIsIdentity(s: bytes)
    ensures CliEcho(s) == s <==> Printable(s)
    ensures |CliEcho(s)| >= |s|
  {
    if s != [] {
      CliEchoIsIdentity(s[1..]);
      assert Printable(s) <==> !Exotic(s[0]) && Printable(s[1..]) by {
        assert forall i :: 0 <= i < |s| - 1 ==> s[1..][i] == s[i + 1];
        if !Exotic(s[0]) && Printable(s[1..]) {
          forall i | 0 <= i < |s| ensures !Exotic(s[i]) { assert i == 0 || s[i] == s[1..][i - 1]; }
        }
      }
      if !Exotic(s[0]) {
        assert s == [s[0]] + s[1..];
        assert CliEcho(s)[1..] == CliEcho(s[1..]);
      }
    }
  }

  lemma SanitisedIsIdentity(s: bytes)
    ensures Sanitised(s) == s <==> Printable(s)
  {
    forall i | 0 <= i < |s| ensures Sanitised(s)[i] == s[i] <==> !Exotic(s[i]) {
    }
    if Printable(s) {
      assert Sanitised(s) == s;
    }
  }
}
