/**
 The validator of util/utf8.h: one pass over the bytes with three variables
 (`remaining`, `lead`, `pos`), proved to accept exactly the encodings of sequences of
 Unicode scalar values as sections 3 and 4 of RFC 3629 define them.
 */
module Utf8 {
  import opened Bytes

  /** Unicode scalar values: code points up to U+10FFFF without the surrogates. */
  type scalar = v: int | 0 <= v <= 0x10FFFF && !(0xD800 <= v <= 0xDFFF)

  /** The encoding table in section 3 of RFC 3629. */
  function Encode(v: scalar): bytes {
    if v < 0x80 then [v]
    else if v < 0x800 then [0xC0 + v / 64, 0x80 + v % 64]
    else if v < 0x10000 then [0xE0 + v / 4096, 0x80 + v / 64 % 64, 0x80 + v % 64]
    else [0xF0 + v / 262144, 0x80 + v / 4096 % 64, 0x80 + v / 64 % 64, 0x80 + v % 64]
  }

  function EncodeAll(vs: seq<scalar>): bytes {
    if vs == [] then [] else Encode(vs[0]) + EncodeAll(vs[1..])
  }

  /** `s` is the encoding of some sequence of scalar values. */
  ghost predicate WellFormed(s: bytes) {
    exists vs: seq<scalar> :: EncodeAll(vs) == s
  }

  datatype Automaton = Automaton(remaining: nat, lead: byte, pos: nat) | Rejected

  const START := Automaton(0, 0, 0)

  /** The constraints on the first continuation byte after some leads. */
  predicate SecondByteOk(lead: byte, c: byte) {
    && !(lead == 0xE0 && c < 0xA0)
    && !(lead == 0xED && c > 0x9F)
    && !(lead == 0xF0 && c < 0x90)
    && !(lead == 0xF4 && c > 0x8F)
  }

  function Step(a: Automaton, c: byte): Automaton {
    if a.Rejected? then Rejected
    else if a.remaining == 0 then
      if c <= 0x7F then a
      else if 0xC2 <= c <= 0xDF then Automaton(1, c, 0)
      else if 0xE0 <= c <= 0xEF then Automaton(2, c, 0)
      else if 0xF0 <= c <= 0xF4 then Automaton(3, c, 0)
      else Rejected
    else if !(0x80 <= c <= 0xBF) then Rejected
    else if a.pos == 0 && !SecondByteOk(a.lead, c) then Rejected
    else if a.remaining == 1 then START
    else Automaton(a.remaining - 1, a.lead, a.pos + 1)
  }

  function Run(a: Automaton, s: bytes): Automaton
    decreases |s|
  {
    if s == [] then a else Run(Step(a, s[0]), s[1..])
  }

  predicate Accepts(s: bytes) {
    Run(START, s) == START
  }

  lemma RunCons(a: Automaton, c: byte, rest: bytes)
    ensures Run(a, [c] + rest) == Run(Step(a, c), rest)
  {
    assert ([c] + rest)[1..] == rest;
  }

  lemma {:induction false} RunRejected(s: bytes)
    ensures Run(Rejected, s) == Rejected
  {
    if s != [] { RunRejected(s[1..]); }
  }

  /** The syntax of one UTF-8 character, section 4 of RFC 3629. */
  predicate LegalUnit(e: bytes) {
    && 1 <= |e| <= 4
    && (|e| == 1 ==> e[0] <= 0x7F)
    && (|e| == 2 ==> 0xC2 <= e[0] <= 0xDF)
    && (|e| == 3 ==> 0xE0 <= e[0] <= 0xEF)
    && (|e| == 4 ==> 0xF0 <= e[0] <= 0xF4)
    && (|e| > 1 ==> SecondByteOk(e[0], e[1]))
    && forall i :: 1 <= i < |e| ==> 0x80 <= e[i] <= 0xBF
  }

  /** The encoder of section 3 stays inside the syntax of section 4. */
  lemma EncodeIsLegal(v: scalar)
    ensures LegalUnit(Encode(v))
  {
  }

  lemma {:induction false} RunContinuation(a: Automaton, e: bytes, rest: bytes)
    requires a.Automaton? && a.remaining == |e| > 0
    requires forall i :: 0 <= i < |e| ==> 0x80 <= e[i] <= 0xBF
    requires a.pos == 0 ==> SecondByteOk(a.lead, e[0])
    ensures Run(a, e + rest) == Run(START, rest)
    decreases |e|
  {
    assert e + rest == [e[0]] + (e[1..] + rest);
    RunCons(a, e[0], e[1..] + rest);
    if |e| == 1 {
      assert e[1..] + rest == rest;
    } else {
      RunContinuation(Step(a, e[0]), e[1..], rest);
    }
  }

  /** The automaton returns to its start state after each character. */
  lemma RunLegal(e: bytes, rest: bytes)
    requires LegalUnit(e)
    ensures Run(START, e + rest) == Run(START, rest)
  {
    assert e + rest == [e[0]] + (e[1..] + rest);
    RunCons(START, e[0], e[1..] + rest);
    if |e| == 1 {
      assert e[1..] + rest == rest;
    } else {
      RunContinuation(Step(START, e[0]), e[1..], rest);
    }
  }

  lemma {:induction false} EncodingsAreAccepted(vs: seq<scalar>)
    ensures Accepts(EncodeAll(vs))
  {
    if vs != [] {
      EncodeIsLegal(vs[0]);
      RunLegal(Encode(vs[0]), EncodeAll(vs[1..]));
      EncodingsAreAccepted(vs[1..]);
    }
  }

  /** An automaton that still expects bytes accepts only after a legal continuation byte. */
  lemma AcceptedContinuation(a: Automaton, s: bytes)
    requires a.Automaton? && a.remaining > 0 && Run(a, s) == START
    ensures s != [] && 0x80 <= s[0] <= 0xBF
    ensures a.pos == 0 ==> SecondByteOk(a.lead, s[0])
    ensures Run(Step(a, s[0]), s[1..]) == START
  {
    RunRejected(s[1..]);
  }

  lemma Encode2(c: int, c1: int) returns (v: scalar)
    requires 0xC2 <= c <= 0xDF && 0x80 <= c1 <= 0xBF
    ensures Encode(v) == [c, c1]
  {
    v := (c - 0xC0) * 64 + (c1 - 0x80);
  }

  lemma Encode3(c: int, c1: int, c2: int) returns (v: scalar)
    requires 0xE0 <= c <= 0xEF && 0x80 <= c1 <= 0xBF && 0x80 <= c2 <= 0xBF && SecondByteOk(c, c1)
    ensures Encode(v) == [c, c1, c2]
  {
    var hi := (c - 0xE0) * 64 + (c1 - 0x80);
    var u := hi * 64 + (c2 - 0x80);
    assert 0x800 <= u < 0x10000 && u / 64 == hi && u / 4096 == c - 0xE0;
    v := u;
  }

  lemma Encode4(c: int, c1: int, c2: int, c3: int) returns (v: scalar)
    requires 0xF0 <= c <= 0xF4 && 0x80 <= c1 <= 0xBF && 0x80 <= c2 <= 0xBF && 0x80 <= c3 <= 0xBF
    requires SecondByteOk(c, c1)
    ensures Encode(v) == [c, c1, c2, c3]
  {
    var hi := (c - 0xF0) * 64 + (c1 - 0x80);
    var u := hi * 4096 + (c2 - 0x80) * 64 + (c3 - 0x80);
    assert 0x10000 <= u <= 0x10FFFF;
    assert u / 4096 == hi && u / 64 == hi * 64 + (c2 - 0x80);
    assert hi % 64 == c1 - 0x80 && u / 262144 == c - 0xF0;
    v := u;
  }

  /** A non-empty accepted string begins with the encoding of a scalar value. */
  lemma AcceptedPrefix(s: bytes) returns (v: scalar)
    requires Accepts(s) && s != []
    ensures |Encode(v)| <= |s| && Encode(v) == s[..|Encode(v)|]
    ensures Accepts(s[|Encode(v)|..])
  {
    var c := s[0];
    RunRejected(s[1..]);
    if c <= 0x7F {
      v := c;
    } else if c <= 0xDF {
      AcceptedContinuation(Automaton(1, c, 0), s[1..]);
      assert s[1..][1..] == s[2..];
      v := Encode2(c, s[1]);
    } else if c <= 0xEF {
      AcceptedContinuation(Automaton(2, c, 0), s[1..]);
      AcceptedContinuation(Automaton(1, c, 1), s[1..][1..]);
      assert s[1..][1..] == s[2..] && s[2..][1..] == s[3..];
      v := Encode3(c, s[1], s[2]);
    } else {
      AcceptedContinuation(Automaton(3, c, 0), s[1..]);
      AcceptedContinuation(Automaton(2, c, 1), s[1..][1..]);
      AcceptedContinuation(Automaton(1, c, 2), s[1..][1..][1..]);
      assert s[1..][1..] == s[2..] && s[2..][1..] == s[3..] && s[3..][1..] == s[4..];
      v := Encode4(c, s[1], s[2], s[3]);
    }
  }

  lemma {:induction false} AcceptedIsEncoding(s: bytes) returns (vs: seq<scalar>)
    requires Accepts(s)
    ensures EncodeAll(vs) == s
  {
    if s == [] {
      vs := [];
    } else {
      var v := AcceptedPrefix(s);
      var n := |Encode(v)|;
      var rest := AcceptedIsEncoding(s[n..]);
      vs := [v] + rest;
      assert vs[1..] == rest && s == s[..n] + s[n..];
    }
  }

  /** The automaton accepts a byte string exactly when it is well-formed UTF-8. */
  lemma AcceptsExactlyWellFormed(s: bytes)
    ensures Accepts(s) <==> WellFormed(s)
  {
    if Accepts(s) {
      var vs := AcceptedIsEncoding(s);
    }
    if WellFormed(s) {
      var vs: seq<scalar> :| EncodeAll(vs) == s;
      EncodingsAreAccepted(vs);
    }
  }

  /** `is_valid_utf8`. */
  method IsValidUtf8(s: bytes) returns (ok: bool)
    ensures ok <==> WellFormed(s)
  {
    AcceptsExactlyWellFormed(s);
    var remaining, lead, pos := 0, 0, 0;
    var i := 0;
    while i < |s|
      invariant 0 <= i <= |s| && 0 <= remaining && 0 <= pos && 0 <= lead < 256
      invariant remaining == 0 ==> lead == 0 && pos == 0
      invariant Run(START, s) == Run(Automaton(remaining, lead, pos), s[i..])
    {
      var c := s[i];
      assert s[i..][1..] == s[i + 1..];
      RunRejected(s[i + 1..]);
      i := i + 1;
      if remaining == 0 {
        if c <= 0x7F {
          continue;
        } else if 0xC2 <= c <= 0xDF {
          remaining, lead, pos := 1, c, 0;
        } else if 0xE0 <= c <= 0xEF {
          remaining, lead, pos := 2, c, 0;
        } else if 0xF0 <= c <= 0xF4 {
          remaining, lead, pos := 3, c, 0;
        } else {
          return false;
        }
      } else {
        if !(0x80 <= c <= 0xBF) { // (c & 0xC0) != 0x80
          return false;
        }
        pos := pos + 1;
        if pos == 1 && !SecondByteOk(lead, c) {
          return false;
        }
        remaining := remaining - 1;
        if remaining == 0 {
          lead, pos := 0, 0;
        }
      }
    }
    return remaining == 0;
  }
}
