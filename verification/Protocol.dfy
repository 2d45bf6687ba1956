/**
 The wire layer of ipc/protocol.cpp: length-prefixed frames, JSON string escaping, and the
 event payloads. A frame is a little-endian `uint32` length followed by the payload.
 */
module Protocol {
  import opened Bytes
  import Utf8

  /** `kDefaultMaxFrameBytes`: 1 MiB. */
  const MAX_FRAME_BYTES := 0x10_0000

  const TWO32 := 0x1_0000_0000

  // ---------------------------------------------------------------- framing

  /** `read_u32_le`. */
  function ReadU32(b: bytes): (n: nat)
    requires |b| >= 4
    ensures n < TWO32
  {
    var b0: int, b1: int, b2: int, b3: int := b[0], b[1], b[2], b[3];
    b0 + 0x100 * b1 + 0x1_0000 * b2 + 0x100_0000 * b3
  }

  /** The header bytes of `write_frame`; the length is truncated to 32 bits by the shifts. */
  function Header(n: nat): bytes {
    [n % 0x100, n / 0x100 % 0x100, n / 0x1_0000 % 0x100, n / 0x100_0000 % 0x100]
  }

  lemma HeaderRoundTrip(n: nat, rest: bytes)
    requires n < TWO32
    ensures ReadU32(Header(n) + rest) == n
  {
    var q := n / 0x100;
    var h := q / 0x100;
    assert h == n / 0x1_0000 && h / 0x100 == n / 0x100_0000;
    assert n == n % 0x100 + 0x100 * (q % 0x100 + 0x100 * (h % 0x100 + 0x100 * (h / 0x100)));
  }

  function Frame(payload: bytes): bytes {
    Header(|payload|) + payload
  }

  function Frames(payloads: seq<bytes>): bytes {
    if payloads == [] then [] else Frame(payloads[0]) + Frames(payloads[1..])
  }

  lemma {:induction false} FramesAppend(a: seq<bytes>, b: seq<bytes>)
    ensures Frames(a + b) == Frames(a) + Frames(b)
  {
    if a == [] {
      assert a + b == b;
    } else {
      assert (a + b)[1..] == a[1..] + b;
      FramesAppend(a[1..], b);
    }
  }

  datatype FrameResult = NeedMore | InvalidLength | TooLarge | Got(payload: bytes, rest: bytes)

  /** `try_read_frame`; only `Got` consumes input. */
  function TryReadFrame(rx: bytes, maxFrame: nat): FrameResult {
    if |rx| < 4 then NeedMore
    else
      var len := ReadU32(rx);
      if len == 0 then InvalidLength
      else if len > maxFrame then TooLarge
      else if |rx| < 4 + len then NeedMore
      else Got(rx[4..4 + len], rx[4 + len..])
  }

  predicate Sendable(payload: bytes, maxFrame: nat) {
    1 <= |payload| <= maxFrame && |payload| < TWO32
  }

  lemma FrameIsRead(p: bytes, rest: bytes, maxFrame: nat)
    requires Sendable(p, maxFrame)
    ensures TryReadFrame(Frame(p) + rest, maxFrame) == Got(p, rest)
  {
    var b := Frame(p) + rest;
    assert b == Header(|p|) + (p + rest);
    HeaderRoundTrip(|p|, p + rest);
    assert b[4..4 + |p|] == p && b[4 + |p|..] == rest;
  }

  /** The header is the only encoding of its length. */
  lemma HeaderIsUnique(b: bytes)
    requires |b| >= 4
    ensures Header(ReadU32(b)) == b[..4]
  {
    var b0: int, b1: int, b2: int, b3: int := b[0], b[1], b[2], b[3];
    var n := ReadU32(b);
    assert n / 0x100 == b1 + 0x100 * b2 + 0x1_0000 * b3;
    assert n / 0x1_0000 == b2 + 0x100 * b3;
    assert n / 0x100_0000 == b3;
  }

  /** What is read was a frame, and it stood at the front. */
  lemma ReadIsFrame(b: bytes, maxFrame: nat, p: bytes, rest: bytes)
    requires TryReadFrame(b, maxFrame) == Got(p, rest)
    ensures b == Frame(p) + rest
  {
    HeaderIsUnique(b);
    assert b == b[..4] + (p + rest);
  }

  lemma PartialFrameWaits(p: bytes, b: bytes, maxFrame: nat)
    requires Sendable(p, maxFrame) && b < Frame(p)
    ensures TryReadFrame(b, maxFrame) == NeedMore
  {
    if |b| >= 4 {
      HeaderRoundTrip(|p|, b[4..]);
      assert b[..4] == Frame(p)[..4] == Header(|p|);
      assert b == Header(|p|) + b[4..];
    }
  }

  datatype Drained = Drained(payloads: seq<bytes>, rest: bytes)

  /** `try_read_frame` repeated until it reads nothing more. */
  function Drain(rx: bytes, maxFrame: nat): Drained
    decreases |rx|
  {
    match TryReadFrame(rx, maxFrame)
    case Got(p, rest) => var d := Drain(rest, maxFrame); Drained([p] + d.payloads, d.rest)
    case _ => Drained([], rx)
  }

  lemma DrainGot(rx: bytes, maxFrame: nat, p: bytes, rest: bytes)
    requires TryReadFrame(rx, maxFrame) == Got(p, rest)
    ensures |rest| < |rx|
    ensures Drain(rx, maxFrame) == Drained([p] + Drain(rest, maxFrame).payloads, Drain(rest, maxFrame).rest)
  {
  }

  lemma DrainNothing(rx: bytes, maxFrame: nat)
    requires !TryReadFrame(rx, maxFrame).Got?
    ensures Drain(rx, maxFrame) == Drained([], rx)
  {
  }

  lemma ReadAppend(b: bytes, c: bytes, maxFrame: nat, p: bytes, rest: bytes)
    requires TryReadFrame(b, maxFrame) == Got(p, rest)
    ensures TryReadFrame(b + c, maxFrame) == Got(p, rest + c)
  {
    var n := 4 + |p|;
    assert (b + c)[4..n] == p && (b + c)[n..] == rest + c;
  }

  /** Reading in two rounds is reading everything at once. */
  lemma {:induction false} DrainAppend(b: bytes, c: bytes, maxFrame: nat)
    ensures Drain(b + c, maxFrame) == Then(Drain(b, maxFrame), c, maxFrame)
    decreases |b|
  {
    hide TryReadFrame, Drain;
    var r := TryReadFrame(b, maxFrame);
    if r.Got? {
      DrainGot(b, maxFrame, r.payload, r.rest);
      ReadAppend(b, c, maxFrame, r.payload, r.rest);
      DrainGot(b + c, maxFrame, r.payload, r.rest + c);
      DrainAppend(r.rest, c, maxFrame);
    } else {
      DrainNothing(b, maxFrame);
    }
  }

  /** Go on reading after `c` has arrived behind what an earlier round left. */
  function Then(d: Drained, c: bytes, maxFrame: nat): Drained {
    var e := Drain(d.rest + c, maxFrame);
    Drained(d.payloads + e.payloads, e.rest)
  }

  lemma {:induction false} DrainIsStable(b: bytes, maxFrame: nat)
    ensures var r := Drain(b, maxFrame).rest; Drain(r, maxFrame) == Drained([], r)
    decreases |b|
  {
    var r := TryReadFrame(b, maxFrame);
    if r.Got? {
      DrainGot(b, maxFrame, r.payload, r.rest);
      DrainIsStable(r.rest, maxFrame);
    }
  }

  ghost predicate AllSendable(ps: seq<bytes>, maxFrame: nat) {
    forall i :: 0 <= i < |ps| ==> Sendable(ps[i], maxFrame)
  }

  /** `k` payloads of `ps` have been read from `b`, and exactly the unread remainder is buffered. */
  ghost predicate ReadUpTo(ps: seq<bytes>, b: bytes, d: Drained, k: nat) {
    && k <= |ps| && d.payloads == ps[..k] && Frames(ps[..k]) + d.rest == b
    && (b == Frames(ps) ==> k == |ps|)
    && (k < |ps| ==> d.rest < Frame(ps[k]))
  }

  /** Whatever prefix of the frames has arrived, a prefix of the payloads has been read. */
  lemma {:induction false} PrefixIsRead(ps: seq<bytes>, b: bytes, maxFrame: nat) returns (k: nat)
    requires AllSendable(ps, maxFrame) && b <= Frames(ps)
    ensures ReadUpTo(ps, b, Drain(b, maxFrame), k)
    decreases |ps|
  {
    if ps == [] {
      k := 0;
    } else {
      var f := Frame(ps[0]);
      if |b| < |f| {
        assert b < f;
        PartialFrameWaits(ps[0], b, maxFrame);
        k := 0;
      } else {
        var rest := b[|f|..];
        assert b == f + rest;
        FrameIsRead(ps[0], rest, maxFrame);
        DrainGot(b, maxFrame, ps[0], rest);
        var n := PrefixIsRead(ps[1..], rest, maxFrame);
        k := n + 1;
        ReadOneMore(ps, b, rest, Drain(rest, maxFrame), n);
      }
    }
  }

  lemma ReadOneMore(ps: seq<bytes>, b: bytes, rest: bytes, d: Drained, n: nat)
    requires ps != [] && b == Frame(ps[0]) + rest && ReadUpTo(ps[1..], rest, d, n)
    ensures ReadUpTo(ps, b, Drained([ps[0]] + d.payloads, d.rest), n + 1)
  {
    var k := n + 1;
    assert ps[..k] == [ps[0]] + ps[1..][..n];
    assert ps[..k][1..] == ps[1..][..n];
    assert Frames(ps[..k]) + d.rest == Frame(ps[0]) + (Frames(ps[1..][..n]) + d.rest);
    assert b[|Frame(ps[0])|..] == rest && Frames(ps)[|Frame(ps[0])|..] == Frames(ps[1..]);
  }

  /** A reader that appends each arriving chunk to its buffer and then reads what it can. */
  function Receive(rx: bytes, chunks: seq<bytes>, maxFrame: nat): Drained
    decreases |chunks|
  {
    if chunks == [] then Drained([], rx)
    else
      var d := Drain(rx + chunks[0], maxFrame);
      var e := Receive(d.rest, chunks[1..], maxFrame);
      Drained(d.payloads + e.payloads, e.rest)
  }

  lemma {:induction false} ReceiveIsDrain(rx: bytes, chunks: seq<bytes>, maxFrame: nat)
    requires Drain(rx, maxFrame) == Drained([], rx)
    ensures Receive(rx, chunks, maxFrame) == Drain(rx + Concat(chunks), maxFrame)
    decreases |chunks|
  {
    if chunks == [] {
      assert rx + Concat(chunks) == rx;
    } else {
      var here := rx + chunks[0];
      var later := Concat(chunks[1..]);
      DrainIsStable(here, maxFrame);
      ReceiveIsDrain(Drain(here, maxFrame).rest, chunks[1..], maxFrame);
      DrainAppend(here, later, maxFrame);
      assert rx + Concat(chunks) == here + later;
    }
  }

  /** Framing survives any chunking: exactly the payloads come out, in order, and nothing is left. */
  lemma FramingSurvivesChunking(ps: seq<bytes>, chunks: seq<bytes>, maxFrame: nat)
    requires AllSendable(ps, maxFrame) && Concat(chunks) == Frames(ps)
    ensures Receive([], chunks, maxFrame) == Drained(ps, [])
  {
    ReceiveIsDrain([], chunks, maxFrame);
    assert [] + Concat(chunks) == Frames(ps);
    var k := PrefixIsRead(ps, Frames(ps), maxFrame);
    assert ps[..k] == ps;
  }

  // ---------------------------------------------------------------- escaping

  const QUOTE: byte := 34
  const BACKSLASH: byte := 92

  function HexDigit(d: int): byte
    requires 0 <= d < 16
  {
    if d < 10 then 48 + d else 87 + d
  }

  /** Escape of one byte: section 7 of RFC 8259, with the short forms for \" \\ \n \r \t. */
  function EscapeByte(c: byte): bytes {
    if c == QUOTE then [BACKSLASH, QUOTE]
    else if c == BACKSLASH then [BACKSLASH, BACKSLASH]
    else if c == 10 then [BACKSLASH, 110]
    else if c == 13 then [BACKSLASH, 114]
    else if c == 9 then [BACKSLASH, 116]
    else if c < 0x20 then [BACKSLASH, 117, 48, 48, HexDigit(c / 16), HexDigit(c % 16)]
    else [c]
  }

  function Escape(s: bytes): bytes {
    if s == [] then [] else EscapeByte(s[0]) + Escape(s[1..])
  }

  lemma {:induction false} EscapeAppend(a: bytes, b: bytes)
    ensures Escape(a + b) == Escape(a) + Escape(b)
  {
    if a == [] {
      assert a + b == b;
    } else {
      assert (a + b)[1..] == a[1..] + b;
      EscapeAppend(a[1..], b);
    }
  }

  lemma EscapeSnoc(s: bytes, c: byte)
    ensures Escape(s + [c]) == Escape(s) + EscapeByte(c)
  {
    EscapeAppend(s, [c]);
    assert Escape([c]) == EscapeByte(c) + Escape([]);
  }

  /** `json_escape`. */
  method JsonEscape(s: bytes) returns (out: bytes)
    ensures out == Escape(s)
  {
    out := [];
    for i := 0 to |s|
      invariant out == Escape(s[..i])
    {
      var c := s[i];
      EscapeSnoc(s[..i], c);
      assert s[..i + 1] == s[..i] + [c];
      out := out + EscapeByte(c);
    }
    assert s[..|s|] == s;
  }

  /** Every quote inside an escaped string is preceded by a backslash of that string. */
  lemma {:induction false} EscapeGuardsQuotes(s: bytes, q: nat)
    requires q < |Escape(s)| && Escape(s)[q] == QUOTE
    ensures q > 0 && Escape(s)[q - 1] == BACKSLASH
  {
    var n := |EscapeByte(s[0])|;
    if q >= n {
      EscapeGuardsQuotes(s[1..], q - n);
    }
  }

  /** ASCII output of `EscapeByte` leaves the UTF-8 automaton where it was, or rejects as `c` does. */
  lemma {:induction false} RunAscii(a: bytes, rest: bytes)
    requires forall i :: 0 <= i < |a| ==> a[i] <= 0x7F
    ensures Utf8.Run(Utf8.START, a + rest) == Utf8.Run(Utf8.START, rest)
    decreases |a|
  {
    if a == [] {
      assert a + rest == rest;
    } else {
      assert a + rest == [a[0]] + (a[1..] + rest);
      Utf8.RunCons(Utf8.START, a[0], a[1..] + rest);
      RunAscii(a[1..], rest);
    }
  }

  /** Idle states of the automaton are the start state; that is what every run visits. */
  ghost predicate Reachable(a: Utf8.Automaton) {
    a.Automaton? && a.remaining == 0 ==> a == Utf8.START
  }

  /** Inside a multi-byte sequence an ASCII byte is fatal. */
  lemma AsciiRejects(a: Utf8.Automaton, e: bytes, rest: bytes)
    requires Reachable(a) && a != Utf8.START && e != [] && e[0] < 0x80
    ensures Utf8.Run(a, e + rest) == Utf8.Rejected
  {
    assert Utf8.Step(a, e[0]) == Utf8.Rejected;
    hide Utf8.Run, Utf8.Step;
    assert e + rest == [e[0]] + (e[1..] + rest);
    Utf8.RunCons(a, e[0], e[1..] + rest);
    Utf8.RunRejected(e[1..] + rest);
  }

  lemma {:induction false} EscapeKeepsRun(a: Utf8.Automaton, s: bytes)
    requires Reachable(a)
    ensures Utf8.Run(a, Escape(s)) == Utf8.Run(a, s)
    decreases |s|
  {
    if s != [] {
      var c := s[0];
      var e := EscapeByte(c);
      var rest := Escape(s[1..]);
      var b := Utf8.Step(a, c);
      EscapeKeepsRun(b, s[1..]);
      if c >= 0x80 {
        Utf8.RunCons(a, c, rest);
      } else if a == Utf8.START {
        RunAscii(e, rest);
      } else {
        assert b == Utf8.Rejected;
        AsciiRejects(a, e, rest);
        Utf8.RunRejected(s[1..]);
      }
    }
  }

  /** Escaping neither repairs nor breaks UTF-8. */
  lemma EscapeKeepsUtf8(s: bytes)
    ensures Utf8.WellFormed(Escape(s)) <==> Utf8.WellFormed(s)
  {
    EscapeKeepsRun(Utf8.START, s);
    Utf8.AcceptsExactlyWellFormed(s);
    Utf8.AcceptsExactlyWellFormed(Escape(s));
  }

  // ---------------------------------------------------------------- events

  datatype Event =
    | Token(id: bytes, text: bytes, tokenId: int)
    | Eos(id: bytes, reason: bytes)
    | Error(id: bytes, code: bytes, message: bytes)
    | Snapshot(json: bytes)

  // {"id":"
  const OPEN_ID: bytes := [123, 34, 105, 100, 34, 58, 34]
  // ","event":"token","text":"
  const TOKEN_TEXT: bytes := [34, 44, 34, 101, 118, 101, 110, 116, 34, 58, 34, 116, 111, 107, 101, 110, 34, 44,
                              34, 116, 101, 120, 116, 34, 58, 34]
  // ","token_id":
  const TOKEN_ID: bytes := [34, 44, 34, 116, 111, 107, 101, 110, 95, 105, 100, 34, 58]
  // ","event":"eos","reason":"
  const EOS_REASON: bytes := [34, 44, 34, 101, 118, 101, 110, 116, 34, 58, 34, 101, 111, 115, 34, 44,
                              34, 114, 101, 97, 115, 111, 110, 34, 58, 34]
  // ","event":"error","code":"
  const ERROR_CODE: bytes := [34, 44, 34, 101, 118, 101, 110, 116, 34, 58, 34, 101, 114, 114, 111, 114, 34, 44,
                              34, 99, 111, 100, 101, 34, 58, 34]
  // ","message":"
  const ERROR_MESSAGE: bytes := [34, 44, 34, 109, 101, 115, 115, 97, 103, 101, 34, 58, 34]
  // "}
  const CLOSE: bytes := [34, 125]
  // {"event":"metrics","metrics":
  const OPEN_METRICS: bytes := [123, 34, 101, 118, 101, 110, 116, 34, 58, 34, 109, 101, 116, 114, 105, 99, 115, 34,
                                44, 34, 109, 101, 116, 114, 105, 99, 115, 34, 58]

  // reasons, codes and messages
  const STOP := Text("stop")
  const LENGTH := Text("length")
  const E_RUNTIME_DECODE := Text("E_RUNTIME_DECODE")
  const DECODE_FAILED := Text("decode failed")
  const E_PROTO_INVALID_LEN := Text("E_PROTO_INVALID_LEN")
  const INVALID_LENGTH := Text("invalid frame length 0")
  const E_PROTO_FRAME_TOO_LARGE := Text("E_PROTO_FRAME_TOO_LARGE")
  const FRAME_TOO_LARGE := Text("frame too large")
  const E_PROTO_001 := Text("E_PROTO_001")
  const INVALID_UTF8 := Text("invalid utf-8")
  const E_PROTO_BAD_REQUEST := Text("E_PROTO_BAD_REQUEST")
  const MISSING_PROMPT := Text("missing or invalid prompt")
  const E_LIMIT_001 := Text("E_LIMIT_001")
  const PROMPT_TOO_LARGE := Text("prompt too large")

  /** Decimal digits, as `std::to_string` prints them. */
  function Decimal(n: int): bytes
    decreases if n < 0 then 1 - n else n
  {
    if n < 0 then [45] + Decimal(-n)
    else if n < 10 then [48 + n]
    else Decimal(n / 10) + [48 + n % 10]
  }

  /** The number that decimal digits, perhaps behind a minus sign, stand for. */
  function NumberOf(b: bytes): int {
    if b == [] then 0
    else if b[0] == 45 then -NumberOf(b[1..])
    else 10 * NumberOf(b[..|b| - 1]) + b[|b| - 1] - 48
  }

  lemma {:induction false} DecimalIsRead(n: int)
    ensures NumberOf(Decimal(n)) == n && Decimal(n) != [] && (n >= 0 ==> Decimal(n)[0] != 45)
    decreases if n < 0 then 1 - n else n
  {
    if n < 0 {
      DecimalIsRead(-n);
      assert ([45] + Decimal(-n))[1..] == Decimal(-n);
    } else if n >= 10 {
      DecimalIsRead(n / 10);
      var d := Decimal(n / 10) + [48 + n % 10];
      assert d[..|d| - 1] == Decimal(n / 10);
    } else {
      assert [48 + n][..0] == [];
    }
  }

  function Payload(e: Event): bytes {
    match e
    case Token(id, text, tokenId) =>
      OPEN_ID + Escape(id) + (TOKEN_TEXT + Escape(text) + (TOKEN_ID + (Decimal(tokenId) + [125])))
    case Eos(id, reason) =>
      OPEN_ID + Escape(id) + EOS_REASON + Escape(reason) + CLOSE
    case Error(id, code, message) =>
      OPEN_ID + Escape(id) + ERROR_CODE + Escape(code) + ERROR_MESSAGE + Escape(message) + CLOSE
    case Snapshot(json) =>
      OPEN_METRICS + json + [125]
  }

  /** The bytes that queueing a list of events appends to `tx`. */
  function Wire(es: seq<Event>): bytes {
    if es == [] then [] else Wire(es[..|es| - 1]) + Frame(Payload(es[|es| - 1]))
  }

  lemma {:induction false} WireAppend(a: seq<Event>, b: seq<Event>)
    ensures Wire(a + b) == Wire(a) + Wire(b)
  {
    hide Payload, Frame;
    if b == [] {
      assert a + b == a;
    } else {
      var n := |b| - 1;
      assert (a + b)[..|a + b| - 1] == a + b[..n];
      WireAppend(a, b[..n]);
    }
  }

  function Payloads(es: seq<Event>): seq<bytes> {
    if es == [] then [] else Payloads(es[..|es| - 1]) + [Payload(es[|es| - 1])]
  }

  lemma {:induction false} WireIsFrames(es: seq<Event>)
    ensures Wire(es) == Frames(Payloads(es)) && |Payloads(es)| == |es|
  {
    if es != [] {
      var n := |es| - 1;
      WireIsFrames(es[..n]);
      var last := [Payload(es[n])];
      FramesAppend(Payloads(es[..n]), last);
      assert last[1..] == [];
      assert Frames(last) == Frame(last[0]) + Frames([]);
    }
  }

  lemma {:induction false} PayloadsPrefix(es: seq<Event>, k: nat)
    requires k <= |es|
    ensures |Payloads(es)| == |es| && Payloads(es)[..k] == Payloads(es[..k])
  {
    WireIsFrames(es);
    if k == |es| {
      assert es[..k] == es && Payloads(es)[..k] == Payloads(es);
    } else {
      var n := |es| - 1;
      PayloadsPrefix(es[..n], k);
      assert es[..n][..k] == es[..k];
    }
  }

  /**
   A client that has received any prefix of the wire bytes has read, in order, the payloads of
   a prefix of the events, and the whole list once all bytes have arrived.
   */
  lemma ClientReadsEvents(es: seq<Event>, delivered: bytes, maxFrame: nat) returns (k: nat)
    requires delivered <= Wire(es) && AllSendable(Payloads(es), maxFrame)
    ensures k <= |es| && Drain(delivered, maxFrame).payloads == Payloads(es[..k])
    ensures delivered == Wire(es) ==> k == |es|
  {
    WireIsFrames(es);
    k := PrefixIsRead(Payloads(es), delivered, maxFrame);
    PayloadsPrefix(es, k);
  }
}
