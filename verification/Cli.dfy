/** The receiving half of the CLI: what it makes of each event, and what it has printed in the end. */
module Cli {
  import opened Bytes
  import opened Protocol
  import opened Json
  import opened RoundTrip

  const EOS: bytes := [101, 111, 115]
  const ERROR: bytes := [101, 114, 114, 111, 114]
  const MESSAGE: bytes := [109, 101, 115, 115, 97, 103, 101]
  const METRICS_EVENT: bytes := [109, 101, 116, 114, 105, 99, 115]

  // ---------------------------------------------------------------- the loop

  datatype Exit = Going | Left(code: nat)

  /** Standard output, standard error, and whether the CLI has exited. */
  datatype Screen = Screen(out: bytes, err: bytes, exit: Exit)

  const BLANK := Screen([], [], Going)

  function Show(x: Screen, js: bytes): Screen {
    var event := GetString(js, EVENT);
    if event == TOKEN then x.(out := x.out + GetString(js, TEXT))
    else if event == EOS then x.(out := x.out + [10], exit := Left(0))
    else if event == ERROR then
      var msg := GetString(js, MESSAGE);
      x.(err := x.err + (if msg == [] then js else msg) + [10], exit := Left(2))
    else if event == METRICS_EVENT then x.(out := x.out + js + [10], exit := Left(0))
    else x.(out := x.out + js + [10])
  }

  /** The screen after a list of payloads; nothing is read after the exit. */
  function ShowAll(ps: seq<bytes>): Screen {
    if ps == [] then BLANK
    else
      var x := ShowAll(ps[..|ps| - 1]);
      if x.exit.Left? then x else Show(x, ps[|ps| - 1])
  }

  lemma {:induction false} ExitIsFinal(ps: seq<bytes>, k: nat)
    requires k <= |ps| && ShowAll(ps[..k]).exit.Left?
    ensures ShowAll(ps) == ShowAll(ps[..k])
  {
    if k == |ps| {
      assert ps[..k] == ps;
    } else {
      assert ps[..|ps| - 1][..k] == ps[..k];
      ExitIsFinal(ps[..|ps| - 1], k);
    }
  }

  /** The receive loop of the CLI, on the payloads it reads. */
  method PrintEvents(ps: seq<bytes>) returns (x: Screen)
    ensures x == ShowAll(ps)
  {
    hide GetString;
    x := BLANK;
    var i := 0;
    while i < |ps| && x.exit.Going?
      invariant 0 <= i <= |ps| && x == ShowAll(ps[..i])
    {
      var js := ps[i];
      assert ps[..i + 1][..i] == ps[..i];
      var event := JsonGetString(js, EVENT);
      if event == TOKEN {
        var text := JsonGetString(js, TEXT);
        if text != [] {
          x := x.(out := x.out + text);
        }
      } else if event == EOS {
        x := x.(out := x.out + [10], exit := Left(0));
      } else if event == ERROR {
        var msg := JsonGetString(js, MESSAGE);
        if msg == [] { msg := js; }
        x := x.(err := x.err + msg + [10], exit := Left(2));
      } else if event == METRICS_EVENT {
        x := x.(out := x.out + js + [10], exit := Left(0));
      } else {
        x := x.(out := x.out + js + [10]);
      }
      i := i + 1;
    }
    if x.exit.Left? { ExitIsFinal(ps, i); } else { assert ps[..i] == ps; }
  }

  // ---------------------------------------------------------------- end of stream

  ghost predicate PlainText(s: bytes) {
    forall i :: 0 <= i < |s| ==> s[i] >= 0x20 && s[i] != QUOTE && s[i] != BACKSLASH
  }

  /** A plain word up to its closing quote. */
  lemma WordAt(j: bytes, i: nat, word: bytes)
    requires Literal(j, i, word) && PlainText(word)
    ensures CliParse(j, i) == word
  {
    hide CliParse;
    var n := i + |word|;
    forall k | i <= k < n ensures j[k] != BACKSLASH && j[k] != QUOTE {
      assert word[k - i] == j[i + (k - i)];
    }
    CliPlain(j, i, n);
    CliUnfold(j, n);
    assert j[i..n] == word;
  }

  /** The word behind the event key. */
  lemma EventWord(j: bytes, id: bytes, head: bytes, word: bytes)
    requires Opens(j, id, head) && EVENT_KEY + word + [QUOTE] <= head && PlainText(word)
    ensures GetString(j, EVENT) == word
  {
    hide Escape, ValueStart, CliParse;
    var n := |Escape(id)|;
    StartsWithKey(j, 7 + n, head);
    EventStart(j, id);
    assert |EVENT_KEY| == 11;
    forall k | 0 <= k < |word| ensures word[k] == j[18 + n + k] {
      assert (EVENT_KEY + word + [QUOTE])[11 + k] == word[k] == head[11 + k];
    }
    assert (EVENT_KEY + word + [QUOTE])[11 + |word|] == QUOTE == head[11 + |word|];
    WordAt(j, 18 + n, word);
  }

  lemma EosWord()
    ensures EVENT_KEY + EOS + [QUOTE] <= EOS_REASON && EVENT_KEY + ERROR + [QUOTE] <= ERROR_CODE
  {
  }

  lemma EosEventAtCli(id: bytes, reason: bytes)
    ensures GetString(Payload(Eos(id, reason)), EVENT) == EOS
  {
    hide Escape, GetString, At;
    var e, r := Escape(id), Escape(reason);
    NestedLayout(OPEN_ID, e, EOS_REASON, r, CLOSE);
    assert OPEN_ID + e + EOS_REASON + r + CLOSE == OPEN_ID + e + (EOS_REASON + r + CLOSE);
    EosWord();
    assert |OPEN_ID| == 7;
    EventWord(Payload(Eos(id, reason)), id, EOS_REASON, EOS);
  }

  // ---------------------------------------------------------------- errors

  lemma ErrorCodeBytes(j: bytes, i: nat)
    requires At(j, i, ERROR_CODE)
    ensures |j| >= i + 26 && j[i] == 34 && j[i + 1] == 44 && j[i + 2] == 34 && j[i + 7] == 116 && j[i + 8] == 34
    ensures j[i + 9] == 58 && j[i + 10] == 34 && j[i + 15] == 114 && j[i + 16] == 34 && j[i + 17] == 44 && j[i + 18] == 34
    ensures j[i + 21] == 100 && j[i + 22] == 101 && j[i + 23] == 34 && j[i + 24] == 58 && j[i + 25] == 34
    ensures forall q :: i + 3 <= q < i + 8 || i + 11 <= q < i + 16 || i + 19 <= q < i + 23 ==> j[q] != QUOTE
  {
    var t := ERROR_CODE;
    assert t[0] == 34 && t[1] == 44 && t[2] == 34 && t[3] == 101 && t[4] == 118 && t[5] == 101 && t[6] == 110;
    assert t[7] == 116 && t[8] == 34 && t[9] == 58 && t[10] == 34 && t[11] == 101 && t[12] == 114 && t[13] == 114;
    assert t[14] == 111 && t[15] == 114 && t[16] == 34 && t[17] == 44 && t[18] == 34 && t[19] == 99 && t[20] == 111;
    assert t[21] == 100 && t[22] == 101 && t[23] == 34 && t[24] == 58 && t[25] == 34;
  }

  lemma ErrorMessageBytes(j: bytes, i: nat)
    requires At(j, i, ERROR_MESSAGE)
    ensures |j| >= i + 13 && j[i] == 34 && j[i + 1] == 44 && j[i + 2] == 34
    ensures j[i + 3] == 109 && j[i + 4] == 101 && j[i + 5] == 115 && j[i + 6] == 115 && j[i + 7] == 97 && j[i + 8] == 103
    ensures j[i + 9] == 101 && j[i + 10] == 34 && j[i + 11] == 58 && j[i + 12] == 34
  {
    var t := ERROR_MESSAGE;
    assert t[0] == 34 && t[1] == 44 && t[2] == 34 && t[3] == 109 && t[4] == 101 && t[5] == 115 && t[6] == 115;
    assert t[7] == 97 && t[8] == 103 && t[9] == 101 && t[10] == 34 && t[11] == 58 && t[12] == 34;
  }

  /** An error event with a code of length `k` behind an escaped id of length `n`. */
  ghost predicate ErrorLayout(j: bytes, n: nat, code: bytes) {
    At(j, 0, OPEN_ID) && At(j, 7 + n, ERROR_CODE) && At(j, 33 + n, code) && At(j, 33 + n + |code|, ERROR_MESSAGE)
  }

  lemma PlainAt(j: bytes, i: nat, s: bytes)
    requires At(j, i, s) && PlainText(s)
    ensures forall q :: i <= q < i + |s| ==> j[q] != QUOTE
  {
    forall q | i <= q < i + |s| ensures j[q] != QUOTE {
      assert s[q - i] == j[i + (q - i)];
    }
  }

  lemma MatchIsPlain(j: bytes, key: bytes, p: int)
    requires MatchAt(j, Quoted(key), p) && PlainText(key)
    ensures forall q :: p < q < p + |key| + 1 ==> j[q] != QUOTE
  {
    MatchEnds(j, key, p);
    forall q | p < q < p + |key| + 1 ensures j[q] != QUOTE {
      assert j[p + 1 + (q - p - 1)] == key[q - p - 1];
    }
  }

  /** `"message"` is found at the end of the id or where it belongs. */
  lemma MessageMatches(j: bytes, n: nat, code: bytes, r: int)
    requires ErrorLayout(j, n, code) && PlainText(code) && code != MESSAGE
    requires MatchAt(j, Quoted(MESSAGE), r) && r <= 35 + n + |code| && (r + 8 < 7 || 7 + n <= r + 8)
    ensures r == n - 1 || r == 35 + n + |code|
  {
    OpenIdBytes(j);
    ErrorCodeBytes(j, 7 + n);
    ErrorMessageBytes(j, 33 + n + |code|);
    PlainAt(j, 33 + n, code);
    MatchEnds(j, MESSAGE, r);
    assert j[r + 1 + 6] == MESSAGE[6] == 101 && j[r + 1 + 5] == MESSAGE[5] == 103;
    if r + 8 == 33 + n + |code| { CodeIsNotMessage(j, n, code, r); }
  }

  /** The key cannot end with the code, because the code is not the key. */
  lemma CodeIsNotMessage(j: bytes, n: nat, code: bytes, r: int)
    requires ErrorLayout(j, n, code) && PlainText(code) && MatchAt(j, Quoted(MESSAGE), r) && r + 8 == 33 + n + |code|
    ensures code == MESSAGE
  {
    ErrorCodeBytes(j, 7 + n);
    PlainAt(j, 33 + n, code);
    MatchEnds(j, MESSAGE, r);
    MatchIsPlain(j, MESSAGE, r);
    if |code| == 7 {
      forall i | 0 <= i < 7 ensures code[i] == MESSAGE[i] {
        assert code[i] == j[33 + n + i] == j[r + 1 + i];
      }
    }
  }

  lemma MessageIsThere(j: bytes, i: nat)
    requires At(j, i, ERROR_MESSAGE)
    ensures MatchAt(j, Quoted(MESSAGE), i + 2)
  {
    ErrorMessageBytes(j, i);
    assert j[i + 2..i + 11] == Quoted(MESSAGE);
  }

  lemma MessageStartAt(j: bytes, n: nat, code: bytes, r: int)
    requires ErrorLayout(j, n, code) && PlainText(code) && code != MESSAGE && At(j, 7 + n, EVENT_KEY)
    requires r == Find(j, Quoted(MESSAGE), 0) && (r + 8 < 7 || 7 + n <= r + 8)
    ensures ValueStart(j, MESSAGE) == if MatchAt(j, Quoted(MESSAGE), n - 1) then 18 + n else 46 + n + |code|
  {
    var k := |code|;
    MessageIsThere(j, 33 + n + k);
    MessageMatches(j, n, code, r);
    if r == n - 1 {
      NoColonBeforeEvent(j, n, MESSAGE, r);
      EventKeyBytes(j, 7 + n);
      ValueStartIs(j, MESSAGE, r, n + 16);
    } else {
      ErrorMessageBytes(j, 33 + n + k);
      ValueStartIs(j, MESSAGE, r, 44 + n + k);
    }
  }

  lemma MessageStart(j: bytes, id: bytes, code: bytes)
    requires At(j, 7, Escape(id)) && ErrorLayout(j, |Escape(id)|, code) && PlainText(code) && code != MESSAGE
    ensures ValueStart(j, MESSAGE) == |Escape(id)| + if KeyAtEnd(id, MESSAGE) then 18 else 46 + |code|
  {
    hide Escape, ValueStart, KeyAtEnd, PlainText, Find;
    var n := |Escape(id)|;
    var r := Find(j, Quoted(MESSAGE), 0);
    MessageIsThere(j, 33 + n + |code|);
    ClosingQuoteOutside(j, 7, id, MESSAGE, r);
    ErrorCodeBytes(j, 7 + n);
    MatchAtIdEnd(j, id, MESSAGE);
    EosWord();
    StartsWithKey(j, 7 + n, ERROR_CODE);
    MessageStartAt(j, n, code, r);
  }

  lemma Regroup(a: bytes, b: bytes, c: bytes, d: bytes, e: bytes, f: bytes, g: bytes)
    ensures a + b + c + d + e + f + g == a + b + (c + d + (e + f + g))
  {
  }

  /** Three strings between four fixed parts. */
  lemma DeepLayout(a: bytes, e: bytes, k: bytes, c: bytes, l: bytes, x: bytes, t: bytes)
    ensures var j := a + e + k + c + l + x + t;
            var i := |a| + |e| + |k| + |c|;
            && At(j, 0, a) && At(j, |a|, e) && At(j, |a| + |e|, k) && At(j, |a| + |e| + |k|, c)
            && At(j, i, l) && At(j, i + |l|, x) && At(j, i + |l| + |x|, t)
  {
    hide At;
    var tail := l + x + t;
    var j := a + e + (k + c + tail);
    Regroup(a, e, k, c, l, x, t);
    NestedLayout(a, e, k, c, tail);
    AtConcat(l, x, t);
    var i := |a| + |e| + |k| + |c|;
    AtWithin(j, i, tail, 0, l);
    AtWithin(j, i, tail, |l|, x);
    AtWithin(j, i, tail, |l| + |x|, t);
  }

  lemma ErrorEventLayout(e: bytes, code: bytes, x: bytes)
    ensures var j := OPEN_ID + e + ERROR_CODE + code + ERROR_MESSAGE + x + CLOSE;
            At(j, 7, e) && ErrorLayout(j, |e|, code) && Literal(j, 46 + |e| + |code|, x)
  {
    hide At, Literal;
    DeepLayout(OPEN_ID, e, ERROR_CODE, code, ERROR_MESSAGE, x, CLOSE);
    assert |OPEN_ID| == 7 && |ERROR_CODE| == 26 && |ERROR_MESSAGE| == 13 && CLOSE[0] == QUOTE;
    LiteralBefore(OPEN_ID + e + ERROR_CODE + code + ERROR_MESSAGE + x + CLOSE, 46 + |e| + |code|, x, CLOSE);
  }

  /**
   An error event at the CLI, for a plain code: its kind is read as "error", and its message comes
   back up to exotic control bytes, unless the id is `message` or ends in `"message`.
   */
  lemma ErrorEventAtCli(id: bytes, code: bytes, message: bytes)
    requires PlainText(code) && code != MESSAGE
    ensures var j := Payload(Error(id, code, message));
            && GetString(j, EVENT) == ERROR
            && GetString(j, MESSAGE) == (if KeyAtEnd(id, MESSAGE) then ERROR else CliEcho(message))
  {
    hide Escape, ValueStart, CliParse, CliEcho, KeyAtEnd, At, Literal;
    var j := Payload(Error(id, code, message));
    var n := |Escape(id)|;
    PlainEscape(code);
    ErrorEventLayout(Escape(id), code, Escape(message));
    EosWord();
    EventWord(j, id, ERROR_CODE, ERROR);
    MessageStart(j, id, code);
    StartsWithKey(j, 7 + n, ERROR_CODE);
    EventStart(j, id);
    CliParseEscaped(j, 46 + n + |code|, message);
  }

  // ---------------------------------------------------------------- reason and code

  const REASON: bytes := [114, 101, 97, 115, 111, 110]
  const CODE: bytes := [99, 111, 100, 101]
  // ","
  const NEXT: bytes := [34, 44, 34]
  // ":"
  const IS: bytes := [34, 58, 34]

  /** Event key, kind, and the key of the field behind it. */
  function Head(word: bytes, key: bytes): bytes {
    EVENT_KEY + word + (NEXT + key + IS)
  }

  lemma HeadsOfEvents()
    ensures EOS_REASON == Head(EOS, REASON) && ERROR_CODE == Head(ERROR, CODE) && TOKEN_TEXT == Head(TOKEN, TEXT)
  {
  }

  lemma PlainStays(s: bytes)
    requires PlainText(s)
    ensures Escape(s) == s
  {
    hide Escape;
    PlainEscape(s);
  }

  lemma ReasonIsAField()
    ensures PlainText(EOS) && PlainText(REASON) && |REASON| == 6 && REASON != EVENT && REASON != EOS && COLON !in REASON
  {
  }

  /** Where the parts of the head stand. */
  lemma HeadParts(j: bytes, i: nat, word: bytes, key: bytes)
    requires At(j, i, Head(word, key))
    ensures At(j, i, EVENT_KEY) && At(j, i + 11, word) && At(j, i + 11 + |word|, NEXT)
    ensures At(j, i + 14 + |word|, key) && At(j, i + 14 + |word| + |key|, IS)
  {
    hide At;
    var tail := NEXT + key + IS;
    assert |EVENT_KEY| == 11 && |NEXT| == 3;
    AtConcat(EVENT_KEY, word, tail);
    AtConcat(NEXT, key, IS);
    var h := Head(word, key);
    AtWithin(j, i, h, 0, EVENT_KEY);
    AtWithin(j, i, h, 11, word);
    AtWithin(h, 11 + |word|, tail, 0, NEXT);
    AtWithin(h, 11 + |word|, tail, 3, key);
    AtWithin(h, 11 + |word|, tail, 3 + |key|, IS);
    AtWithin(j, i, h, 11 + |word|, NEXT);
    AtWithin(j, i, h, 14 + |word|, key);
    AtWithin(j, i, h, 14 + |word| + |key|, IS);
  }

  lemma ThreeBytes(j: bytes, i: nat, t: bytes)
    requires At(j, i, t) && |t| == 3
    ensures |j| >= i + 3 && j[i] == t[0] && j[i + 1] == t[1] && j[i + 2] == t[2]
  {
    assert t[0] == j[i + 0] && t[1] == j[i + 1] && t[2] == j[i + 2];
  }

  /** Where a quote stands in an event whose id is plain, up to the field's key. */
  ghost predicate QuoteAt(n: nat, w: nat, k: nat, q: int) {
    q in {1, 4, 6, 7 + n, 9 + n, 15 + n, 17 + n, 18 + n + w, 20 + n + w, 21 + n + w + k}
  }

  lemma QuotesOfHead(j: bytes, id: bytes, word: bytes, key: bytes)
    requires At(j, 0, OPEN_ID) && At(j, 7, id) && At(j, 7 + |id|, Head(word, key)) && PlainText(id) && PlainText(word) && PlainText(key)
    ensures forall q :: 0 <= q <= 21 + |id| + |word| + |key| && q < |j| && j[q] == QUOTE ==> QuoteAt(|id|, |word|, |key|, q)
  {
    var n, w := |id|, |word|;
    OpenIdBytes(j);
    HeadParts(j, 7 + n, word, key);
    EventKeyBytes(j, 7 + n);
    ThreeBytes(j, 18 + n + w, NEXT);
    PlainAt(j, 7, id);
    PlainAt(j, 18 + n, word);
    PlainAt(j, 21 + n + w, key);
  }

  /** The same text between the same quotes is the same word. */
  lemma SameWord(j: bytes, key: bytes, r: int, i: nat, word: bytes)
    requires MatchAt(j, Quoted(key), r) && At(j, i, word) && r + 1 == i && |key| == |word|
    ensures key == word
  {
    MatchEnds(j, key, r);
    forall x | 0 <= x < |key| ensures key[x] == word[x] {
      assert word[x] == j[i + x] == j[r + 1 + x];
    }
  }

  lemma KeyMatches(j: bytes, id: bytes, word: bytes, key: bytes, r: int)
    requires At(j, 0, OPEN_ID) && At(j, 7, id) && At(j, 7 + |id|, Head(word, key)) && PlainText(id) && PlainText(word) && PlainText(key)
    requires |key| >= 3 && key != id && key != EVENT && key != word
    requires MatchAt(j, Quoted(key), r) && r <= 20 + |id| + |word|
    ensures r == 20 + |id| + |word|
  {
    var n, w, k := |id|, |word|, |key|;
    QuotesOfHead(j, id, word, key);
    OpenIdBytes(j);
    HeadParts(j, 7 + n, word, key);
    EventKeyBytes(j, 7 + n);
    ThreeBytes(j, 18 + n + w, NEXT);
    EventAt(j, 7 + n);
    MatchEnds(j, key, r);
    MatchIsPlain(j, key, r);
    assert QuoteAt(n, w, k, r) && QuoteAt(n, w, k, r + k + 1);
    if r == 6 && k == n { SameWord(j, key, r, 7, id); }
    if r == 9 + n && k == 5 { SameWord(j, key, r, 10 + n, EVENT); }
    if r == 17 + n && k == w { SameWord(j, key, r, 18 + n, word); }
  }

  lemma EventAt(j: bytes, i: nat)
    requires At(j, i, EVENT_KEY)
    ensures At(j, i + 3, EVENT)
  {
    EventKeyBytes(j, i);
  }

  /** The field behind the kind of an event is found, if the id is plain and not its name. */
  lemma FieldIsFound(j: bytes, id: bytes, word: bytes, key: bytes)
    requires At(j, 0, OPEN_ID) && At(j, 7, id) && At(j, 7 + |id|, Head(word, key)) && PlainText(id) && PlainText(word) && PlainText(key)
    requires |key| >= 3 && key != id && key != EVENT && key != word && COLON !in key
    ensures ValueStart(j, key) == 24 + |id| + |word| + |key|
  {
    hide PlainText;
    var n, w, k := |id|, |word|, |key|;
    HeadParts(j, 7 + n, word, key);
    ThreeBytes(j, 18 + n + w, NEXT);
    ThreeBytes(j, 21 + n + w + k, IS);
    KeyThere(j, 20 + n + w, key);
    var r := Find(j, Quoted(key), 0);
    KeyMatches(j, id, word, key, r);
    forall i | r <= i < r + k + 2 ensures j[i] != COLON { NoColonInMatch(j, key, r, i); }
    ValueStartIs(j, key, r, r + k + 2);
  }

  lemma KeyThere(j: bytes, p: nat, key: bytes)
    requires At(j, p + 1, key) && p + |key| + 1 < |j| && j[p] == QUOTE && j[p + |key| + 1] == QUOTE
    ensures MatchAt(j, Quoted(key), p)
  {
    var q := Quoted(key);
    forall i | 0 <= i < |q| ensures q[i] == j[p + i] {
      if 0 < i < |key| + 1 { assert key[i - 1] == j[p + 1 + (i - 1)]; }
    }
    assert j[p..p + |q|] == q;
  }

  lemma FieldIsLiteral(j: bytes, id: bytes, word: bytes, key: bytes, head: bytes, r: bytes, tail: bytes)
    requires j == OPEN_ID + id + (head + r + tail) && head == Head(word, key) && tail != [] && tail[0] == QUOTE
    requires PlainText(id) && PlainText(word) && PlainText(key)
    requires |key| >= 3 && key != id && key != EVENT && key != word && COLON !in key
    ensures ValueStart(j, key) == 24 + |id| + |word| + |key| && Literal(j, 24 + |id| + |word| + |key|, r)
  {
    hide At, Literal, ValueStart, PlainText;
    NestedLayout(OPEN_ID, id, head, r, tail);
    assert |OPEN_ID| == 7 && |EVENT_KEY| == 11 && |NEXT| == 3 && |IS| == 3;
    FieldIsFound(j, id, word, key);
    LiteralBefore(j, 24 + |id| + |word| + |key|, r, tail);
  }

  /** The reason of an eos event, for a plain id. */
  lemma ReasonAtClient(id: bytes, reason: bytes)
    requires PlainText(id) && id != REASON
    ensures GetString(Payload(Eos(id, reason)), REASON) == CliEcho(reason)
  {
    hide Escape, ValueStart, CliParse, CliEcho, At, Literal, PlainText;
    PlainStays(id);
    HeadsOfEvents();
    ReasonIsAField();
    var r := Escape(reason);
    var j := Payload(Eos(id, reason));
    FieldIsLiteral(j, id, EOS, REASON, EOS_REASON, r, CLOSE);
    CliParseEscaped(j, 33 + |id|, reason);
  }

  /** The code of an error event, for a plain id. */
  lemma CodeAtClient(id: bytes, code: bytes, message: bytes)
    requires PlainText(id) && id != CODE && PlainText(code)
    ensures GetString(Payload(Error(id, code, message)), CODE) == code
  {
    hide Escape, ValueStart, CliParse, At, Literal;
    PlainStays(id);
    PlainStays(code);
    HeadsOfEvents();
    var tail := ERROR_MESSAGE + Escape(message) + CLOSE;
    var j := Payload(Error(id, code, message));
    Regroup(OPEN_ID, id, ERROR_CODE, code, ERROR_MESSAGE, Escape(message), CLOSE);
    MessageQuote(Escape(message));
    FieldIsLiteral(j, id, ERROR, CODE, ERROR_CODE, code, tail);
    WordAt(j, 33 + |id|, code);
  }

  lemma MessageQuote(x: bytes)
    ensures (ERROR_MESSAGE + x + CLOSE)[0] == QUOTE
  {
    assert ERROR_MESSAGE[0] == QUOTE;
  }

  // ---------------------------------------------------------------- metrics

  /** A metrics event is recognised whatever the metrics are. */
  lemma MetricsEventAtCli(json: bytes)
    ensures GetString(Payload(Snapshot(json)), EVENT) == METRICS_EVENT
  {
    hide ValueStart, CliParse;
    var j := Payload(Snapshot(json));
    assert j == OPEN_METRICS + (json + [125]);
    SnapshotBytes(j, json + [125]);
    MetricsStart(j);
    WordAt(j, 10, METRICS_EVENT);
  }

  lemma SnapshotBytes(j: bytes, rest: bytes)
    requires j == OPEN_METRICS + rest
    ensures |j| >= 29 && j[0] == 123 && j[1] == 34 && j[7] == 34 && j[8] == 58 && j[9] == 34
    ensures At(j, 2, EVENT) && At(j, 10, METRICS_EVENT) && j[17] == 34
  {
    var t := OPEN_METRICS;
    MetricsName(t);
    MetricsValue(t);
    SameStart(j, t, rest);
  }

  lemma MetricsName(t: bytes)
    requires t == OPEN_METRICS
    ensures |t| >= 29 && t[0] == 123 && t[1] == 34 && t[7] == 34 && t[8] == 58 && t[9] == 34 && At(t, 2, EVENT)
  {
    assert t[2] == EVENT[0] && t[3] == EVENT[1] && t[4] == EVENT[2] && t[5] == EVENT[3] && t[6] == EVENT[4];
  }

  lemma MetricsValue(t: bytes)
    requires t == OPEN_METRICS
    ensures At(t, 10, METRICS_EVENT) && t[17] == 34
  {
    var w := METRICS_EVENT;
    assert t[10] == w[0] && t[11] == w[1] && t[12] == w[2] && t[13] == w[3] && t[14] == w[4] && t[15] == w[5] && t[16] == w[6];
  }

  lemma SameStart(j: bytes, t: bytes, rest: bytes)
    requires j == t + rest
    ensures |j| >= |t| && forall i :: 0 <= i < |t| ==> j[i] == t[i]
    ensures forall i: nat, s :: At(t, i, s) ==> At(j, i, s)
  {
  }

  lemma MetricsStart(j: bytes)
    requires |j| >= 29 && j[0] == 123 && j[1] == 34 && j[7] == 34 && j[8] == 58 && j[9] == 34 && At(j, 2, EVENT)
    ensures ValueStart(j, EVENT) == 10
  {
    KeyThere(j, 1, EVENT);
    if MatchAt(j, Quoted(EVENT), 0) { MatchEnds(j, EVENT, 0); }
    forall i | 1 <= i < 8 ensures j[i] != COLON { NoColonInMatch(j, EVENT, 1, i); }
    ValueStartIs(j, EVENT, 1, 8);
  }

  // ---------------------------------------------------------------- token ids

  /** What stands behind the last colon. */
  function Tail(j: bytes): bytes {
    if j == [] || j[|j| - 1] == COLON then [] else Tail(j[..|j| - 1]) + [j[|j| - 1]]
  }

  lemma {:induction false} TailIsBehind(a: bytes, b: bytes)
    requires a != [] && a[|a| - 1] == COLON && COLON !in b
    ensures Tail(a + b) == b
  {
    if b == [] {
      assert a + b == a;
    } else {
      var n := |b| - 1;
      TailIsBehind(a, b[..n]);
      assert (a + b)[..|a + b| - 1] == a + b[..n] && b[n] in b;
    }
  }

  lemma {:induction false} DigitsOnly(n: int)
    ensures COLON !in Decimal(n)
    decreases if n < 0 then 1 - n else n
  {
    if n < 0 {
      DigitsOnly(-n);
    } else if n >= 10 {
      DigitsOnly(n / 10);
    }
  }

  lemma TokenIdEnds(a: bytes, b: bytes, c: bytes, d: bytes, digits: bytes)
    ensures a + b + (c + d + (TOKEN_ID + (digits + [125]))) == (a + b + c + d + TOKEN_ID) + (digits + [125])
    ensures var x := a + b + c + d + TOKEN_ID; x != [] && x[|x| - 1] == COLON
  {
    assert TOKEN_ID != [] && TOKEN_ID[|TOKEN_ID| - 1] == COLON;
  }

  /** The id of the token is the number behind the last colon, for all ids and texts. */
  lemma TokenIdAtClient(id: bytes, text: bytes, t: int)
    ensures var tail := Tail(Payload(Token(id, text, t)));
            tail != [] && NumberOf(tail[..|tail| - 1]) == t
  {
    hide Escape, Decimal, NumberOf, Tail;
    var digits := Decimal(t);
    DecimalIsRead(t);
    DigitsOnly(t);
    var x := OPEN_ID + Escape(id) + TOKEN_TEXT + Escape(text) + TOKEN_ID;
    TokenIdEnds(OPEN_ID, Escape(id), TOKEN_TEXT, Escape(text), digits);
    TailIsBehind(x, digits + [125]);
    assert (digits + [125])[..|digits|] == digits;
  }
}
