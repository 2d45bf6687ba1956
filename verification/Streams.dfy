/** What a request streams, in terms of the model's tokens, and what the CLI prints of it. */
module Streams {
  import opened Bytes
  import opened Sessions
  import opened Protocol
  import opened Json
  import opened RoundTrip
  import opened Cli
  import opened Batch
  import opened SessionManagement
  import opened Lifecycle
  import opened Histories
  import opened Runs
  import opened Guarantees
  import opened Requests
  import Sampling

  // ---------------------------------------------------------------- text and tokens

  function TextIn(e: Event): bytes {
    if e.Token? then e.text else []
  }

  function IdIn(e: Event): seq<int> {
    if e.Token? then [e.tokenId] else []
  }

  /** The texts of the token events, joined. */
  function TextOf(es: seq<Event>): bytes {
    if es == [] then [] else TextOf(es[..|es| - 1]) + TextIn(es[|es| - 1])
  }

  /** The token ids of the token events. */
  function IdsOf(es: seq<Event>): seq<int> {
    if es == [] then [] else IdsOf(es[..|es| - 1]) + IdIn(es[|es| - 1])
  }

  /** The pieces of the tokens, joined. */
  function PieceText(m: LanguageModel, ts: seq<int>): bytes {
    if ts == [] then [] else PieceText(m, ts[..|ts| - 1]) + m.piece(ts[|ts| - 1])
  }

  /** The tokens that have a text. */
  function Visible(m: LanguageModel, ts: seq<int>): seq<int> {
    if ts == [] then []
    else Visible(m, ts[..|ts| - 1]) + if m.piece(ts[|ts| - 1]) != [] then [ts[|ts| - 1]] else []
  }

  lemma {:induction false} TextAppend(a: seq<Event>, b: seq<Event>)
    ensures TextOf(a + b) == TextOf(a) + TextOf(b)
  {
    hide TextIn;
    if b == [] {
      assert a + b == a;
    } else {
      var n := |b| - 1;
      assert (a + b)[..|a + b| - 1] == a + b[..n];
      TextAppend(a, b[..n]);
      assert TextOf(a) + (TextOf(b[..n]) + TextIn(b[n])) == (TextOf(a) + TextOf(b[..n])) + TextIn(b[n]);
    }
  }

  lemma {:induction false} IdsAppend(a: seq<Event>, b: seq<Event>)
    ensures IdsOf(a + b) == IdsOf(a) + IdsOf(b)
  {
    hide IdIn;
    if b == [] {
      assert a + b == a;
    } else {
      var n := |b| - 1;
      assert (a + b)[..|a + b| - 1] == a + b[..n];
      IdsAppend(a, b[..n]);
      assert IdsOf(a) + (IdsOf(b[..n]) + IdIn(b[n])) == (IdsOf(a) + IdsOf(b[..n])) + IdIn(b[n]);
    }
  }

  lemma OneText(e: Event)
    ensures TextOf([e]) == TextIn(e) && IdsOf([e]) == IdIn(e)
  {
    hide TextIn, IdIn;
    assert [e][..0] == [] && [e][0] == e;
  }

  /** What one token puts into the stream. */
  lemma TokenText(m: LanguageModel, id: bytes, t: int)
    ensures var es := TokenEvents(m, id, t);
            && TextOf(es) == m.piece(t) && IdsOf(es) == (if m.piece(t) != [] then [t] else [])
            && forall k :: 0 <= k < |es| ==> es[k] == Token(id, m.piece(t), t)
  {
    var es := TokenEvents(m, id, t);
    if es != [] { OneText(es[0]); }
  }

  lemma {:induction false} TokensText(m: LanguageModel, id: bytes, ts: seq<int>)
    ensures TextOf(TokensOut(m, id, ts)) == PieceText(m, ts) && IdsOf(TokensOut(m, id, ts)) == Visible(m, ts)
  {
    hide TextOf, IdsOf, TokenEvents;
    if ts == [] {
      NoText();
    } else {
      var n := |ts| - 1;
      TokensText(m, id, ts[..n]);
      TokenText(m, id, ts[n]);
      TextAppend(TokensOut(m, id, ts[..n]), TokenEvents(m, id, ts[n]));
      IdsAppend(TokensOut(m, id, ts[..n]), TokenEvents(m, id, ts[n]));
    }
  }

  lemma NoText()
    ensures TextOf([]) == [] && IdsOf([]) == []
  {
  }

  /** Every token event is that of one of the tokens. */
  ghost predicate FromTokens(m: LanguageModel, id: bytes, ts: seq<int>, es: seq<Event>) {
    forall k :: 0 <= k < |es| ==> es[k].Token? && es[k].id == id && es[k].text == m.piece(es[k].tokenId) && es[k].tokenId in ts
  }

  lemma {:induction false} TokensOwn(m: LanguageModel, id: bytes, ts: seq<int>)
    ensures FromTokens(m, id, ts, TokensOut(m, id, ts))
  {
    hide TokenEvents;
    if ts != [] {
      var n := |ts| - 1;
      TokensOwn(m, id, ts[..n]);
      TokenText(m, id, ts[n]);
      FromTokensAppend(m, id, ts, ts[..n], TokensOut(m, id, ts[..n]), TokenEvents(m, id, ts[n]));
    }
  }

  lemma FromTokensAppend(m: LanguageModel, id: bytes, ts: seq<int>, some: seq<int>, front: seq<Event>, last: seq<Event>)
    requires FromTokens(m, id, some, front) && forall t :: t in some ==> t in ts
    requires forall k :: 0 <= k < |last| ==> last[k].Token? && last[k].id == id && last[k].text == m.piece(last[k].tokenId) && last[k].tokenId in ts
    ensures FromTokens(m, id, ts, front + last)
  {
    assert forall k :: 0 <= k < |front + last| ==> (front + last)[k] == if k < |front| then front[k] else last[k - |front|];
  }

  lemma EndHasNoText(id: bytes, end: End)
    ensures var es := EndOut(id, end);
            TextOf(es) == [] && IdsOf(es) == [] && forall k :: 0 <= k < |es| ==> !es[k].Token?
  {
    var es := EndOut(id, end);
    if es != [] {
      assert es == [es[0]];
      OneText(es[0]);
    }
  }

  /** Token events of a request carry its id and the text of their token. */
  ghost predicate OwnText(m: LanguageModel, id: bytes, es: seq<Event>) {
    forall k :: 0 <= k < |es| && es[k].Token? ==> es[k].id == id && es[k].text == m.piece(es[k].tokenId)
  }

  lemma EntryText(m: LanguageModel, e: Entry)
    ensures var es := EventsOf(m, e);
            TextOf(es) == PieceText(m, e.tokens) && IdsOf(es) == Visible(m, e.tokens) && OwnText(m, e.id, es)
  {
    hide TextOf, IdsOf, PieceText, Visible, TokensOut, EndOut;
    TokensText(m, e.id, e.tokens);
    TokensOwn(m, e.id, e.tokens);
    EndHasNoText(e.id, e.end);
    var ts, last := TokensOut(m, e.id, e.tokens), EndOut(e.id, e.end);
    TextAppend(ts, last);
    IdsAppend(ts, last);
    assert forall k :: 0 <= k < |ts + last| ==> (ts + last)[k] == if k < |ts| then ts[k] else last[k - |ts|];
  }

  /**
   The stream of every request in every run: its token events carry, in order, exactly the tokens
   that have a text, each with its own text, so the texts together are the text of the tokens.
   */
  lemma StreamedText(m: LanguageModel, cfg: Config, cap: int, steps: seq<Step>, fd: Fd, i: nat)
    requires cap >= 1 && Legal(m, cfg, cap, steps)
    requires fd in After(m, cfg, cap, steps).history.logs && i < |After(m, cfg, cap, steps).history.logs[fd].entries|
    ensures var log := After(m, cfg, cap, steps).history.logs[fd];
            var e := log.entries[i];
            var es := EventsOf(m, e);
            && log.delivered <= Wire(AllEvents(m, log.entries))
            && TextOf(es) == PieceText(m, e.tokens) && IdsOf(es) == Visible(m, e.tokens) && OwnText(m, e.id, es)
  {
    hide After, Legal, EventsOf, TextOf, IdsOf, PieceText, Visible, Wire, AllEvents, OwnText;
    OutputGrammar(m, cfg, cap, steps, fd, i);
    EntryText(m, After(m, cfg, cap, steps).history.logs[fd].entries[i]);
  }

  // ---------------------------------------------------------------- at the CLI

  function Repeated(word: bytes, n: nat): bytes {
    if n == 0 then [] else Repeated(word, n - 1) + word
  }

  /**
   What the CLI makes of `n` token events with this text: the text without the backslashes of
   unicode escapes, or, under a misleading id, so many times the word "token".
   */
  ghost function Shown(id: bytes, text: bytes, n: nat): bytes {
    if KeyAtEnd(id, TEXT) then Repeated(TOKEN, n) else CliEcho(text)
  }

  lemma {:induction false} EchoAppend(a: bytes, b: bytes)
    ensures CliEcho(a + b) == CliEcho(a) + CliEcho(b)
  {
    hide CliEchoByte;
    if a == [] {
      assert a + b == b;
    } else {
      EchoAppend(a[1..], b);
      assert (a + b)[1..] == a[1..] + b && (a + b)[0] == a[0];
      var first := CliEchoByte(a[0]);
      assert first + (CliEcho(a[1..]) + CliEcho(b)) == (first + CliEcho(a[1..])) + CliEcho(b);
    }
  }

  lemma {:induction false} RepeatedIsPrefix(word: bytes, k: nat, n: nat)
    requires k <= n
    ensures Repeated(word, k) <= Repeated(word, n)
    decreases n
  {
    if k < n { RepeatedIsPrefix(word, k, n - 1); }
  }

  /** More events show more. */
  lemma ShownGrows(id: bytes, a: bytes, k: nat, b: bytes, n: nat)
    requires k <= n
    ensures Shown(id, a, k) <= Shown(id, a + b, n)
  {
    hide KeyAtEnd, CliEcho, Repeated;
    EchoAppend(a, b);
    RepeatedIsPrefix(TOKEN, k, n);
  }

  lemma PayloadsSnoc(es: seq<Event>)
    requires es != []
    ensures var n := |es| - 1;
            var ps := Payloads(es);
            |ps| == n + 1 && ps[..n] == Payloads(es[..n]) && ps[n] == Payload(es[n])
  {
    hide Payload;
    WireIsFrames(es);
    WireIsFrames(es[..|es| - 1]);
  }

  /** Token events are printed one after the other. */
  lemma {:induction false} ShowTokens(id: bytes, es: seq<Event>)
    requires forall k :: 0 <= k < |es| ==> es[k].Token? && es[k].id == id
    ensures |IdsOf(es)| == |es| && ShowAll(Payloads(es)) == Screen(Shown(id, TextOf(es), |es|), [], Going)
  {
    hide KeyAtEnd, GetString, Payload, Payloads, CliEcho;
    if es == [] {
      NoPayloads();
    } else {
      var n := |es| - 1;
      ShowTokens(id, es[..n]);
      PayloadsSnoc(es);
      TokenEventAtCli(id, es[n].text, es[n].tokenId);
      EchoAppend(TextOf(es[..n]), es[n].text);
    }
  }

  lemma NoPayloads()
    ensures Payloads([]) == [] && CliEcho([]) == []
  {
  }

  /** The screen when everything has arrived. */
  ghost function FinalScreen(m: LanguageModel, e: Entry): Screen {
    var text := Shown(e.id, PieceText(m, e.tokens), |Visible(m, e.tokens)|);
    match e.end
    case Open => Screen(text, [], Going)
    case Sampled(_) => Screen(text + [10], [], Left(0))
    case NoPrompt => Screen(text + [10], [], Left(0))
    case Broke(_, message) => Screen(text, (if KeyAtEnd(e.id, MESSAGE) then ERROR else message) + [10], Left(2))
    case Answered(json) => Screen(text + Payload(Snapshot(json)) + [10], [], Left(0))
  }

  /** A plain code that is not the word `message`, and a message that prints as it is. */
  ghost predicate PlainFailure(code: bytes, message: bytes) {
    PlainText(code) && code != MESSAGE && Printable(message) && message != []
  }

  /** The closing event of a request. */
  lemma ShowEnd(x: Screen, e: Entry)
    requires x.err == [] && x.exit.Going? && EndOut(e.id, e.end) != []
    requires e.end.Broke? ==> PlainFailure(e.end.code, e.end.message)
    ensures Show(x, Payload(EndOut(e.id, e.end)[0])) ==
            if e.end.Broke? then Screen(x.out, (if KeyAtEnd(e.id, MESSAGE) then ERROR else e.end.message) + [10], Left(2))
            else if e.end.Answered? then Screen(x.out + Payload(Snapshot(e.end.json)) + [10], [], Left(0))
            else Screen(x.out + [10], [], Left(0))
  {
    hide GetString, Payload, KeyAtEnd, Printable, PlainText, CliEcho;
    match e.end
    case Broke(code, message) =>
      ErrorEventAtCli(e.id, code, message);
      CliEchoIsIdentity(message);
      var shown := if KeyAtEnd(e.id, MESSAGE) then ERROR else message;
      assert [] + shown == shown;
    case Sampled(reason) => EosEventAtCli(e.id, reason);
    case NoPrompt => EosEventAtCli(e.id, STOP);
    case Answered(json) => MetricsEventAtCli(json);
    case _ =>
  }

  /** The token events, or the first of them. */
  lemma ShowSome(m: LanguageModel, e: Entry, k: nat)
    requires k <= |TokensOut(m, e.id, e.tokens)|
    ensures var ts := TokensOut(m, e.id, e.tokens);
            var text := Shown(e.id, PieceText(m, e.tokens), |Visible(m, e.tokens)|);
            var x := ShowAll(Payloads(ts[..k]));
            x.out <= text && (k == |ts| ==> x.out == text) && x.err == [] && x.exit.Going?
  {
    hide Payloads, ShowAll, Shown, PieceText, TextOf, TokensOut, Visible, IdsOf;
    var ts := TokensOut(m, e.id, e.tokens);
    TokensText(m, e.id, e.tokens);
    TokensOwn(m, e.id, e.tokens);
    ShowTokens(e.id, ts);
    ShowTokens(e.id, ts[..k]);
    assert ts == ts[..k] + ts[k..];
    TextAppend(ts[..k], ts[k..]);
    ShownGrows(e.id, TextOf(ts[..k]), k, TextOf(ts[k..]), |ts|);
    assert k == |ts| ==> ts[..k] == ts;
  }

  lemma ShowWhole(m: LanguageModel, e: Entry)
    requires e.end.Broke? ==> PlainFailure(e.end.code, e.end.message)
    ensures ShowAll(Payloads(EventsOf(m, e))) == FinalScreen(m, e)
  {
    hide Payloads, Payload, Show, Shown, PlainFailure, PieceText, TextOf, TokensOut, KeyAtEnd;
    var es, ts := EventsOf(m, e), TokensOut(m, e.id, e.tokens);
    ShowSome(m, e, |ts|);
    assert ts[..|ts|] == ts;
    if e.end.Open? {
      assert es == ts;
    } else {
      assert es[..|es| - 1] == ts;
      PayloadsSnoc(es);
      ShowEnd(ShowAll(Payloads(ts)), e);
    }
  }

  /** Whatever prefix of the events has been read, a prefix of the text is on the screen; in the end it is all there. */
  lemma ShowPrefix(m: LanguageModel, e: Entry, k: nat)
    requires k <= |EventsOf(m, e)| && (e.end.Broke? ==> PlainFailure(e.end.code, e.end.message))
    ensures var x := ShowAll(Payloads(EventsOf(m, e)[..k]));
            && x.out <= FinalScreen(m, e).out && (k == |EventsOf(m, e)| ==> x == FinalScreen(m, e))
  {
    hide Payloads, ShowAll, Shown, PlainFailure, PieceText, TextOf, TokensOut, KeyAtEnd, Payload;
    var es, ts := EventsOf(m, e), TokensOut(m, e.id, e.tokens);
    if k == |es| {
      assert es[..k] == es;
      ShowWhole(m, e);
    } else {
      assert es[..k] == ts[..k];
      ShowSome(m, e, k);
    }
  }

  /** The text is shown as it is exactly if it is printable, unless the id is a misleading one. */
  lemma ShownAsIs(id: bytes, text: bytes, n: nat)
    requires !KeyAtEnd(id, TEXT)
    ensures Shown(id, text, n) == text <==> Printable(text)
  {
    hide KeyAtEnd, CliEcho, Printable;
    CliEchoIsIdentity(text);
  }

  // ---------------------------------------------------------------- runs

  /** Printable ASCII without quote and backslash. */
  predicate PlainChars(s: string) {
    forall i :: 0 <= i < |s| ==> ' ' <= s[i] <= '~' && s[i] != '"' && s[i] != '\\'
  }

  lemma TextIsPlain(s: string)
    requires PlainChars(s)
    ensures PlainText(Text(s)) && |Text(s)| == |s|
  {
  }

  lemma PlainIsPrintable(s: bytes)
    requires PlainText(s)
    ensures Printable(s)
  {
  }

  lemma FailureIsPlain(code: string, message: string)
    requires PlainChars(code) && |code| > 7 && PlainChars(message) && message != ""
    ensures PlainFailure(Text(code), Text(message))
  {
    hide Printable, PlainText, PlainChars;
    TextIsPlain(code);
    TextIsPlain(message);
    PlainIsPrintable(Text(message));
    assert |Text(code)| != |MESSAGE|;
  }

  /** All failures of the daemon are plain. */
  lemma ProtocolFailures()
    ensures PlainFailure(E_PROTO_INVALID_LEN, INVALID_LENGTH) && PlainFailure(E_PROTO_FRAME_TOO_LARGE, FRAME_TOO_LARGE)
  {
    hide PlainFailure;
    FailureIsPlain("E_PROTO_INVALID_LEN", "invalid frame length 0");
    FailureIsPlain("E_PROTO_FRAME_TOO_LARGE", "frame too large");
  }

  lemma RequestFailures()
    ensures PlainFailure(E_PROTO_001, INVALID_UTF8) && PlainFailure(E_PROTO_BAD_REQUEST, MISSING_PROMPT)
  {
    hide PlainFailure;
    FailureIsPlain("E_PROTO_001", "invalid utf-8");
    FailureIsPlain("E_PROTO_BAD_REQUEST", "missing or invalid prompt");
  }

  lemma OtherFailures()
    ensures PlainFailure(E_LIMIT_001, PROMPT_TOO_LARGE) && PlainFailure(E_RUNTIME_DECODE, DECODE_FAILED)
  {
    hide PlainFailure;
    FailureIsPlain("E_LIMIT_001", "prompt too large");
    FailureIsPlain("E_RUNTIME_DECODE", "decode failed");
  }

  lemma RefusalIsPlain(cfg: Config, js: bytes)
    requires Classify(cfg, js).Refused?
    ensures PlainFailure(Classify(cfg, js).code, Classify(cfg, js).message)
  {
    hide PlainFailure, ExtractString;
    RequestFailures();
  }

  lemma MatchedIsPlain(m: LanguageModel, cfg: Config, src: Source, params: Sampling.Params, e: Entry)
    requires Matches(m, cfg, src, params, e) && e.end.Broke?
    ensures PlainFailure(e.end.code, e.end.message)
  {
    hide PlainFailure, Classify;
    ProtocolFailures();
    OtherFailures();
    if src.Framed? && Classify(cfg, src.js).Refused? { RefusalIsPlain(cfg, src.js); }
  }

  /** In every run every failure is plain. */
  lemma FailuresArePlain(m: LanguageModel, cfg: Config, cap: int, steps: seq<Step>, fd: Fd, i: nat)
    requires cap >= 1 && Legal(m, cfg, cap, steps)
    requires fd in After(m, cfg, cap, steps).history.logs && i < |After(m, cfg, cap, steps).history.logs[fd].entries|
    ensures var e := After(m, cfg, cap, steps).history.logs[fd].entries[i];
            e.end.Broke? ==> PlainFailure(e.end.code, e.end.message)
  {
    hide After, Legal, HeardAfter, PlainFailure, Consumed, ParamsOf, Matches;
    RequestsComeFromFrames(m, cfg, cap, steps, fd);
    var e, ss := After(m, cfg, cap, steps).history.logs[fd].entries[i], HeardAfter(m, cfg, cap, steps)[fd].sources;
    assert Matches(m, cfg, ss[i], ParamsOf(cfg, ss[..i + 1]), e);
    if e.end.Broke? { MatchedIsPlain(m, cfg, ss[i], ParamsOf(cfg, ss[..i + 1]), e); }
  }

  /**
   What the CLI prints, in every run: it has sent one request and reads what has been delivered.
   The output is part of what `FinalScreen` has, and once everything is delivered it is that: the
   text of the tokens, a line end or the error message, and an exit code that says which. The text
   is that of the tokens exactly if it is printable, unless the id is `text` or ends in `"text`.
   */
  lemma CliPrints(m: LanguageModel, cfg: Config, cap: int, steps: seq<Step>, fd: Fd, maxFrame: nat)
    requires cap >= 1 && Legal(m, cfg, cap, steps) && fd in After(m, cfg, cap, steps).history.logs
    requires |After(m, cfg, cap, steps).history.logs[fd].entries| == 1
    requires AllSendable(Payloads(EventsOf(m, After(m, cfg, cap, steps).history.logs[fd].entries[0])), maxFrame)
    ensures var x := After(m, cfg, cap, steps);
            var log := x.history.logs[fd];
            var e := log.entries[0];
            var screen := ShowAll(Drain(log.delivered, maxFrame).payloads);
            && screen.out <= FinalScreen(m, e).out
            && (log.delivered == Wire(EventsOf(m, e)) ==> screen == FinalScreen(m, e))
            && (fd in x.state.pool && x.state.pool[fd].tx == [] ==> screen == FinalScreen(m, e))
            && (log.delivered == Wire(EventsOf(m, e)) && e.end.Sampled? && !KeyAtEnd(e.id, TEXT) ==>
                  (screen == Screen(PieceText(m, e.tokens) + [10], [], Left(0)) <==> Printable(PieceText(m, e.tokens))))
  {
    hide After, Legal, EventsOf, KeyAtEnd, Payloads, ShowAll, FinalScreen, Wire, Drain, PlainFailure, PieceText, Printable;
    var log := After(m, cfg, cap, steps).history.logs[fd];
    var e := log.entries[0];
    OneEntry(m, log.entries);
    FailuresArePlain(m, cfg, cap, steps, fd, 0);
    var k := ClientSeesPrefix(m, cfg, cap, steps, fd, maxFrame);
    ShowPrefix(m, e, k);
    if e.end.Sampled? && !KeyAtEnd(e.id, TEXT) { PrintedAsIs(m, e); }
  }

  lemma PrintedAsIs(m: LanguageModel, e: Entry)
    requires e.end.Sampled? && !KeyAtEnd(e.id, TEXT)
    ensures FinalScreen(m, e) == Screen(PieceText(m, e.tokens) + [10], [], Left(0)) <==> Printable(PieceText(m, e.tokens))
  {
    hide KeyAtEnd, PieceText, Printable, Shown, Visible;
    var text := PieceText(m, e.tokens);
    var shown := Shown(e.id, text, |Visible(m, e.tokens)|);
    ShownAsIs(e.id, text, |Visible(m, e.tokens)|);
    assert (shown + [10])[..|shown|] == shown && (text + [10])[..|text|] == text;
  }

  lemma OneEntry(m: LanguageModel, entries: seq<Entry>)
    requires |entries| == 1
    ensures AllEvents(m, entries) == EventsOf(m, entries[0])
  {
    hide EventsOf;
    assert entries[..0] == [];
  }
}
