/**
 How the server classifies what the CLI sends. The server looks for `"type"` and `"event"` before
 anything else, and it looks textually, so an id can pose as one of those keys.
 */
module CliRequests {
  import opened Bytes
  import opened Protocol
  import opened Json
  import opened RoundTrip
  import opened Batch
  import opened SessionManagement

  // ","stream":
  const STREAM_KEY: bytes := [34, 44, 34, 115, 116, 114, 101, 97, 109, 34, 58]
  const TRUE: bytes := [116, 114, 117, 101]
  const FALSE: bytes := [102, 97, 108, 115, 101]
  const MAX_TOKENS: bytes := [109, 97, 120, 95, 116, 111, 107, 101, 110, 115]
  const TEMPERATURE: bytes := [116, 101, 109, 112, 101, 114, 97, 116, 117, 114, 101]
  const TOP_P: bytes := [116, 111, 112, 95, 112]

  /** An optional number of the request, as `std::to_string` prints it. */
  datatype Field = Field(name: bytes, value: bytes)

  ghost predicate FieldOk(f: Field) {
    && (f.name == MAX_TOKENS || f.name == TEMPERATURE || f.name == TOP_P)
    && QUOTE !in f.value
  }

  function FieldText(f: Field): bytes {
    [44, 34] + f.name + [34, 58] + f.value
  }

  function FieldsText(fs: seq<Field>): bytes {
    if fs == [] then [125] else FieldText(fs[0]) + FieldsText(fs[1..])
  }

  /** Everything behind the prompt's value. */
  function Tail(stream: bool, fs: seq<Field>): bytes {
    STREAM_KEY + ((if stream then TRUE else FALSE) + FieldsText(fs))
  }

  function CliPayload(id: bytes, prompt: bytes, stream: bool, fs: seq<Field>): bytes {
    RequestPayload(id, prompt, Tail(stream, fs))
  }

  // ---------------------------------------------------------------- quotes in the tail

  /** The last two bytes of "type" and of "event". */
  predicate EndsLikeAdminKey(x: byte, y: byte) {
    (x == 112 && y == 101) || (x == 110 && y == 116)
  }

  lemma FieldNames(f: Field)
    requires FieldOk(f)
    ensures |f.name| >= 5 && QUOTE !in f.name && !EndsLikeAdminKey(f.name[|f.name| - 2], f.name[|f.name| - 1])
    ensures forall i :: 0 <= i < |f.name| ==> f.name[i] >= 0x20 && f.name[i] != BACKSLASH && f.name[i] != QUOTE
    ensures forall i :: 0 <= i < |f.value| ==> f.value[i] != QUOTE
    ensures f.name != METRICS
  {
    assert |METRICS| == 7 && |MAX_TOKENS| == 10 && |TEMPERATURE| == 11 && |TOP_P| == 5;
  }

  lemma QuoteInField(f: Field, q: nat)
    requires FieldOk(f) && q < |FieldText(f)| && FieldText(f)[q] == QUOTE
    ensures q >= 1 && (FieldText(f)[q - 1] == 44 ||
                       (q >= 2 && !EndsLikeAdminKey(FieldText(f)[q - 2], FieldText(f)[q - 1])))
  {
    FieldNames(f);
    FieldBytes(f);
  }

  lemma FieldBytes(f: Field)
    ensures var t, n := FieldText(f), |f.name|;
            && |t| == n + 4 + |f.value| && t[0] == 44 && t[1] == 34 && t[n + 2] == 34 && t[n + 3] == 58
            && (forall i :: 2 <= i < n + 2 ==> t[i] == f.name[i - 2])
            && (forall i :: n + 4 <= i < |t| ==> t[i] == f.value[i - n - 4])
  {
  }

  /** No quote among the fields closes an admin key. */
  lemma {:induction false} QuoteInFields(fs: seq<Field>, q: nat)
    requires (forall i :: 0 <= i < |fs| ==> FieldOk(fs[i])) && q < |FieldsText(fs)| && FieldsText(fs)[q] == QUOTE
    ensures q >= 1 && (FieldsText(fs)[q - 1] == 44 ||
                       (q >= 2 && !EndsLikeAdminKey(FieldsText(fs)[q - 2], FieldsText(fs)[q - 1])))
  {
    if fs != [] {
      assert FieldOk(fs[0]);
      var t, rest := FieldText(fs[0]), FieldsText(fs[1..]);
      assert FieldsText(fs) == t + rest;
      if q < |t| {
        QuoteInField(fs[0], q);
      } else {
        QuoteInFields(fs[1..], q - |t|);
        assert (t + rest)[q - 1] == rest[q - 1 - |t|];
      }
    }
  }

  lemma StreamKeyBytes(t: bytes, stream: bool, fs: seq<Field>)
    requires t == Tail(stream, fs)
    ensures |t| > 15 && t[0] == 34 && t[1] == 44 && t[2] == 34 && t[3] == 115 && t[4] == 116 && t[5] == 114
    ensures t[6] == 101 && t[7] == 97 && t[8] == 109 && t[9] == 34 && t[10] == 58
  {
    var k := STREAM_KEY;
    assert k[0] == 34 && k[1] == 44 && k[2] == 34 && k[3] == 115 && k[4] == 116 && k[5] == 114;
    assert k[6] == 101 && k[7] == 97 && k[8] == 109 && k[9] == 34 && k[10] == 58;
    assert |FieldsText(fs)| >= 1;
  }

  function FlagLength(stream: bool): nat {
    if stream then 4 else 5
  }

  /** Behind the flag the tail is the fields. */
  lemma TailFields(stream: bool, fs: seq<Field>)
    ensures var t := Tail(stream, fs);
            var k := 11 + FlagLength(stream);
            |t| == k + |FieldsText(fs)| && t[k..] == FieldsText(fs) && forall i :: 11 <= i < k ==> t[i] != QUOTE
  {
    hide FieldsText;
    var flag := if stream then TRUE else FALSE;
    assert |flag| == FlagLength(stream) && forall i :: 0 <= i < |flag| ==> flag[i] != QUOTE;
    var t := Tail(stream, fs);
    assert t == STREAM_KEY + (flag + FieldsText(fs));
    assert forall i :: 0 <= i < |flag| ==> t[11 + i] == flag[i];
  }

  lemma QuoteBehindFlag(t: bytes, k: nat, fs: seq<Field>, q: nat)
    requires (forall i :: 0 <= i < |fs| ==> FieldOk(fs[i])) && 11 <= k <= q < |t| && t[k..] == FieldsText(fs) && t[q] == QUOTE
    ensures t[q - 1] == 44 || !EndsLikeAdminKey(t[q - 2], t[q - 1])
  {
    hide FieldsText, FieldOk;
    var f := t[k..];
    assert f[q - k] == t[q];
    QuoteInFields(fs, q - k);
    assert f[q - k - 1] == t[q - 1] && (q - k >= 2 ==> f[q - k - 2] == t[q - 2]);
  }

  /** No quote of the tail behind its first byte closes an admin key. */
  lemma QuoteInTail(stream: bool, fs: seq<Field>, q: nat)
    requires (forall i :: 0 <= i < |fs| ==> FieldOk(fs[i])) && 0 < q < |Tail(stream, fs)| && Tail(stream, fs)[q] == QUOTE
    ensures q >= 2 && (Tail(stream, fs)[q - 1] == 44 || !EndsLikeAdminKey(Tail(stream, fs)[q - 2], Tail(stream, fs)[q - 1]))
  {
    hide FieldsText, FieldOk, Tail;
    var t := Tail(stream, fs);
    StreamKeyBytes(t, stream, fs);
    TailFields(stream, fs);
    var k := 11 + FlagLength(stream);
    if q >= k {
      QuoteBehindFlag(t, k, fs, q);
    }
  }

  ghost predicate AdminKey(key: bytes) {
    key == TYPE || key == EVENT
  }

  lemma AdminKeys(key: bytes)
    requires AdminKey(key)
    ensures PlainKey(key) && 4 <= |key| <= 5 && COLON !in key && key[|key| - 1] != BACKSLASH
    ensures EndsLikeAdminKey(key[|key| - 2], key[|key| - 1]) && key[0] != 105 && key[0] != 34
  {
    assert |TYPE| == 4 && |EVENT| == 5;
  }

  /** An admin key can only match at the end of the id's value or at the end of the prompt's value. */
  lemma AdminMatches(j: bytes, id: bytes, prompt: bytes, stream: bool, fs: seq<Field>, key: bytes, r: int)
    requires j == CliPayload(id, prompt, stream, fs) && (forall i :: 0 <= i < |fs| ==> FieldOk(fs[i]))
    requires AdminKey(key) && MatchAt(j, Quoted(key), r)
    ensures r + |key| + 1 == 7 + |Escape(id)| || r + |key| + 1 == 19 + |Escape(id)| + |Escape(prompt)|
  {
    hide Escape, Tail, RequestPayload, Quoted, FieldOk;
    var tail := Tail(stream, fs);
    StreamKeyBytes(tail, stream, fs);
    AdminKeys(key);
    RequestLayout(id, prompt, tail);
    ClosingQuoteOutside(j, 7, id, key, r);
    var n, p := |Escape(id)|, |Escape(prompt)|;
    ClosingQuoteOutside(j, 19 + n, prompt, key, r);
    if r + |key| + 1 > 19 + n + p {
      AdminMatchesTail(j, 19 + n + p, stream, fs, key, r);
    } else {
      AdminMatchesHead(j, n, key, r);
    }
  }

  lemma AdminMatchesTail(j: bytes, at: nat, stream: bool, fs: seq<Field>, key: bytes, r: int)
    requires (forall i :: 0 <= i < |fs| ==> FieldOk(fs[i])) && AdminKey(key) && MatchAt(j, Quoted(key), r)
    requires At(j, at, Tail(stream, fs)) && |j| == at + |Tail(stream, fs)|
    ensures r + |key| + 1 <= at
  {
    hide Tail, FieldOk;
    AdminKeys(key);
    MatchTail(j, key, r);
    var t := Tail(stream, fs);
    var x := r + |key| + 1 - at;
    assert forall i :: 0 <= i < |t| ==> t[i] == j[at + i];
    assert x > 1 ==> t[x] == j[at + x] && t[x - 1] == j[at + (x - 1)] && t[x - 2] == j[at + (x - 2)];
    assert x == 1 ==> t[1] == j[at + 1] by { StreamKeyBytes(t, stream, fs); }
    if x > 0 {
      StreamKeyBytes(t, stream, fs);
      if x > 1 { QuoteInTail(stream, fs, x); }
    }
  }

  /** The closing quote of a match and the two bytes before it. */
  lemma MatchTail(j: bytes, key: bytes, r: int)
    requires MatchAt(j, Quoted(key), r) && |key| >= 2
    ensures var q := r + |key| + 1;
            0 <= r && q < |j| && j[q] == QUOTE && j[q - 1] == key[|key| - 1] && j[q - 2] == key[|key| - 2]
  {
    MatchEnds(j, key, r);
    assert j[r + 1 + (|key| - 1)] == key[|key| - 1] && j[r + 1 + (|key| - 2)] == key[|key| - 2];
  }

  lemma AdminMatchesHead(j: bytes, n: nat, key: bytes, r: int)
    requires At(j, 0, OPEN_ID) && At(j, 7 + n, PROMPT_KEY) && AdminKey(key) && MatchAt(j, Quoted(key), r)
    requires r + |key| + 1 < 7 || 7 + n <= r + |key| + 1
    ensures r + |key| + 1 == 7 + n || r + |key| + 1 >= 19 + n
  {
    AdminKeys(key);
    OpenIdBytes(j);
    PromptKeyBytes(j, 7 + n);
    MatchTail(j, key, r);
    MatchEnds(j, key, r);
    assert j[r + 1 + 0] == key[0];
  }

  // ---------------------------------------------------------------- classification

  /** Reading an admin key whose first match is at the end of the id: the value is the prompt. */
  lemma AdminKeyAtId(j: bytes, id: bytes, prompt: bytes, stream: bool, fs: seq<Field>, key: bytes, r: int)
    requires j == CliPayload(id, prompt, stream, fs) && AdminKey(key)
    requires Find(j, Quoted(key), 0) == r && r + |key| + 1 == 7 + |Escape(id)|
    ensures ExtractString(j, key) == Extracted(Sanitised(prompt), false)
  {
    hide Escape, Tail, RequestPayload, Quoted, ParseString, Find, Sanitised;
    var tail := Tail(stream, fs);
    StreamKeyBytes(tail, stream, fs);
    AdminKeys(key);
    RequestLayout(id, prompt, tail);
    var n := |Escape(id)|;
    PromptKeyBytes(j, 7 + n);
    MatchFound(j, key, r);
    forall i | r <= i < n + 17 ensures j[i] != COLON {
      if i < r + |key| + 2 { NoColonInMatch(j, key, r, i); }
    }
    ValueStartIs(j, key, r, n + 17);
    ParseEscaped(j, 19 + n, prompt);
  }

  lemma MatchFound(j: bytes, key: bytes, r: int)
    requires Find(j, Quoted(key), 0) == r && r != -1
    ensures r >= 0 && MatchAt(j, Quoted(key), r)
  {
  }

  /** Reading an admin key that first matches at the end of the prompt: never "metrics". */
  lemma AdminKeyAtPrompt(j: bytes, id: bytes, prompt: bytes, stream: bool, fs: seq<Field>, key: bytes, r: int)
    requires j == CliPayload(id, prompt, stream, fs) && AdminKey(key) && (forall i :: 0 <= i < |fs| ==> FieldOk(fs[i]))
    requires Find(j, Quoted(key), 0) == r && r + |key| + 1 == 19 + |Escape(id)| + |Escape(prompt)| && r >= 0
    ensures ExtractString(j, key).value != METRICS
  {
    hide Escape, Tail, RequestPayload, Quoted, ParseString, Find, FieldOk;
    var tail := Tail(stream, fs);
    StreamKeyBytes(tail, stream, fs);
    AdminKeys(key);
    RequestLayout(id, prompt, tail);
    var at := 19 + |Escape(id)| + |Escape(prompt)|;
    MatchFound(j, key, r);
    assert forall i :: 0 <= i < |tail| ==> tail[i] == j[at + i];
    forall i | r <= i < at + 10 ensures j[i] != COLON {
      if i < r + |key| + 2 { NoColonInMatch(j, key, r, i); } else { assert tail[i - at] == j[at + (i - at)]; }
    }
    assert tail[10] == j[at + 10];
    FindByte(j, COLON, r, at + 10);
    FirstFieldValue(j, at, stream, fs);
  }

  /** The first quote behind the stream flag opens the name of the first field, if there is one. */
  lemma FirstFieldValue(j: bytes, at: nat, stream: bool, fs: seq<Field>)
    requires At(j, at, Tail(stream, fs)) && |j| == at + |Tail(stream, fs)| && (forall i :: 0 <= i < |fs| ==> FieldOk(fs[i]))
    ensures var q := Find(j, [QUOTE], at + 10);
            q == -1 || ParseString(j, q + 1).value != METRICS
  {
    hide ParseString;
    var t := Tail(stream, fs);
    var k := 11 + FlagLength(stream);
    StreamKeyBytes(t, stream, fs);
    TailFields(stream, fs);
    hide Tail;
    assert forall i :: 0 <= i < |t| ==> t[i] == j[at + i];
    forall i | at + 10 <= i < at + k ensures j[i] != QUOTE { assert t[i - at] == j[at + (i - at)]; }
    FieldsStand(j, at, t, k, FieldsText(fs));
    if fs == [] {
      NoQuote(j, at + 10);
    } else {
      assert FieldOk(fs[0]);
      FieldStart(j, at + k, fs[0], FieldsText(fs[1..]));
      FindByte(j, QUOTE, at + 10, at + k + 1);
      NameIsRead(j, at + k + 2, fs[0]);
    }
  }

  lemma FieldsStand(j: bytes, at: nat, t: bytes, k: nat, f: bytes)
    requires At(j, at, t) && |j| == at + |t| && k <= |t| && t[k..] == f
    ensures At(j, at + k, f) && |j| == at + k + |f|
    ensures f == [125] ==> forall i :: at + k <= i < |j| ==> j[i] == 125
  {
    forall i | 0 <= i < |f| ensures f[i] == j[at + k + i] { assert t[k + i] == j[at + (k + i)]; }
    if f == [125] { assert f[0] == j[at + k + 0] == 125; }
  }

  lemma NoQuote(j: bytes, from: nat)
    requires forall i :: from <= i < |j| ==> j[i] != QUOTE
    ensures Find(j, [QUOTE], from) == -1
  {
    forall k | from <= k ensures !MatchAt(j, [QUOTE], k) {
      if k < |j| {
        assert j[k..k + 1] == [j[k]];
        assert [j[k]][0] != [QUOTE][0];
      }
    }
  }

  lemma FieldStart(j: bytes, i: nat, f: Field, rest: bytes)
    requires At(j, i, FieldText(f) + rest) && FieldOk(f)
    ensures i + |f.name| + 2 < |j| && j[i] == 44 && j[i + 1] == QUOTE && j[i + 2 + |f.name|] == QUOTE
    ensures forall x :: 0 <= x < |f.name| ==> j[i + 2 + x] == f.name[x]
  {
    var t := FieldText(f) + rest;
    var n := |f.name|;
    assert t[0] == 44 && t[1] == 34 && t[n + 2] == 34;
    forall x | 0 <= x < n ensures j[i + 2 + x] == f.name[x] {
      assert t[2 + x] == f.name[x];
    }
  }

  lemma NameIsRead(j: bytes, i: nat, f: Field)
    requires FieldOk(f) && i + |f.name| < |j| && j[i + |f.name|] == QUOTE
    requires forall x :: 0 <= x < |f.name| ==> j[i + x] == f.name[x]
    ensures ParseString(j, i).value != METRICS
  {
    FieldNames(f);
    PlainIsRead(j, i, f.name);
  }

  lemma {:induction false} PlainIsRead(j: bytes, i: nat, name: bytes)
    requires i + |name| < |j| && j[i + |name|] == QUOTE
    requires forall x :: 0 <= x < |name| ==> j[i + x] == name[x] && name[x] >= 0x20 && name[x] != QUOTE && name[x] != BACKSLASH
    ensures ParseString(j, i) == Extracted(name, false)
    decreases |name|
  {
    if name != [] {
      assert j[i + 0] == name[0];
      forall x | 0 <= x < |name[1..]| ensures j[i + 1 + x] == name[1..][x] { assert j[i + (x + 1)] == name[x + 1]; }
      PlainIsRead(j, i + 1, name[1..]);
    }
  }

  /** What the server makes of an admin key in a CLI request. */
  lemma AdminKeyInRequest(id: bytes, prompt: bytes, stream: bool, fs: seq<Field>, key: bytes)
    requires AdminKey(key) && forall i :: 0 <= i < |fs| ==> FieldOk(fs[i])
    ensures var x := ExtractString(CliPayload(id, prompt, stream, fs), key);
            (!x.invalid && x.value == METRICS) <==> KeyAtEnd(id, key) && prompt == METRICS
  {
    hide Escape, Tail, RequestPayload, CliPayload, Quoted, ParseString, Find, FieldOk;
    var j := CliPayload(id, prompt, stream, fs);
    AdminKeys(key);
    SanitisedMetrics(prompt);
    IdEndInRequest(j, id, prompt, stream, fs, key);
    var r := Find(j, Quoted(key), 0);
    if r != -1 {
      MatchFound(j, key, r);
      AdminMatches(j, id, prompt, stream, fs, key, r);
      if r + |key| + 1 == 7 + |Escape(id)| {
        AdminKeyAtId(j, id, prompt, stream, fs, key, r);
      } else {
        AdminKeyAtPrompt(j, id, prompt, stream, fs, key, r);
      }
    }
  }

  /** The id poses as the key exactly when the first match is at its end. */
  lemma IdEndInRequest(j: bytes, id: bytes, prompt: bytes, stream: bool, fs: seq<Field>, key: bytes)
    requires j == CliPayload(id, prompt, stream, fs) && AdminKey(key) && forall i :: 0 <= i < |fs| ==> FieldOk(fs[i])
    ensures KeyAtEnd(id, key) <==> Find(j, Quoted(key), 0) == 6 + |Escape(id)| - |key|
  {
    hide Escape, Tail, RequestPayload, Quoted, FieldOk, KeyAtEnd;
    AdminKeys(key);
    StreamKeyBytes(Tail(stream, fs), stream, fs);
    RequestLayout(id, prompt, Tail(stream, fs));
    PromptKeyBytes(j, 7 + |Escape(id)|);
    MatchAtIdEnd(j, id, key);
    var r := Find(j, Quoted(key), 0);
    if r != -1 { AdminMatches(j, id, prompt, stream, fs, key, r); }
  }

  lemma SanitisedMetrics(s: bytes)
    ensures Sanitised(s) == METRICS <==> s == METRICS
  {
    assert forall i :: 0 <= i < |METRICS| ==> METRICS[i] != 63 && !Exotic(METRICS[i]);
    if Sanitised(s) == METRICS {
      assert |s| == |METRICS|;
      forall i | 0 <= i < |s| ensures s[i] == METRICS[i] { assert Sanitised(s)[i] == METRICS[i]; }
    }
    if s == METRICS {
      assert Sanitised(s) == METRICS;
    }
  }

  /**
   A CLI request is taken for a metrics request exactly when its prompt is `metrics` and its id
   is `type` or `event` or ends in one of them behind a quote. Every other request is refused for
   an empty or an oversized prompt, or understood as sent, up to exotic control bytes.
   */
  lemma CliRequestClassified(cfg: Config, id: bytes, prompt: bytes, stream: bool, fs: seq<Field>)
    requires forall i :: 0 <= i < |fs| ==> FieldOk(fs[i])
    ensures var c := Classify(cfg, CliPayload(id, prompt, stream, fs));
            && (c.AdminRequest? <==> prompt == METRICS && (KeyAtEnd(id, TYPE) || KeyAtEnd(id, EVENT)))
            && (!c.AdminRequest? ==>
                  c == if prompt == [] then Refused(Sanitised(id), E_PROTO_BAD_REQUEST, MISSING_PROMPT)
                       else if |prompt| > cfg.maxPromptBytes then Oversized(Sanitised(id))
                       else Generate(Sanitised(id), Sanitised(prompt)))
            && (Printable(id) ==> Sanitised(id) == id) && (Printable(prompt) ==> Sanitised(prompt) == prompt)
  {
    hide Escape, Tail, RequestPayload, FieldOk, ExtractString, KeyAtEnd;
    AdminKeyInRequest(id, prompt, stream, fs, TYPE);
    AdminKeyInRequest(id, prompt, stream, fs, EVENT);
    StreamKeyBytes(Tail(stream, fs), stream, fs);
    RequestIsReadBack(id, prompt, Tail(stream, fs));
    SanitisedIsIdentity(id);
    SanitisedIsIdentity(prompt);
  }

  // {"type":"metrics"}
  const METRICS_REQUEST: bytes :=
    [123, 34, 116, 121, 112, 101, 34, 58, 34, 109, 101, 116, 114, 105, 99, 115, 34, 125]

  /** The metrics request of the CLI is one. */
  lemma CliMetricsIsAdmin(cfg: Config)
    ensures Classify(cfg, METRICS_REQUEST) == AdminRequest
  {
    hide ValueStart, ParseString;
    var j := METRICS_REQUEST;
    MetricsRequestBytes();
    MatchFoundAtStart(j);
    PlainEscape(METRICS);
    ParseEscaped(j, 9, METRICS);
    SanitisedMetrics(METRICS);
  }

  lemma MetricsRequestBytes()
    ensures var j := METRICS_REQUEST;
            && |j| == 18 && j[0] == 123 && j[7] == COLON && j[8] == QUOTE && Literal(j, 9, METRICS)
            && MatchAt(j, Quoted(TYPE), 1) && forall i :: 1 <= i < 7 ==> j[i] != COLON
  {
    var j := METRICS_REQUEST;
    assert j[1..7] == Quoted(TYPE);
  }

  lemma MatchFoundAtStart(j: bytes)
    requires |j| == 18 && j[0] == 123 && j[7] == COLON && j[8] == QUOTE && MatchAt(j, Quoted(TYPE), 1)
    requires forall i :: 1 <= i < 7 ==> j[i] != COLON
    ensures ValueStart(j, TYPE) == 9
  {
    if MatchAt(j, Quoted(TYPE), 0) { MatchEnds(j, TYPE, 0); }
    ValueStartIs(j, TYPE, 1, 7);
  }

  /** For instance, asking for the text "metrics" under the id "type". */
  lemma MisreadRequest(cfg: Config)
    ensures Classify(cfg, CliPayload(TYPE, METRICS, true, [])) == AdminRequest
  {
    hide Classify, CliPayload;
    CliRequestClassified(cfg, TYPE, METRICS, true, []);
  }
}
