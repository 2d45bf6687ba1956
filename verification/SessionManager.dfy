/**
 `SessionManager`: accepting and closing clients, reading framed requests, validating them and
 moving a session to PREFILL. Tokenisation is a parameter, and so are the sampling numbers that
 `strtod` finds in a request.
 */
module SessionManagement {
  import opened Bytes
  import opened Sessions
  import opened Protocol
  import opened Json
  import opened Batch
  import opened RoundTrip
  import Sampling

  // type, metrics
  const TYPE: bytes := [116, 121, 112, 101]
  const METRICS: bytes := [109, 101, 116, 114, 105, 99, 115]

  // ---------------------------------------------------------------- requests

  datatype Request =
    | AdminRequest
    | Refused(id: bytes, code: bytes, message: bytes)
    | Oversized(id: bytes)
    | Generate(id: bytes, prompt: bytes)

  /** Classification of one payload, in the order of the checks in `on_readable`. */
  function Classify(cfg: Config, js: bytes): Request {
    var typ, evt := ExtractString(js, TYPE), ExtractString(js, EVENT);
    if (!typ.invalid && typ.value == METRICS) || (!evt.invalid && evt.value == METRICS) then AdminRequest
    else
      var id, prompt := ExtractString(js, ID), ExtractString(js, PROMPT);
      if id.invalid || prompt.invalid then Refused(id.value, E_PROTO_001, INVALID_UTF8)
      else if prompt.value == [] then Refused(id.value, E_PROTO_BAD_REQUEST, MISSING_PROMPT)
      else if |prompt.value| > cfg.maxPromptBytes then Oversized(id.value)
      else Generate(id.value, prompt.value)
  }

  /** What is accepted is not too long. */
  lemma PromptFits(cfg: Config, js: bytes)
    requires Classify(cfg, js).Generate?
    ensures |Classify(cfg, js).prompt| <= cfg.maxPromptBytes
  {
    hide ExtractString;
  }

  datatype Number<T> = Missing | Given(value: T)

  /** The sampling numbers that the extractor finds in a request. */
  datatype Wanted = Wanted(temperature: Number<real>, topP: Number<real>, topK: Number<int>)

  function Override<T>(x: Number<T>, current: T): T {
    if x.Given? then x.value else current
  }

  /** Numbers that a request does not carry keep the session's value. */
  function Prefer(p: Sampling.Params, x: Wanted): Sampling.Params {
    Sampling.Params(Override(x.temperature, p.temperature), Override(x.topP, p.topP), Override(x.topK, p.topK))
  }

  /** One readable event: the bytes that arrived, how the read loop ended, and parsed numbers. */
  datatype ReadEvent = ReadEvent(arrived: bytes, eof: bool, failed: bool, now: nat, wanted: Wanted)

  datatype ReadOutcome = ReadOutcome(
    s: ClientSession,
    nextSeq: nat,
    wantsWrite: bool,
    removedRead: bool,
    admin: bool,
    queued: seq<Event>       // events appended to tx
  )

  function Queue(s: ClientSession, es: seq<Event>): ClientSession {
    s.(tx := s.tx + Wire(es))
  }

  /** An error answer: queue it, stop reading, close after flushing. */
  function Refuse(s: ClientSession, nextSeq: nat, e: Event): ReadOutcome {
    ReadOutcome(Queue(s, [e]).(state := Stream, readClosed := true), nextSeq, true, true, false, [e])
  }

  /** A tokenised prompt starts a request; the sequence id is assigned once per connection. */
  function StartRequest(s: ClientSession, nextSeq: nat, toks: seq<int>): ClientSession {
    s.(promptTokens := toks, prefillIdx := 0, generatedCount := 0, hasPendingTok := false, nPast := 0,
       firstEmitNs := 0, seqId := if s.seqId < 0 then nextSeq else s.seqId, state := Prefill)
  }

  function HandlePayload(m: LanguageModel, cfg: Config, s: ClientSession, nextSeq: nat, js: bytes, ev: ReadEvent): ReadOutcome {
    match Classify(cfg, js)
    case AdminRequest =>
      ReadOutcome(s.(state := Stream, readClosed := true), nextSeq, true, true, true, [])
    case Refused(id, code, message) => Refuse(s, nextSeq, Error(id, code, message))
    case Oversized(id) =>
      Refuse(s.(requestId := id, sampling := Prefer(s.sampling, ev.wanted)), nextSeq, Error(id, E_LIMIT_001, PROMPT_TOO_LARGE))
    case Generate(id, prompt) =>
      var s1 := s.(requestId := id, sampling := Prefer(s.sampling, ev.wanted));
      var toks := m.tokenize(prompt);
      if toks != [] then
        ReadOutcome(StartRequest(s1, nextSeq, toks), if s1.seqId < 0 then nextSeq + 1 else nextSeq, false, ev.eof, false, [])
      else
        ReadOutcome(Queue(s1.(promptTokens := [], state := Stream), [Eos(id, STOP)]), nextSeq, true, ev.eof, false, [Eos(id, STOP)])
  }

  /** The session after the read loop. */
  function AfterRead(s: ClientSession, ev: ReadEvent): ClientSession {
    s.(rx := s.rx + ev.arrived,
       lastActivityNs := if ev.arrived != [] || (ev.eof && !ev.failed) then ev.now else s.lastActivityNs,
       readClosed := s.readClosed || (ev.eof && !ev.failed))
  }

  /** `on_readable`: at most one frame is handled per event. */
  function OnReadable(m: LanguageModel, cfg: Config, s: ClientSession, nextSeq: nat, ev: ReadEvent): ReadOutcome {
    var s1 := AfterRead(s, ev);
    if ev.failed then ReadOutcome(s1, nextSeq, false, true, false, [])
    else
      match TryReadFrame(s1.rx, MAX_FRAME_BYTES)
      case NeedMore => ReadOutcome(s1, nextSeq, false, ev.eof, false, [])
      case InvalidLength => Refuse(s1, nextSeq, Error(s1.requestId, E_PROTO_INVALID_LEN, INVALID_LENGTH))
      case TooLarge => Refuse(s1, nextSeq, Error(s1.requestId, E_PROTO_FRAME_TOO_LARGE, FRAME_TOO_LARGE))
      case Got(js, rest) => HandlePayload(m, cfg, s1.(rx := rest), nextSeq, js, ev)
  }

  /** A frame, or a framing error, is handled by this event. */
  predicate Answers(s: ClientSession, ev: ReadEvent) {
    !ev.failed && !TryReadFrame(s.rx + ev.arrived, MAX_FRAME_BYTES).NeedMore?
  }

  // ---------------------------------------------------------------- what a readable event can do

  /** Bytes were buffered and nothing else happened. */
  ghost predicate Buffered(s: ClientSession, t: ClientSession) {
    t == s.(rx := t.rx, lastActivityNs := t.lastActivityNs, readClosed := t.readClosed)
  }

  /** The request was answered: the session streams the answer. */
  ghost predicate AnsweredAtOnce(s: ClientSession, t: ClientSession) {
    t.state.Stream? && t.nPast == s.nPast && t.seqId == s.seqId
  }

  /** A request was started from scratch. */
  ghost predicate Started(s: ClientSession, t: ClientSession) {
    && t.state.Prefill? && t.promptTokens != [] && t.prefillIdx == 0 && t.nPast == 0 && t.generatedCount == 0
    && t.firstEmitNs == 0 && t.tx == s.tx
  }

  ghost predicate ReadEffect(s: ClientSession, out: ReadOutcome) {
    && (out.admin ==> out.wantsWrite && out.removedRead)
    && if out.wantsWrite then AnsweredAtOnce(s, out.s) else Buffered(s, out.s) || Started(s, out.s)
  }

  lemma PayloadEffect(m: LanguageModel, cfg: Config, s: ClientSession, nextSeq: nat, js: bytes, ev: ReadEvent)
    ensures ReadEffect(s, HandlePayload(m, cfg, s, nextSeq, js, ev))
  {
    hide Wire, Classify;
  }

  /** A readable event buffers, answers or starts. */
  lemma ReadableEffect(m: LanguageModel, cfg: Config, s: ClientSession, nextSeq: nat, ev: ReadEvent)
    ensures ReadEffect(s, OnReadable(m, cfg, s, nextSeq, ev))
  {
    hide Wire, HandlePayload, TryReadFrame;
    var s1 := AfterRead(s, ev);
    assert Buffered(s, s1);
    match TryReadFrame(s1.rx, MAX_FRAME_BYTES)
    case Got(js, rest) => PayloadEffect(m, cfg, s1.(rx := rest), nextSeq, js, ev);
    case _ =>
  }

  function NewSession(now: nat): ClientSession {
    ClientSession([], [], -1, RecvReq, [], 0, false, 0, 0, 0, now, false, 0, Sampling.Params(0.8, 0.95, 0), [])
  }

  // ---------------------------------------------------------------- the manager

  /** What `on_readable` reports to the event loop. */
  datatype ReadResult = ReadResult(wantsWrite: bool, removedRead: bool, admin: bool)

  function ResultOf(out: ReadOutcome): ReadResult {
    ReadResult(out.wantsWrite, out.removedRead, out.admin)
  }

  /** The checks of `on_readable` on a payload, with the extractor of the source. */
  method ClassifyPayload(cfg: Config, js: bytes) returns (r: Request)
    ensures r == Classify(cfg, js)
  {
    hide ExtractString;
    var typ, typInvalid := ExtractJsonString(js, TYPE);
    var evt, evtInvalid := ExtractJsonString(js, EVENT);
    if (!typInvalid && typ == METRICS) || (!evtInvalid && evt == METRICS) {
      return AdminRequest;
    }
    var id, idInvalid := ExtractJsonString(js, ID);
    var prompt, promptInvalid := ExtractJsonString(js, PROMPT);
    if idInvalid || promptInvalid {
      return Refused(id, E_PROTO_001, INVALID_UTF8);
    }
    if prompt == [] {
      return Refused(id, E_PROTO_BAD_REQUEST, MISSING_PROMPT);
    }
    if |prompt| > cfg.maxPromptBytes {
      return Oversized(id);
    }
    return Generate(id, prompt);
  }

  /** The poller as two sets of descriptors with registered interest. */
  class Poller {
    var readers: set<Fd>
    var writers: set<Fd>

    constructor ()
      ensures readers == {} && writers == {}
    {
      readers, writers := {}, {};
    }
  }

  /** KV memory without the sequence of a session that goes away. */
  function WithoutSeq(kv: KvStore, s: ClientSession): KvStore {
    if s.seqId >= 0 then kv - {s.seqId} else kv
  }

  class SessionManager {
    var sessions: Pool
    var nextSeqId: nat

    constructor ()
      ensures sessions == map[] && nextSeqId == 1
    {
      sessions, nextSeqId := map[], 1;
    }

    /** `add_client`. */
    method AddClient(fd: Fd, now: nat)
      modifies this`sessions
      ensures sessions == old(sessions)[fd := NewSession(now)]
    {
      sessions := sessions[fd := NewSession(now)];
    }

    /** `close`: interest, KV memory and session all go. */
    method Close(fd: Fd, poller: Poller, ctx: LlamaContext)
      modifies this`sessions, poller, ctx`kv
      ensures sessions == old(sessions) - {fd}
      ensures poller.readers == old(poller.readers) - {fd} && poller.writers == old(poller.writers) - {fd}
      ensures ctx.kv == if fd in old(sessions) then WithoutSeq(old(ctx.kv), old(sessions)[fd]) else old(ctx.kv)
    {
      poller.readers, poller.writers := poller.readers - {fd}, poller.writers - {fd};
      if fd in sessions {
        if sessions[fd].seqId >= 0 {
          ctx.SeqRm(sessions[fd].seqId);
        }
        sessions := sessions - {fd};
      } else {
        assert sessions - {fd} == sessions;
      }
    }

    /** An error event, and no more input; the session is closed once it is flushed. */
    method Reject(fd: Fd, s: ClientSession, e: Event)
      modifies this`sessions
      ensures sessions == old(sessions)[fd := Refuse(s, nextSeqId, e).s]
    {
      sessions := sessions[fd := s.(tx := s.tx + Wire([e]), state := Stream, readClosed := true)];
    }

    /** A prompt to generate from, unless there is nothing to feed. */
    method StartPrompt(m: LanguageModel, fd: Fd, s0: ClientSession, prompt: bytes) returns (started: bool)
      modifies this
      ensures var toks := m.tokenize(prompt);
              && (started <==> toks != [])
              && sessions == old(sessions)[fd := if started then StartRequest(s0, old(nextSeqId), toks)
                                                  else Queue(s0.(promptTokens := [], state := Stream), [Eos(s0.requestId, STOP)])]
              && nextSeqId == if started && s0.seqId < 0 then old(nextSeqId) + 1 else old(nextSeqId)
    {
      var s := s0.(promptTokens := []);
      var toks := m.tokenize(prompt);
      started := toks != [];
      if started {
        s := s.(promptTokens := toks, prefillIdx := 0, generatedCount := 0, hasPendingTok := false, nPast := 0, firstEmitNs := 0);
        if s.seqId < 0 {
          s := s.(seqId := nextSeqId);
          nextSeqId := nextSeqId + 1;
        }
        s := s.(state := Prefill);
      } else {
        s := s.(state := Stream, tx := s.tx + Wire([Eos(s.requestId, STOP)]));
      }
      sessions := sessions[fd := s];
    }

    /** The optional sampling preferences, one by one. */
    method TakeNumbers(s0: ClientSession, x: Wanted) returns (s: ClientSession)
      ensures s == s0.(sampling := Prefer(s0.sampling, x))
    {
      s := s0;
      if x.temperature.Given? {
        s := s.(sampling := s.sampling.(temperature := x.temperature.value));
      }
      if x.topP.Given? {
        s := s.(sampling := s.sampling.(topP := x.topP.value));
      }
      if x.topK.Given? {
        s := s.(sampling := s.sampling.(topK := x.topK.value));
      }
    }

    /** A parsed request: refuse it, answer it, or start it. */
    method Serve(m: LanguageModel, cfg: Config, fd: Fd, js: bytes, ev: ReadEvent) returns (rr: ReadResult)
      requires fd in sessions
      modifies this
      ensures var out := HandlePayload(m, cfg, old(sessions)[fd], old(nextSeqId), js, ev);
              sessions == old(sessions)[fd := out.s] && nextSeqId == out.nextSeq && rr == ResultOf(out)
    {
      hide Classify, Wire, Queue, StartRequest, Prefer;
      var s := sessions[fd];
      var request := ClassifyPayload(cfg, js);
      rr := ReadResult(true, true, request.AdminRequest?);
      match request {
        case AdminRequest =>
          sessions := sessions[fd := s.(state := Stream, readClosed := true)];
        case Refused(id, code, message) =>
          Reject(fd, s, Error(id, code, message));
        case Oversized(id) =>
          s := TakeNumbers(s.(requestId := id), ev.wanted);
          Reject(fd, s, Error(id, E_LIMIT_001, PROMPT_TOO_LARGE));
        case Generate(id, prompt) =>
          s := TakeNumbers(s.(requestId := id), ev.wanted);
          var started := StartPrompt(m, fd, s, prompt);
          rr := ReadResult(!started, ev.eof, false);
      }
    }

    /** The read loop: what arrived, and whether the stream ended. */
    method Receive(fd: Fd, ev: ReadEvent)
      requires fd in sessions
      modifies this`sessions
      ensures sessions == old(sessions)[fd := AfterRead(old(sessions)[fd], ev)]
    {
      var s := sessions[fd];
      s := s.(rx := s.rx + ev.arrived);
      if ev.arrived != [] {
        s := s.(lastActivityNs := ev.now);
      }
      if ev.eof && !ev.failed {
        s := s.(readClosed := true, lastActivityNs := ev.now);
      }
      sessions := sessions[fd := s];
    }

    /** `on_readable`: drain the socket, then handle at most one frame. */
    method Read(m: LanguageModel, cfg: Config, fd: Fd, ev: ReadEvent) returns (rr: ReadResult)
      modifies this
      ensures fd !in old(sessions) ==> sessions == old(sessions) && nextSeqId == old(nextSeqId) && rr == ReadResult(false, false, false)
      ensures fd in old(sessions) ==>
                var out := OnReadable(m, cfg, old(sessions)[fd], old(nextSeqId), ev);
                sessions == old(sessions)[fd := out.s] && nextSeqId == out.nextSeq && rr == ResultOf(out)
    {
      hide HandlePayload, Wire, TryReadFrame, Queue, AfterRead;
      rr := ReadResult(false, false, false);
      if fd !in sessions { return; }
      Receive(fd, ev);
      var s := sessions[fd];
      rr := ReadResult(false, ev.failed || ev.eof, false);
      if ev.failed { return; }
      match TryReadFrame(s.rx, MAX_FRAME_BYTES) {
        case NeedMore =>
        case Got(js, rest) =>
          sessions := sessions[fd := s.(rx := rest)];
          rr := Serve(m, cfg, fd, js, ev);
        case InvalidLength =>
          Reject(fd, s, Error(s.requestId, E_PROTO_INVALID_LEN, INVALID_LENGTH));
          rr := rr.(wantsWrite := true, removedRead := true);
        case TooLarge =>
          Reject(fd, s, Error(s.requestId, E_PROTO_FRAME_TOO_LARGE, FRAME_TOO_LARGE));
          rr := rr.(wantsWrite := true, removedRead := true);
      }
    }
  }
}
