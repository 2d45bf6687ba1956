/** The invariant of one session: its state, its KV cells, its history and its output agree. */
module Invariants {
  import opened Bytes
  import opened Sessions
  import opened Policy
  import opened Bmt
  import opened Protocol
  import opened Batch
  import opened NonInterference
  import opened Histories
  import Solo

  // ---------------------------------------------------------------- entries

  ghost function Reference(m: LanguageModel, cfg: Config, e: Entry): Solo.SoloRun {
    Solo.Decode(m, cfg.maxTokens, e.fed, e.params, e.draws)
  }

  /** The tokens of some text that is not too long to be accepted. */
  ghost predicate Tokenised(m: LanguageModel, cfg: Config, toks: seq<int>) {
    toks == [] || exists text :: |text| <= cfg.maxPromptBytes && toks == m.tokenize(text)
  }

  /** The tokens of a request are those of decoding the fed part of its prompt alone, up to the same end. */
  ghost predicate EntryOk(m: LanguageModel, cfg: Config, e: Entry) {
    && Tokenised(m, cfg, e.prompt) && e.fed <= e.prompt && (e.tokens != [] ==> e.fed != [])
    && match e.end
    case Open => Reference(m, cfg, e) == Solo.SoloRun(e.tokens, Solo.Running)
    case Broke(_, _) => Reference(m, cfg, e) == Solo.SoloRun(e.tokens, Solo.Running)
    case Sampled(reason) => Reference(m, cfg, e) == Solo.SoloRun(e.tokens, Solo.Ended(reason))
    case NoPrompt => e.tokens == [] && e.draws == []
    case Answered(_) => e.tokens == [] && e.draws == []
  }

  /** All requests but the last have ended. */
  ghost predicate EntriesOk(m: LanguageModel, cfg: Config, entries: seq<Entry>) {
    && (forall i :: 0 <= i < |entries| ==> EntryOk(m, cfg, entries[i]))
    && (forall i :: 0 <= i < |entries| - 1 ==> !entries[i].end.Open?)
  }

  function Last<T>(xs: seq<T>): T
    requires xs != []
  {
    xs[|xs| - 1]
  }

  // ---------------------------------------------------------------- sessions

  ghost predicate SameRequest(s: ClientSession, e: Entry) {
    e.end.Open? && e.id == s.requestId && e.prompt == s.promptTokens && e.params == s.sampling && s.seqId >= 0 && s.prefillIdx <= |s.promptTokens|
  }

  /** PREFILL: the cells are the prompt prefix fed so far, at positions 0 .. n_past - 1. */
  ghost predicate PrefillOk(s: ClientSession, cells: seq<Cell>, e: Entry) {
    && SameRequest(s, e) && e.tokens == [] && e.draws == []
    && s.nPast == s.prefillIdx && s.generatedCount == 0 && s.firstEmitNs == 0
    && cells == Solo.Place(s.promptTokens[..s.prefillIdx])
  }

  /**
   DECODE: the cells are the prompt prefix and then the samples that were fed, in order and
   without gap, and `n_past` is their number; the last sample is pending.
   */
  ghost predicate DecodeOk(s: ClientSession, cells: seq<Cell>, e: Entry) {
    && SameRequest(s, e) && |e.tokens| >= 1 && s.prefillIdx >= 1
    && e.fed == s.promptTokens[..s.prefillIdx]
    && s.generatedCount == |e.tokens| - 1
    && s.pendingTok == Last(e.tokens)
    && s.nPast == s.prefillIdx + s.generatedCount
    && cells == Solo.Place(e.fed + if s.hasPendingTok then e.tokens[..s.generatedCount] else e.tokens)
  }

  /** What the last entry says about the session in each state. */
  ghost predicate PhaseOk(s: ClientSession, cells: seq<Cell>, e: Entry) {
    match s.state
    case Prefill => PrefillOk(s, cells, e)
    case Decode => DecodeOk(s, cells, e)
    case Stream => cells == [] && !e.end.Open?
    case RecvReq => cells == [] && !e.end.Open?
    case Errored => !e.end.Open?
    case Done => false
  }

  ghost predicate WireOk(m: LanguageModel, tx: bytes, log: Log) {
    log.delivered + tx == Wire(AllEvents(m, log.entries))
  }

  /** Requests and delivered bytes of one connection, open or closed. */
  ghost predicate LogOk(m: LanguageModel, cfg: Config, log: Log) {
    EntriesOk(m, cfg, log.entries) && log.delivered <= Wire(AllEvents(m, log.entries))
  }

  ghost predicate SessionOk(m: LanguageModel, cfg: Config, s: ClientSession, cells: seq<Cell>, log: Log) {
    && EntriesOk(m, cfg, log.entries)
    && WireOk(m, s.tx, log)
    && if log.entries == [] then s.state.RecvReq? && cells == [] else PhaseOk(s, cells, Last(log.entries))
  }

  // ---------------------------------------------------------------- one tick of one session

  lemma PlaceAppend(a: seq<int>, s: ClientSession, it: BatchItem, fed: seq<int>)
    requires CanFeed(s, it) && s.nPast == |a|
    requires fed == if it.phase.DECODE? then [s.pendingTok] else s.promptTokens[s.prefillIdx..s.prefillIdx + Chunk(it)]
    ensures Solo.Place(a) + FedCells(s, it) == Solo.Place(a + fed)
  {
    assert |FedCells(s, it)| == |fed|;
    forall j | 0 <= j < |fed| ensures FedCells(s, it)[j] == Solo.Place(a + fed)[|a| + j] {
    }
  }

  /** The next token of a decoding session is the next token of the reference. */
  lemma DecodeFeeds(m: LanguageModel, env: TickEnv, cells: seq<Cell>, s: ClientSession, it: BatchItem, e: Entry)
    requires DecodeOk(s, cells, e) && s.hasPendingTok && it.phase.DECODE? && it.nTokens == 1
    ensures cells + FedCells(s, it) == Solo.Place(e.fed + e.tokens)
    ensures TokenOf(m, env, cells, s, it) == m.sample(m.logits(Solo.Place(e.fed + e.tokens)), e.params, env.draw(it.fd))
  {
    var fed := e.fed + e.tokens[..s.generatedCount];
    PlaceAppend(fed, s, it, [s.pendingTok]);
    assert fed + [s.pendingTok] == e.fed + e.tokens;
  }

  lemma PrefillFeeds(m: LanguageModel, env: TickEnv, cells: seq<Cell>, s: ClientSession, it: BatchItem, e: Entry)
    requires PrefillOk(s, cells, e) && it.phase.PREFILL? && CanFeed(s, it)
    ensures var fed := s.promptTokens[..s.prefillIdx + Chunk(it)];
            && cells + FedCells(s, it) == Solo.Place(fed)
            && TokenOf(m, env, cells, s, it) == m.sample(m.logits(Solo.Place(fed)), e.params, env.draw(it.fd))
  {
    var n := s.prefillIdx + Chunk(it);
    PlaceAppend(s.promptTokens[..s.prefillIdx], s, it, s.promptTokens[s.prefillIdx..n]);
    assert s.promptTokens[..s.prefillIdx] + s.promptTokens[s.prefillIdx..n] == s.promptTokens[..n];
  }

  /** Entry and cells of a served session. */
  ghost predicate ServedPhase(m: LanguageModel, cfg: Config, env: TickEnv, cells: seq<Cell>, s: ClientSession, it: BatchItem, e: Entry)
    requires CanFeed(s, it)
  {
    var s1, e1 := Ticked(m, cfg, env, cells, s, it), LogSample(m, cfg, env, cells, s, it, e);
    && EntryOk(m, cfg, e1)
    && (env.ok ==> PhaseOk(s1, TickedCells(m, cfg, env, cells, s, it), e1))
    && (!env.ok ==> s1.state.Errored? && !e1.end.Open?)
  }

  /** Output of a served session: what is queued is what is recorded. */
  ghost predicate ServedOutput(m: LanguageModel, cfg: Config, env: TickEnv, cells: seq<Cell>, s: ClientSession, it: BatchItem, e: Entry)
    requires CanFeed(s, it)
  {
    var s1, e1 := Ticked(m, cfg, env, cells, s, it), LogSample(m, cfg, env, cells, s, it, e);
    && s1.tx == s.tx + Wire(NewEvents(m, cfg, env, cells, s, it))
    && EventsOf(m, e1) == EventsOf(m, e) + NewEvents(m, cfg, env, cells, s, it)
  }

  ghost predicate Served(m: LanguageModel, cfg: Config, env: TickEnv, cells: seq<Cell>, s: ClientSession, it: BatchItem, e: Entry)
    requires CanFeed(s, it)
  {
    ServedPhase(m, cfg, env, cells, s, it, e) && ServedOutput(m, cfg, env, cells, s, it, e)
  }

  ghost function NewEvents(m: LanguageModel, cfg: Config, env: TickEnv, cells: seq<Cell>, s: ClientSession, it: BatchItem): seq<Event>
    requires CanFeed(s, it)
  {
    if !env.ok then [FailureEvent(s)]
    else if it.fd in env.nullRows then []
    else SampleEvents(m, cfg, Enacted(s, it), it.phase, TokenOf(m, env, cells, s, it))
  }

  lemma NoNewEvents(tx: bytes)
    ensures tx + Wire([]) == tx
  {
  }

  lemma TokensOutSnoc(m: LanguageModel, id: bytes, tokens: seq<int>, t: int)
    ensures TokensOut(m, id, tokens + [t]) == TokensOut(m, id, tokens) + TokenEvents(m, id, t)
  {
    assert (tokens + [t])[..|tokens|] == tokens;
  }

  /** One more draw of the reference, while it is running. */
  lemma ReferenceStep(m: LanguageModel, cfg: Config, e: Entry, d: real)
    requires Reference(m, cfg, e) == Solo.SoloRun(e.tokens, Solo.Running)
    ensures var t := m.sample(m.logits(Solo.Place(e.fed + e.tokens)), e.params, d);
            Solo.Decode(m, cfg.maxTokens, e.fed, e.params, e.draws + [d]) ==
              if |e.tokens| == 0 then Solo.SoloRun([t], Solo.Running)
              else if |e.tokens| - 1 >= cfg.maxTokens then Solo.SoloRun(e.tokens, Solo.Ended(LENGTH))
              else if m.isEog(t) then Solo.SoloRun(e.tokens, Solo.Ended(STOP))
              else Solo.SoloRun(e.tokens + [t], Solo.Running)
  {
    assert (e.draws + [d])[..|e.draws|] == e.draws;
  }

  lemma DecodePhase(m: LanguageModel, cfg: Config, env: TickEnv, cells: seq<Cell>, s: ClientSession, it: BatchItem, e: Entry)
    requires EntryOk(m, cfg, e) && DecodeOk(s, cells, e) && DecodeReady(s) && it.phase.DECODE? && it.nTokens == 1
    ensures ServedPhase(m, cfg, env, cells, s, it, e)
  {
    hide Tokenised, Wire, SampleEvents, FedCells, TokenOf;
    DecodeFeeds(m, env, cells, s, it, e);
    if env.ok && it.fd !in env.nullRows {
      var t := TokenOf(m, env, cells, s, it);
      ReferenceStep(m, cfg, e, env.draw(it.fd));
      assert (e.tokens + [t])[..|e.tokens|] == e.tokens;
    }
  }

  lemma PrefillPhase(m: LanguageModel, cfg: Config, env: TickEnv, cells: seq<Cell>, s: ClientSession, it: BatchItem, e: Entry)
    requires EntryOk(m, cfg, e) && PrefillOk(s, cells, e) && PrefillReady(s) && it.phase.PREFILL? && CanFeed(s, it) && Chunk(it) > 0
    ensures ServedPhase(m, cfg, env, cells, s, it, e)
  {
    hide Tokenised, Wire, SampleEvents, FedCells, TokenOf;
    PrefillFeeds(m, env, cells, s, it, e);
    var fed := s.promptTokens[..s.prefillIdx + Chunk(it)];
    if env.ok && it.fd !in env.nullRows {
      ReferenceStep(m, cfg, e.(fed := fed), env.draw(it.fd));
      FirstToken(s, it, fed, TokenOf(m, env, cells, s, it), e);
    }
  }

  lemma FirstToken(s: ClientSession, it: BatchItem, fed: seq<int>, t: int, e: Entry)
    requires e.tokens == []
    ensures fed + e.tokens == fed && e.tokens + [t] == [t] && [t][..0] == [] && fed + [t][..0] == fed
  {
  }

  lemma ClosingOut(m: LanguageModel, e: Entry, f: Entry)
    requires e.end.Open? && f.id == e.id && f.tokens == e.tokens
    ensures EventsOf(m, f) == EventsOf(m, e) + EndOut(e.id, f.end)
  {
  }

  lemma TokenOut(m: LanguageModel, e: Entry, f: Entry, t: int)
    requires e.end.Open? && f.end.Open? && f.id == e.id && f.tokens == e.tokens + [t]
    ensures EventsOf(m, f) == EventsOf(m, e) + TokenEvents(m, e.id, t)
  {
    TokensOutSnoc(m, e.id, e.tokens, t);
  }

  /** Entries that are still open record exactly the events that a served session queues. */
  lemma ServedOut(m: LanguageModel, cfg: Config, env: TickEnv, cells: seq<Cell>, s: ClientSession, it: BatchItem, e: Entry)
    requires CanFeed(s, it) && Chunk(it) > 0 && e.end.Open? && e.id == s.requestId
    ensures ServedOutput(m, cfg, env, cells, s, it, e)
  {
    if !env.ok {
      FailedOut(m, cfg, env, cells, s, it, e);
    } else if it.fd in env.nullRows {
      SkippedOut(m, cfg, env, cells, s, it, e);
    } else {
      SampledOut(m, cfg, env, cells, s, it, e);
    }
  }

  lemma FailedOut(m: LanguageModel, cfg: Config, env: TickEnv, cells: seq<Cell>, s: ClientSession, it: BatchItem, e: Entry)
    requires CanFeed(s, it) && Chunk(it) > 0 && e.end.Open? && e.id == s.requestId && !env.ok
    ensures ServedOutput(m, cfg, env, cells, s, it, e)
  {
    ClosingOut(m, e, LogSample(m, cfg, env, cells, s, it, e));
    assert FailureEvent(Enacted(s, it)) == FailureEvent(s);
  }

  lemma SkippedOut(m: LanguageModel, cfg: Config, env: TickEnv, cells: seq<Cell>, s: ClientSession, it: BatchItem, e: Entry)
    requires CanFeed(s, it) && Chunk(it) > 0 && env.ok && it.fd in env.nullRows
    ensures ServedOutput(m, cfg, env, cells, s, it, e)
  {
    NoNewEvents(s.tx);
    assert EventsOf(m, e) + [] == EventsOf(m, e);
  }

  lemma SampledOut(m: LanguageModel, cfg: Config, env: TickEnv, cells: seq<Cell>, s: ClientSession, it: BatchItem, e: Entry)
    requires CanFeed(s, it) && Chunk(it) > 0 && e.end.Open? && e.id == s.requestId && env.ok && it.fd !in env.nullRows
    ensures ServedOutput(m, cfg, env, cells, s, it, e)
  {
    var f := LogSample(m, cfg, env, cells, s, it, e);
    var t := TokenOf(m, env, cells, s, it);
    if Ends(m, cfg, Enacted(s, it), it.phase, t) {
      ClosingOut(m, e, f);
    } else {
      TokenOut(m, e, f, t);
    }
  }

  lemma DecodeTick(m: LanguageModel, cfg: Config, env: TickEnv, cells: seq<Cell>, s: ClientSession, it: BatchItem, e: Entry)
    requires EntryOk(m, cfg, e) && DecodeOk(s, cells, e) && DecodeReady(s) && it.phase.DECODE? && it.nTokens == 1
    ensures Served(m, cfg, env, cells, s, it, e)
  {
    DecodePhase(m, cfg, env, cells, s, it, e);
    ServedOut(m, cfg, env, cells, s, it, e);
  }

  lemma PrefillTick(m: LanguageModel, cfg: Config, env: TickEnv, cells: seq<Cell>, s: ClientSession, it: BatchItem, e: Entry)
    requires EntryOk(m, cfg, e) && PrefillOk(s, cells, e) && PrefillReady(s) && it.phase.PREFILL? && CanFeed(s, it) && Chunk(it) > 0
    ensures Served(m, cfg, env, cells, s, it, e)
  {
    PrefillPhase(m, cfg, env, cells, s, it, e);
    ServedOut(m, cfg, env, cells, s, it, e);
  }
}
