/**
 Six places where the code does less, or more, than a reader expects: a second request while one is
 being served, long prompts, the token limit, frames that come together, failed model calls and
 failed reads. The exact conditions are `SecondRequestCleanIff` here, `PromptRuns.PromptFedWholeIff`,
 `Guarantees.LimitExceededInRuns`, `Requests.FrameLeftBehindIff`, `Wakeups.FailedTickArmedIff` and
 `Listening.ReadInterestIff`; here is, for each, a run of the daemon in which it goes wrong.
 */
module Deviations {
  import opened Bounds
  import opened Bytes
  import opened Sessions
  import opened Policy
  import opened PlanProperties
  import opened Bmt
  import opened Protocol
  import opened Batch
  import opened NonInterference
  import opened TickSpec
  import opened SessionManagement
  import opened Lifecycle
  import opened Histories
  import opened Invariants
  import opened Runs
  import opened Draining
  import opened Wakeups
  import opened RoundTrip
  import opened CliRequests
  import Json
  import opened PromptRuns
  import opened Requests
  import opened Listening
  import opened WholePrompts

  // ---------------------------------------------------------------- a second request while busy

  /**
   A request that arrives on a busy connection is not rejected: `n_past` restarts at zero. The
   KV memory of the new request is clean exactly when nothing of the old one had been fed.
   */
  lemma SecondRequestCleanIff(m: LanguageModel, cfg: Config, w: State, h: History, fd: Fd, ev: ReadEvent, metrics: bytes)
    requires Inv(m, cfg, w, h) && fd in w.pool && !w.pool[fd].state.Errored? && Answers(w.pool[fd], ev)
    requires AfterRequest(m, cfg, w.pool[fd], w.nextSeq, ev, metrics).s.state.Prefill?
    ensures var s := AfterRequest(m, cfg, w.pool[fd], w.nextSeq, ev, metrics).s;
            && s.nPast == 0 && s.prefillIdx == 0
            && (SeqCells(w.kv, s) == [] <==>
                  !w.pool[fd].state.Decode? && !(w.pool[fd].state.Prefill? && w.pool[fd].prefillIdx > 0))
  {
    LoggedSessions(m, cfg, w, h, fd);
    FreshSeqIsEmpty(w.pool, w.kv, w.nextSeq);
    RequestRestarts(m, cfg, w.pool[fd], w.nextSeq, ev, metrics);
    hide AfterRequest, Inv, EntriesOk, WireOk;
    CellsWhileBusy(m, cfg, w.pool[fd], SeqCells(w.kv, w.pool[fd]), h.logs[fd]);
  }

  lemma RequestRestarts(m: LanguageModel, cfg: Config, s: ClientSession, nextSeq: nat, ev: ReadEvent, metrics: bytes)
    requires Answers(s, ev) && AfterRequest(m, cfg, s, nextSeq, ev, metrics).s.state.Prefill?
    ensures var out := AfterRequest(m, cfg, s, nextSeq, ev, metrics);
            && out.s.nPast == 0 && out.s.prefillIdx == 0
            && out.s.seqId == if s.seqId < 0 then nextSeq else s.seqId
  {
    hide Wire, Classify, TryReadFrame;
  }

  lemma CellsWhileBusy(m: LanguageModel, cfg: Config, s: ClientSession, cells: seq<Cell>, log: Log)
    requires SessionOk(m, cfg, s, cells, log) && !s.state.Errored?
    ensures cells == [] <==> !s.state.Decode? && !(s.state.Prefill? && s.prefillIdx > 0)
    ensures s.state.Prefill? || s.state.Decode? ==> s.seqId >= 0
  {
    hide EntriesOk, WireOk;
  }

  /** A well-formed request starts from scratch, whatever the session is doing, and leaves the KV memory as it is. */
  lemma RequestStarts(m: LanguageModel, cfg: Config, w: State, fd: Fd, ev: ReadEvent, js: bytes, id: bytes, prompt: bytes, rest: bytes)
    requires fd in w.pool && w.pool[fd].rx == []
    requires !ev.eof && !ev.failed && Sendable(js, MAX_FRAME_BYTES) && ev.arrived == Frame(js) + rest
    requires Classify(cfg, js) == Generate(id, prompt) && m.tokenize(prompt) != []
    ensures var s, w1 := w.pool[fd], NextReadable(m, cfg, w, fd, ev, [], 0);
            && fd in w1.pool && w1.pool == w.pool[fd := w1.pool[fd]]
            && w1.kv == w.kv && w1.writers == w.writers && w1.readers == w.readers && w1.sched == w.sched
            && Started(s, w1.pool[fd]) && w1.pool[fd].promptTokens == m.tokenize(prompt) && w1.pool[fd].rx == rest
            && w1.pool[fd].seqId == if s.seqId < 0 then w.nextSeq else s.seqId
  {
    hide Classify, Wire, CloseFd, WriteNow;
    FrameIsRead(js, rest, MAX_FRAME_BYTES);
    var s := w.pool[fd];
    assert s.rx + ev.arrived == Frame(js) + rest;
    hide TryReadFrame, Frame;
    assert HandlePayload(m, cfg, AfterRead(s, ev).(rx := rest), w.nextSeq, js, ev) == AfterRequest(m, cfg, s, w.nextSeq, ev, []);
  }

  lemma RequestAnswers(s: ClientSession, ev: ReadEvent, js: bytes)
    requires s.rx == [] && !ev.failed && Sendable(js, MAX_FRAME_BYTES) && ev.arrived == Frame(js) + []
    ensures Answers(s, ev)
  {
    hide TryReadFrame, Frame;
    FrameIsRead(js, [], MAX_FRAME_BYTES);
    assert s.rx + ev.arrived == Frame(js) + [];
  }

  /** The request with id `a` and prompt `b` is small and understood. */
  lemma SmallRequest(cfg: Config)
    requires cfg.maxPromptBytes >= 1
    ensures Classify(cfg, CliPayload([97], [98], true, [])) == Generate([97], [98])
    ensures Sendable(CliPayload([97], [98], true, []), MAX_FRAME_BYTES)
  {
    hide Classify, Tail, RequestPayload, Json.Literal, Json.At, Opens;
    assert |TYPE| == 4 && |EVENT| == 5;
    CliRequestClassified(cfg, [97], [98], true, []);
    TailFields(true, []);
    StreamKeyBytes(Tail(true, []), true, []);
    RequestLayout([97], [98], Tail(true, []));
    PlainEscape([97]);
    PlainEscape([98]);
    assert |FieldsText([])| == 1;
  }

  // ---------------------------------------------------------------- a run with one request

  /** The event brings one request of the CLI, perhaps with more bytes behind it, and the daemon can serve it. */
  ghost predicate AsksMore(m: LanguageModel, cfg: Config, cap: int, ev: ReadEvent, rest: bytes) {
    && cap >= 1 && cfg.maxSessions >= 1 && cfg.maxPromptBytes >= 1 && m.tokenize([98]) != []
    && !ev.eof && !ev.failed && ev.arrived == Frame(CliPayload([97], [98], true, [])) + rest
  }

  ghost predicate Asks(m: LanguageModel, cfg: Config, cap: int, ev: ReadEvent) {
    AsksMore(m, cfg, cap, ev, [])
  }

  /** A client connects as descriptor 3 and sends its request. */
  function Ask(ev: ReadEvent): seq<Step> {
    [Accept(3, 0), Readable(3, ev, [], 0)]
  }

  /** One session, waiting for its first token with an empty output buffer. */
  ghost predicate OneWaits(m: LanguageModel, cap: int, w: State, rest: bytes) {
    && (forall g :: g in w.pool <==> g == 3) && w.writers == {} && 3 in w.readers && w.sched == InitialSched(cap)
    && var s := w.pool[3];
    && s.state.Prefill? && s.promptTokens == m.tokenize([98]) != [] && s.rx == rest && s.tx == []
    && s.prefillIdx == 0 && s.nPast == 0 && s.generatedCount == 0 && s.firstEmitNs == 0
  }

  lemma AskWaits(m: LanguageModel, cfg: Config, cap: int, ev: ReadEvent, rest: bytes)
    requires AsksMore(m, cfg, cap, ev, rest)
    ensures Legal(m, cfg, cap, Ask(ev)) && OneWaits(m, cap, After(m, cfg, cap, Ask(ev)).state, rest)
  {
    hide CliPayload, NextReadable, Classify, Sendable, Frame, InitialSched, Answers, NextHistory;
    var w0, w1 := InitialState(cap), NextAccept(cfg, InitialState(cap), 3, 0);
    SmallRequest(cfg);
    RequestStarts(m, cfg, w1, 3, ev, CliPayload([97], [98], true, []), [97], [98], rest);
    assert Ask(ev)[..1] == [Accept(3, 0)] && [Accept(3, 0)][..0] == [];
    assert After(m, cfg, cap, []).state == w0;
    assert After(m, cfg, cap, [Accept(3, 0)]).state == w1;
    assert After(m, cfg, cap, Ask(ev)).state == NextReadable(m, cfg, w1, 3, ev, [], 0);
    assert Legal(m, cfg, cap, []) && Legal(m, cfg, cap, [Accept(3, 0)]);
  }

  /** The plan of the next tick serves that session. */
  lemma OneIsPlanned(m: LanguageModel, cfg: Config, cap: int, w: State, order: seq<Fd>) returns (i: nat)
    requires cap >= 1 && OneWaits(m, cap, w, []) && Enumerates(order, w.pool)
    ensures var items := FinalPlan(cfg, w.pool, w.sched, order).items;
            i < |items| && items[i].fd == 3 && items[i].phase.PREFILL? && Chunk(items[i]) > 0
  {
    assert AllSmooth(cfg, w);
    i := ReadyWorkIsServed(cfg, w, order, 3);
    FinalPlanItems(cfg, w.pool, w.sched, order);
    hide FinalPlan;
    var items := FinalPlan(cfg, w.pool, w.sched, order).items;
    assert FinalItem(w.pool, items[i]);
  }

  /** With a successful model call it decodes afterwards. */
  lemma OneDecodes(m: LanguageModel, cfg: Config, cap: int, w: State, h: History, env: TickEnv)
    requires Inv(m, cfg, w, h) && cap >= 1 && OneWaits(m, cap, w, []) && Enumerates(env.order, w.pool) && env.ok && env.nullRows == {}
    ensures var w1 := NextTick(m, cfg, w, env);
            && 3 in w1.pool && w1.pool[3].state.Decode? && w1.pool[3].rx == [] && w1.pool[3].promptTokens == m.tokenize([98])
            && 3 in w1.readers
  {
    TickReaders(m, cfg, w, env);
    hide Inv, FinalPlan, NextTick, RunBatch, TokenOf, Wire, FinalItems, InitialSched, Enumerates;
    var items := TickItems(m, cfg, w, h, env);
    var i := OneIsPlanned(m, cfg, cap, w, env.order);
    assert Enactable(w.pool, items[i]);
    BusySession(m, cfg, env, w.kv, w.pool, items, i);
  }

  /** Connecting, asking and one successful tick is a legal run that leaves the session decoding. */
  lemma AskDecodes(m: LanguageModel, cfg: Config, cap: int, ev: ReadEvent, env: TickEnv)
    requires Asks(m, cfg, cap, ev) && env.order == [3] && env.ok && env.nullRows == {}
    ensures Legal(m, cfg, cap, Ask(ev) + [Tick(env)])
    ensures var w := After(m, cfg, cap, Ask(ev) + [Tick(env)]).state;
            && 3 in w.pool && w.pool[3].state.Decode? && w.pool[3].rx == [] && w.pool[3].promptTokens == m.tokenize([98])
            && 3 in w.readers
  {
    hide After, Legal, Inv, NextTick, Ask, InitialSched;
    AskWaits(m, cfg, cap, ev, []);
    var x := After(m, cfg, cap, Ask(ev));
    RunKeepsInv(m, cfg, cap, Ask(ev));
    OneDecodes(m, cfg, cap, x.state, x.history, env);
    LegalSnoc(m, cfg, cap, Ask(ev), Tick(env));
  }

  // ---------------------------------------------------------------- the runs

  /** The request is sent once more while its session decodes: it starts on the cells of the first one. */
  lemma SecondRequestLeavesStaleCell(m: LanguageModel, cfg: Config, cap: int, ev: ReadEvent, env: TickEnv)
    requires Asks(m, cfg, cap, ev) && env.order == [3] && env.ok && env.nullRows == {}
    ensures Legal(m, cfg, cap, Ask(ev) + [Tick(env)])
    ensures var w := After(m, cfg, cap, Ask(ev) + [Tick(env)]).state;
            var again := Readable(3, ev, [], 0);
            var w1 := Next(m, cfg, w, again);
            && Possible(w, again) && !Polite(w, again)
            && 3 in w1.pool && w1.pool[3].state.Prefill? && w1.pool[3].nPast == 0 && SeqCells(w1.kv, w1.pool[3]) != []
  {
    hide After, Legal, Inv, NextReadable, Ask, CliPayload, Classify, Sendable, SessionOk, Frame;
    AskDecodes(m, cfg, cap, ev, env);
    var x := After(m, cfg, cap, Ask(ev) + [Tick(env)]);
    RunKeepsInv(m, cfg, cap, Ask(ev) + [Tick(env)]);
    LoggedSessions(m, cfg, x.state, x.history, 3);
    CellsWhileBusy(m, cfg, x.state.pool[3], SeqCells(x.state.kv, x.state.pool[3]), x.history.logs[3]);
    SmallRequest(cfg);
    RequestAnswers(x.state.pool[3], ev, CliPayload([97], [98], true, []));
    RequestStarts(m, cfg, x.state, 3, ev, CliPayload([97], [98], true, []), [97], [98], []);
  }

  /** A prompt of more than 16 tokens has lost its end when its first token is sampled. */
  lemma LongPromptIsCut(m: LanguageModel, cfg: Config, cap: int, ev: ReadEvent, env: TickEnv)
    requires Asks(m, cfg, cap, ev) && env.order == [3] && env.ok && env.nullRows == {} && |m.tokenize([98])| > 16
    ensures Legal(m, cfg, cap, Ask(ev) + [Tick(env)])
    ensures var x := After(m, cfg, cap, Ask(ev) + [Tick(env)]);
            && 3 in x.history.logs && x.history.logs[3].entries != []
            && var e := Last(x.history.logs[3].entries);
               e.prompt == m.tokenize([98]) && e.tokens != [] && e.fed < e.prompt
  {
    hide After, Legal, Inv, EntriesOk, WireOk, CliPayload, Frame;
    AskDecodes(m, cfg, cap, ev, env);
    var steps := Ask(ev) + [Tick(env)];
    var x := After(m, cfg, cap, steps);
    RunKeepsInv(m, cfg, cap, steps);
    LoggedSessions(m, cfg, x.state, x.history, 3);
    LongPromptsAreCut(m, cfg, cap, steps, 3, |x.history.logs[3].entries| - 1);
  }

  /** With `max_tokens` zero that run has already emitted a token. */
  lemma LimitIsExceeded(m: LanguageModel, cfg: Config, cap: int, ev: ReadEvent, env: TickEnv)
    requires Asks(m, cfg, cap, ev) && env.order == [3] && env.ok && env.nullRows == {} && cfg.maxTokens == 0
    ensures Legal(m, cfg, cap, Ask(ev) + [Tick(env)])
    ensures var x := After(m, cfg, cap, Ask(ev) + [Tick(env)]);
            && 3 in x.history.logs && x.history.logs[3].entries != []
            && |Last(x.history.logs[3].entries).tokens| > cfg.maxTokens
  {
    hide After, Legal, Inv, EntriesOk, WireOk, CliPayload, Frame;
    AskDecodes(m, cfg, cap, ev, env);
    var x := After(m, cfg, cap, Ask(ev) + [Tick(env)]);
    RunKeepsInv(m, cfg, cap, Ask(ev) + [Tick(env)]);
    LoggedSessions(m, cfg, x.state, x.history, 3);
  }

  /** Short prompts are cut too: with a budget of 20 tokens, the second of two waiting prompts of 16. */
  lemma LaterPromptIsCut(cfg: Config, pool: Pool, sched: SchedState, order: seq<Fd>, f: Fd, g: Fd)
    requires Enumerates(order, pool) && f in pool && g in pool && PrefillReady(pool[g])
    requires pool[f].firstEmitNs == 0 && pool[g].firstEmitNs == 0 && Remaining(pool[f]) == 16 && Remaining(pool[g]) == 16
    requires f != g && Waiting(pool, order, sched.rrPrefill) == [f, g] && Min(sched.tuning.target, sched.cap) == 20
    ensures BatchItem(g, PREFILL, 16) !in FinalPlan(cfg, pool, sched, order).items
  {
    hide FinalPlan, DecodePool;
    WholePromptIff(cfg, pool, sched, order, g);
    var decoders := DecodePool(pool, order);
    var all := DecodeItems(decoders, sched.rrDecode, |decoders|);
    OnesSum(all);
    assert [f, g][1..] == [g] && [g][1..] == [];
    assert UpTo([g], g) == [g] && UpTo([f, g], g) == [f, g];
    var full := FullItems(pool, [f, g]);
    assert FullItems(pool, [g]) == [FullItem(pool, g)];
    assert full == [FullItem(pool, f), FullItem(pool, g)];
    assert Tokens(full) == 32 by { TokensSnoc([FullItem(pool, f)], FullItem(pool, g)); TokensSnoc([], FullItem(pool, f)); }
    TokensAppend(all, full);
  }

  /**
   Two requests in one write: the second one is complete in the input buffer and is not looked at,
   however long the run goes on, until the client sends something more.
   */
  lemma SecondFrameWaits(m: LanguageModel, cfg: Config, cap: int, ev: ReadEvent, more: seq<Step>)
    requires AsksMore(m, cfg, cap, ev, Frame(CliPayload([97], [98], true, []))) && Legal(m, cfg, cap, Ask(ev) + more)
    requires forall i :: 0 <= i < |more| ==> !((more[i].Readable? || more[i].Accept?) && more[i].fd == 3)
    requires 3 in After(m, cfg, cap, Ask(ev) + more).state.pool
    ensures Legal(m, cfg, cap, Ask(ev))
    ensures TryReadFrame(After(m, cfg, cap, Ask(ev) + more).state.pool[3].rx, MAX_FRAME_BYTES).Got?
  {
    hide After, Legal, Ask, CliPayload, Frame, TryReadFrame, InitialSched, Sendable;
    var js := CliPayload([97], [98], true, []);
    AskWaits(m, cfg, cap, ev, Frame(js));
    FrameStaysBehind(m, cfg, cap, Ask(ev), more, 3);
    SmallRequest(cfg);
    FrameIsRead(js, [], MAX_FRAME_BYTES);
    assert Frame(js) + [] == Frame(js);
  }

  /** A read error right after connecting: the session stays open, is not marked as closed, and is never read again. */
  lemma FailedReadStrands(m: LanguageModel, cfg: Config, cap: int, ev: ReadEvent, more: seq<Step>)
    requires cap >= 1 && cfg.maxSessions >= 1 && ev.failed && ev.arrived == []
    requires Legal(m, cfg, cap, Ask(ev) + more) && forall i :: 0 <= i < |more| ==> !(more[i].Accept? && more[i].fd == 3)
    ensures Legal(m, cfg, cap, Ask(ev))
    ensures var w := After(m, cfg, cap, Ask(ev)).state; 3 in w.pool && !w.pool[3].readClosed && 3 !in w.readers
    ensures 3 !in After(m, cfg, cap, Ask(ev) + more).state.readers
  {
    FailedRead(m, cfg, cap, ev);
    hide After, Legal, LinesAfter, Ask;
    LostForGood(m, cfg, cap, Ask(ev), more, 3);
    ReadInterestIff(m, cfg, cap, Ask(ev), 3);
  }

  lemma FailedRead(m: LanguageModel, cfg: Config, cap: int, ev: ReadEvent)
    requires cap >= 1 && cfg.maxSessions >= 1 && ev.failed && ev.arrived == []
    ensures Legal(m, cfg, cap, Ask(ev))
    ensures var w, lines := After(m, cfg, cap, Ask(ev)).state, LinesAfter(m, cfg, cap, Ask(ev));
            3 in w.pool && !w.pool[3].readClosed && 3 in lines && lines[3].input.Lost?
  {
    hide TryReadFrame, HandlePayload, InitialSched, NextHistory, EndsInput;
    var w1 := NextAccept(cfg, InitialState(cap), 3, 0);
    assert Ask(ev)[..1] == [Accept(3, 0)] && [Accept(3, 0)][..0] == [];
    assert After(m, cfg, cap, []).state == InitialState(cap) && LinesAfter(m, cfg, cap, []) == map[];
    assert After(m, cfg, cap, [Accept(3, 0)]).state == w1;
    assert Legal(m, cfg, cap, []) && Legal(m, cfg, cap, [Accept(3, 0)]);
  }

  /** If the model call fails instead, the session is left with output and without Write interest. */
  lemma FailedDecodeLosesWakeup(m: LanguageModel, cfg: Config, cap: int, ev: ReadEvent, env: TickEnv)
    requires Asks(m, cfg, cap, ev) && env.order == [3] && !env.ok
    ensures Legal(m, cfg, cap, Ask(ev) + [Tick(env)])
    ensures Armed(After(m, cfg, cap, Ask(ev)).state) && !Armed(After(m, cfg, cap, Ask(ev) + [Tick(env)]).state)
  {
    hide After, Legal, Inv, NextTick, Ask, FinalPlan, InitialSched;
    AskWaits(m, cfg, cap, ev, []);
    var x := After(m, cfg, cap, Ask(ev));
    RunKeepsInv(m, cfg, cap, Ask(ev));
    var i := OneIsPlanned(m, cfg, cap, x.state, env.order);
    assert ServedFd(FinalPlan(cfg, x.state.pool, x.state.sched, env.order).items, 3);
    FailedTickArmedIff(m, cfg, x.state, x.history, env);
    LegalSnoc(m, cfg, cap, Ask(ev), Tick(env));
  }
}
