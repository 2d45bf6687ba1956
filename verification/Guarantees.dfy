/** What the invariant means to a client, for every run. */
module Guarantees {
  import opened Bounds
  import opened Bytes
  import opened Sessions
  import opened Protocol
  import opened Batch
  import opened TickSpec
  import opened SessionManagement
  import opened Lifecycle
  import opened Histories
  import opened Invariants
  import opened Runs
  import opened Controller
  import opened Accounting
  import Solo

  // ---------------------------------------------------------------- batching refines solo decoding

  lemma EntryOfRun(m: LanguageModel, cfg: Config, cap: int, steps: seq<Step>, fd: Fd, i: nat)
    requires cap >= 1 && Legal(m, cfg, cap, steps)
    requires fd in After(m, cfg, cap, steps).history.logs && i < |After(m, cfg, cap, steps).history.logs[fd].entries|
    ensures EntryOk(m, cfg, After(m, cfg, cap, steps).history.logs[fd].entries[i])
  {
    RunKeepsInv(m, cfg, cap, steps);
    hide EntryOk, After;
  }

  /**
   In every run, each request has produced exactly the tokens that decoding it alone produces
   with the same draws, from the prompt prefix it was fed and up to the same end; that is at
   most `maxTokens + 1` tokens, and "length" exactly at the limit.
   */
  lemma RequestsRefineSolo(m: LanguageModel, cfg: Config, cap: int, steps: seq<Step>, fd: Fd, i: nat)
    requires cap >= 1 && Legal(m, cfg, cap, steps)
    requires fd in After(m, cfg, cap, steps).history.logs && i < |After(m, cfg, cap, steps).history.logs[fd].entries|
    ensures var e := After(m, cfg, cap, steps).history.logs[fd].entries[i];
            var solo := Solo.Decode(m, cfg.maxTokens, e.fed, e.params, e.draws);
            && Tokenised(m, cfg, e.prompt) && e.fed <= e.prompt && (e.tokens != [] ==> e.fed != [])
            && (e.end.Open? || e.end.Broke? ==> solo == Solo.SoloRun(e.tokens, Solo.Running))
            && (e.end.Sampled? ==> solo == Solo.SoloRun(e.tokens, Solo.Ended(e.end.reason)))
            && (e.end.NoPrompt? || e.end.Answered? ==> e.tokens == [])
            && |e.tokens| <= cfg.maxTokens + 1
            && (e.end.Sampled? ==> (e.end.reason == LENGTH <==> |e.tokens| == cfg.maxTokens + 1))
  {
    EntryOfRun(m, cfg, cap, steps, fd, i);
    var e := After(m, cfg, cap, steps).history.logs[fd].entries[i];
    hide After, Legal;
    Solo.DecodeBound(m, cfg.maxTokens, e.fed, e.params, e.draws);
    hide Solo.Decode;
  }

  /**
   The documented limit, over runs: a request has emitted more than `maxTokens` tokens exactly when
   it has been sampled more often and no sample of the continuation up to there ends it.
   */
  lemma LimitExceededInRuns(m: LanguageModel, cfg: Config, cap: int, steps: seq<Step>, fd: Fd, i: nat)
    requires cap >= 1 && Legal(m, cfg, cap, steps)
    requires fd in After(m, cfg, cap, steps).history.logs && i < |After(m, cfg, cap, steps).history.logs[fd].entries|
    ensures var e := After(m, cfg, cap, steps).history.logs[fd].entries[i];
            (|e.tokens| > cfg.maxTokens <==>
             |e.draws| > cfg.maxTokens && forall k :: 1 <= k <= cfg.maxTokens ==> !Solo.EndsAt(m, Solo.Free(m, e.fed, e.params, e.draws), k))
  {
    hide After, Legal, Solo.Decode, Solo.Free;
    EntryOfRun(m, cfg, cap, steps, fd, i);
    var e := After(m, cfg, cap, steps).history.logs[fd].entries[i];
    Solo.LimitExceededIff(m, cfg.maxTokens, e.fed, e.params, e.draws);
  }

  /** With greedy sampling the shared random numbers do not matter either. */
  lemma GreedyRequestsRefineSolo(m: LanguageModel, cfg: Config, cap: int, steps: seq<Step>, fd: Fd, i: nat, draws: seq<real>)
    requires cap >= 1 && Legal(m, cfg, cap, steps)
    requires fd in After(m, cfg, cap, steps).history.logs && i < |After(m, cfg, cap, steps).history.logs[fd].entries|
    requires var e := After(m, cfg, cap, steps).history.logs[fd].entries[i];
             Solo.IgnoresDraws(m, e.params) && |draws| == |e.draws|
    ensures var e := After(m, cfg, cap, steps).history.logs[fd].entries[i];
            e.tokens == if e.end.NoPrompt? || e.end.Answered? then [] else Solo.Decode(m, cfg.maxTokens, e.fed, e.params, draws).tokens
  {
    EntryOfRun(m, cfg, cap, steps, fd, i);
    var e := After(m, cfg, cap, steps).history.logs[fd].entries[i];
    hide After, Legal;
    Solo.GreedyIsDeterministic(m, cfg.maxTokens, e.fed, e.params, e.draws, draws);
    hide Solo.Decode;
  }

  // ---------------------------------------------------------------- KV memory

  /** The session's cells are the fed prompt prefix, then `samples`, at positions from zero on. */
  ghost predicate Holds(kv: KvStore, s: ClientSession, samples: seq<int>) {
    && s.prefillIdx <= |s.promptTokens| && s.nPast == s.prefillIdx + s.generatedCount
    && SeqCells(kv, s) == Solo.Place(s.promptTokens[..s.prefillIdx] + samples)
  }

  /** A session in PREFILL holds the prefix fed so far and no sample. */
  ghost predicate PrefillsOn(w: State, fd: Fd) {
    fd in w.pool && w.pool[fd].generatedCount == 0 && Holds(w.kv, w.pool[fd], [])
  }

  /**
   A session in DECODE holds its samples but the pending one. If its logits row was missing there
   is no pending one: the last sample has been fed too, and the session waits for ever.
   */
  ghost predicate DecodesOn(w: State, h: History, fd: Fd) {
    && fd in w.pool && fd in h.logs && h.logs[fd].entries != []
    && var s, e := w.pool[fd], Last(h.logs[fd].entries);
    && e.end.Open? && |e.tokens| == s.generatedCount + 1 && s.pendingTok == Last(e.tokens)
    && Holds(w.kv, s, if s.hasPendingTok then e.tokens[..s.generatedCount] else e.tokens)
  }

  /**
   KV memory in every run: live sessions have distinct sequence ids; sessions in PREFILL and
   DECODE hold the fed prompt prefix and their samples, in order and without gap, up to `n_past`;
   quiet sessions hold nothing, and cells without a live session do not exist.
   */
  lemma KvInvariant(m: LanguageModel, cfg: Config, cap: int, steps: seq<Step>)
    requires cap >= 1 && Legal(m, cfg, cap, steps)
    ensures var x := After(m, cfg, cap, steps);
            var w := x.state;
            && DistinctSeqs(w.pool)
            && (forall q: nat :: CellsOf(w.kv, q) != [] ==> HasOwner(w.pool, q))
            && (forall fd :: fd in w.pool && (w.pool[fd].state.RecvReq? || w.pool[fd].state.Stream?) ==> SeqCells(w.kv, w.pool[fd]) == [])
            && (forall fd :: fd in w.pool && w.pool[fd].state.Prefill? ==> PrefillsOn(w, fd))
            && (forall fd :: fd in w.pool && w.pool[fd].state.Decode? ==> DecodesOn(w, x.history, fd))
  {
    hide After, Legal, PrefillsOn, DecodesOn, SessionsOk, LogsOk, SchedOk;
    var x := After(m, cfg, cap, steps);
    RunKeepsInv(m, cfg, cap, steps);
    forall fd | fd in x.state.pool
      ensures (x.state.pool[fd].state.RecvReq? || x.state.pool[fd].state.Stream? ==> SeqCells(x.state.kv, x.state.pool[fd]) == [])
      ensures x.state.pool[fd].state.Prefill? ==> PrefillsOn(x.state, fd)
      ensures x.state.pool[fd].state.Decode? ==> DecodesOn(x.state, x.history, fd)
    {
      LoggedSessions(m, cfg, x.state, x.history, fd);
      SessionHolds(m, cfg, x.state, x.history, fd);
    }
  }

  lemma SessionHolds(m: LanguageModel, cfg: Config, w: State, h: History, fd: Fd)
    requires fd in w.pool && fd in h.logs && SessionOk(m, cfg, w.pool[fd], SeqCells(w.kv, w.pool[fd]), h.logs[fd])
    ensures w.pool[fd].state.RecvReq? || w.pool[fd].state.Stream? ==> SeqCells(w.kv, w.pool[fd]) == []
    ensures w.pool[fd].state.Prefill? ==> PrefillsOn(w, fd)
    ensures w.pool[fd].state.Decode? ==> DecodesOn(w, h, fd)
  {
    hide EntriesOk, WireOk;
    var s := w.pool[fd];
    assert s.prefillIdx <= |s.promptTokens| ==> s.promptTokens[..s.prefillIdx] + [] == s.promptTokens[..s.prefillIdx];
  }

  // ---------------------------------------------------------------- output

  /** Token events, then at most one closing event; every event carries the id of its request. */
  ghost predicate Grammar(id: bytes, es: seq<Event>, limit: nat) {
    && (forall k :: 0 <= k < |es| - 1 ==> es[k].Token?)
    && (forall k :: 0 <= k < |es| ==> es[k].Snapshot? || es[k].id == id)
    && |es| <= limit + 1 && (es != [] && es[|es| - 1].Token? ==> |es| <= limit)
  }

  lemma {:induction false} TokensGrammar(m: LanguageModel, id: bytes, tokens: seq<int>)
    ensures |TokensOut(m, id, tokens)| <= |tokens|
    ensures forall k :: 0 <= k < |TokensOut(m, id, tokens)| ==> TokensOut(m, id, tokens)[k].Token? && TokensOut(m, id, tokens)[k].id == id
  {
    if tokens != [] { TokensGrammar(m, id, tokens[..|tokens| - 1]); }
  }

  lemma EventsGrammar(m: LanguageModel, e: Entry, limit: nat)
    requires |e.tokens| <= limit
    ensures Grammar(e.id, EventsOf(m, e), limit)
    ensures e.end.Open? ==> forall k :: 0 <= k < |EventsOf(m, e)| ==> EventsOf(m, e)[k].Token?
    ensures !e.end.Open? ==> EventsOf(m, e) != [] && !EventsOf(m, e)[|EventsOf(m, e)| - 1].Token?
  {
    TokensGrammar(m, e.id, e.tokens);
  }

  /**
   Output of every run, on open and on closed connections: the bytes delivered are a prefix of
   the frames of the requests' events, and while the connection is open the rest is queued. Each
   request has token events, at most `maxTokens + 1`, and at most one closing event behind them;
   only the last request of a connection can still be open.
   */
  lemma OutputGrammar(m: LanguageModel, cfg: Config, cap: int, steps: seq<Step>, fd: Fd, i: nat)
    requires cap >= 1 && Legal(m, cfg, cap, steps)
    requires fd in After(m, cfg, cap, steps).history.logs && i < |After(m, cfg, cap, steps).history.logs[fd].entries|
    ensures var x := After(m, cfg, cap, steps);
            var log := x.history.logs[fd];
            && log.delivered <= Wire(AllEvents(m, log.entries))
            && (fd in x.state.pool ==> log.delivered + x.state.pool[fd].tx == Wire(AllEvents(m, log.entries)))
            && Grammar(log.entries[i].id, EventsOf(m, log.entries[i]), cfg.maxTokens + 1)
            && (log.entries[i].end.Open? ==> i == |log.entries| - 1)
  {
    hide After, Legal, Grammar, PhaseOk, Wire, EntryOk, EventsOf, SessionsOk, SchedOk, Owned, SeqsBelow;
    var x := After(m, cfg, cap, steps);
    var log := x.history.logs[fd];
    RequestsRefineSolo(m, cfg, cap, steps, fd, i);
    RunKeepsInv(m, cfg, cap, steps);
    if fd in x.state.pool { LoggedSessions(m, cfg, x.state, x.history, fd); }
    EventsGrammar(m, log.entries[i], cfg.maxTokens + 1);
    assert LogOk(m, cfg, log);
  }

  /**
   The client decodes a prefix of those events from whatever has been delivered, and all of them
   once everything has been delivered; that is so whenever nothing is queued.
   */
  lemma ClientSeesPrefix(m: LanguageModel, cfg: Config, cap: int, steps: seq<Step>, fd: Fd, maxFrame: nat) returns (k: nat)
    requires cap >= 1 && Legal(m, cfg, cap, steps) && fd in After(m, cfg, cap, steps).history.logs
    requires AllSendable(Payloads(AllEvents(m, After(m, cfg, cap, steps).history.logs[fd].entries)), maxFrame)
    ensures var x := After(m, cfg, cap, steps);
            var log := x.history.logs[fd];
            var es := AllEvents(m, log.entries);
            && k <= |es| && Drain(log.delivered, maxFrame).payloads == Payloads(es[..k])
            && (log.delivered == Wire(es) ==> k == |es|)
            && (fd in x.state.pool && x.state.pool[fd].tx == [] ==> log.delivered == Wire(es))
  {
    hide After, Legal, PhaseOk, Wire, EntriesOk, Payloads, SessionsOk, SchedOk, Owned, SeqsBelow, AllEvents, Drain;
    var x := After(m, cfg, cap, steps);
    var log := x.history.logs[fd];
    RunKeepsInv(m, cfg, cap, steps);
    if fd in x.state.pool { LoggedSessions(m, cfg, x.state, x.history, fd); }
    assert LogOk(m, cfg, log);
    k := ClientReadsEvents(AllEvents(m, log.entries), log.delivered, maxFrame);
  }

  // ---------------------------------------------------------------- closed connections

  /** The step closes the connection after a flush: not for idleness, and not because the socket broke. */
  ghost predicate FlushCloses(m: LanguageModel, cfg: Config, w: State, step: Step) {
    && (step.Readable? || (step.Writable? && !step.broken))
    && step.fd in w.pool && step.fd !in Next(m, cfg, w, step).pool
  }

  /** A connection that the daemon closes after a flush has been sent everything. */
  lemma FlushDeliversAll(m: LanguageModel, cfg: Config, w: State, h: History, step: Step)
    requires Inv(m, cfg, w, h) && Polite(w, step) && FlushCloses(m, cfg, w, step)
    ensures step.fd in NextHistory(m, cfg, w, h, step).logs
    ensures var log := NextHistory(m, cfg, w, h, step).logs[step.fd];
            log.delivered == Wire(AllEvents(m, log.entries))
  {
    var fd := step.fd;
    LoggedSessions(m, cfg, w, h, fd);
    if step.Writable? {
      WriteDeliversAll(m, cfg, w, h, step);
    } else {
      ReadDeliversAll(m, cfg, w, h, step);
    }
  }

  lemma WriteDeliversAll(m: LanguageModel, cfg: Config, w: State, h: History, step: Step)
    requires Inv(m, cfg, w, h) && FlushCloses(m, cfg, w, step) && step.Writable? && step.fd in h.logs
    ensures var log := NextHistory(m, cfg, w, h, step).logs[step.fd];
            log.delivered == Wire(AllEvents(m, log.entries))
  {
    hide Inv, Wire, Unsent, PhaseOk, EntriesOk;
    LoggedSessions(m, cfg, w, h, step.fd);
    var s := w.pool[step.fd];
    UnsentIsSuffix(s.tx, step.writes);
    assert Unsent(s.tx, step.writes) == [];
    assert s.tx[..|s.tx|] == s.tx;
  }

  lemma ReadDeliversAll(m: LanguageModel, cfg: Config, w: State, h: History, step: Step)
    requires Inv(m, cfg, w, h) && Polite(w, step) && FlushCloses(m, cfg, w, step) && step.Readable? && step.fd in h.logs
    ensures var log := NextHistory(m, cfg, w, h, step).logs[step.fd];
            log.delivered == Wire(AllEvents(m, log.entries))
  {
    hide Inv, Wire, PhaseOk, EntriesOk, AfterRequest, Answers, AllEvents;
    ReadKeepsSession(m, cfg, w, h, step.fd, step.ev, step.metrics);
    var out := AfterRequest(m, cfg, w.pool[step.fd], w.nextSeq, step.ev, step.metrics);
    var n := Min(step.wrote, |out.s.tx|);
    assert out.wantsWrite && out.s.tx[n..] == [];
    assert out.s.tx[..n] == out.s.tx;
  }

  /** Only an accepted client brings a new descriptor. */
  lemma NoNewSession(m: LanguageModel, cfg: Config, w: State, h: History, step: Step, fd: Fd)
    requires Inv(m, cfg, w, h) && Possible(w, step) && fd !in w.pool && !(step.Accept? && step.fd == fd)
    ensures fd !in Next(m, cfg, w, step).pool
  {
    hide AfterRequest, WithoutSeq, Unsent, NextTick, Inv;
    if step.Tick? { TickPool(m, cfg, w, h, step.env); }
  }

  lemma TickPool(m: LanguageModel, cfg: Config, w: State, h: History, env: TickEnv)
    requires Inv(m, cfg, w, h) && Enumerates(env.order, w.pool)
    ensures forall fd :: fd in NextTick(m, cfg, w, env).pool <==> fd in w.pool
  {
    hide FinalPlan, RunBatch, NextSched, FinalItems, Inv;
    InvPoolOk(m, cfg, w, h);
    var items := FinalPlan(cfg, w.pool, w.sched, env.order).items;
    FinalPlanItems(cfg, w.pool, w.sched, env.order);
    FinalItemsEnactable(w.pool, items);
    TickKeys(m, cfg, w, h, env, items);
  }

  /** Nothing more is recorded of a closed connection until its descriptor is used again. */
  lemma ClosedLogStays(m: LanguageModel, cfg: Config, w: State, h: History, step: Step, fd: Fd)
    requires fd !in w.pool && fd in h.logs && !(step.Accept? && step.fd == fd)
    ensures fd in NextHistory(m, cfg, w, h, step).logs && NextHistory(m, cfg, w, h, step).logs[fd] == h.logs[fd]
  {
    hide AfterRequest, LogTick, LogRead, LogWrite, FinalPlan, AllEnactable;
  }

  /**
   Connections closed after a flush, in every run: all events of all their requests have been
   delivered, whatever happens afterwards on other connections.
   */
  lemma {:induction false} FlushedClientsGotAll(m: LanguageModel, cfg: Config, cap: int, steps: seq<Step>, step: Step, more: seq<Step>)
    requires cap >= 1 && Legal(m, cfg, cap, steps + [step] + more)
    requires FlushCloses(m, cfg, After(m, cfg, cap, steps).state, step)
    requires forall i :: 0 <= i < |more| ==> !(more[i].Accept? && more[i].fd == step.fd)
    ensures var x := After(m, cfg, cap, steps + [step] + more);
            && step.fd !in x.state.pool && step.fd in x.history.logs
            && var log := x.history.logs[step.fd];
               log.delivered == Wire(AllEvents(m, log.entries))
    decreases |more|
  {
    hide Next, NextHistory, Possible, Polite, Inv, Wire, AllEvents;
    if more == [] {
      assert steps + [step] + more == steps + [step] && (steps + [step])[..|steps|] == steps;
      RunKeepsInv(m, cfg, cap, steps);
      var x := After(m, cfg, cap, steps);
      FlushDeliversAll(m, cfg, x.state, x.history, step);
    } else {
      var n := |more| - 1;
      var all := steps + [step] + more;
      assert all[..|all| - 1] == steps + [step] + more[..n];
      FlushedClientsGotAll(m, cfg, cap, steps, step, more[..n]);
      RunKeepsInv(m, cfg, cap, steps + [step] + more[..n]);
      var x := After(m, cfg, cap, steps + [step] + more[..n]);
      NoNewSession(m, cfg, x.state, x.history, more[n], step.fd);
      ClosedLogStays(m, cfg, x.state, x.history, more[n], step.fd);
    }
  }

  // ---------------------------------------------------------------- controller and accounting

  /** The capacity never changes. */
  lemma {:induction false} CapIsFixed(m: LanguageModel, cfg: Config, cap: int, steps: seq<Step>)
    ensures After(m, cfg, cap, steps).state.sched.cap == cap
  {
    hide NextHistory;
    if steps != [] {
      var n := |steps| - 1;
      CapIsFixed(m, cfg, cap, steps[..n]);
      StepKeepsCap(m, cfg, After(m, cfg, cap, steps[..n]).state, steps[n]);
      hide Next;
    }
  }

  lemma StepKeepsCap(m: LanguageModel, cfg: Config, w: State, step: Step)
    ensures Next(m, cfg, w, step).sched.cap == w.sched.cap
  {
    hide AfterRequest, FinalPlan, RunBatch, WithoutSeq, Unsent, AllEnactable;
  }

  /**
   Controller and accounting in every run: EWMA and target are those of the recorded decode
   times, every call counts exactly the rows of its batch, and the counters balance against the calls.
   */
  lemma SchedulerInvariant(m: LanguageModel, cfg: Config, cap: int, steps: seq<Step>)
    requires cap >= 1 && Legal(m, cfg, cap, steps)
    ensures var x := After(m, cfg, cap, steps);
            && x.state.sched.tuning == TuneAll(cap, Initial(cap), Times(x.history.calls))
            && TargetOk(cap, x.state.sched.tuning.target)
            && Balanced(x.state.sched.metrics, x.history.calls)
            && Sizes(x.history.calls, x.history.sizes)
  {
    hide After, Legal, Balanced, TargetOk, Times, TuneAll, Sizes;
    RunKeepsInv(m, cfg, cap, steps);
    CapIsFixed(m, cfg, cap, steps);
  }

  /** In every run the EWMA stays in any interval that holds 30 and all observed decode times. */
  lemma EwmaOfRuns(m: LanguageModel, cfg: Config, cap: int, steps: seq<Step>, lo: real, hi: real)
    requires cap >= 1 && Legal(m, cfg, cap, steps) && lo <= TICK_BUDGET_MS <= hi
    requires forall i :: 0 <= i < |After(m, cfg, cap, steps).history.calls| ==>
                           lo <= Millis(After(m, cfg, cap, steps).history.calls[i].durNs) <= hi
    ensures lo <= After(m, cfg, cap, steps).state.sched.tuning.ewma <= hi
  {
    hide After, Legal, Balanced, TargetOk, TuneAll, Sizes, Millis;
    SchedulerInvariant(m, cfg, cap, steps);
    EwmaStaysInside(cap, Initial(cap), Times(After(m, cfg, cap, steps).history.calls), lo, hi);
  }

  /** In every run whose last 17 + cap or more decode calls took at least 40 ms, the target is 8. */
  lemma OverloadOfRuns(m: LanguageModel, cfg: Config, cap: int, steps: seq<Step>, k: nat)
    requires cap >= 8 && Legal(m, cfg, cap, steps) && k + 17 + cap <= |After(m, cfg, cap, steps).history.calls|
    requires forall i :: k <= i < |After(m, cfg, cap, steps).history.calls| ==>
                           Millis(After(m, cfg, cap, steps).history.calls[i].durNs) >= 40.0
    ensures After(m, cfg, cap, steps).state.sched.tuning.target == 8
  {
    hide After, Legal, Balanced, TargetOk, TuneAll, Sizes;
    SchedulerInvariant(m, cfg, cap, steps);
    var times := Times(After(m, cfg, cap, steps).history.calls);
    assert times == times[..k] + times[k..];
    OverloadReachesFloor(cap, times[..k], times[k..]);
  }

  /** The same after 17 + n calls, where 0.7^n * cap < 9. */
  lemma OverloadOfRunsIsGeometric(m: LanguageModel, cfg: Config, cap: int, steps: seq<Step>, k: nat, n: nat)
    requires cap >= 8 && Legal(m, cfg, cap, steps) && k + 17 + n <= |After(m, cfg, cap, steps).history.calls|
    requires Scale(0.7, n, cap as real) < 9.0
    requires forall i :: k <= i < |After(m, cfg, cap, steps).history.calls| ==>
                           Millis(After(m, cfg, cap, steps).history.calls[i].durNs) >= 40.0
    ensures After(m, cfg, cap, steps).state.sched.tuning.target == 8
  {
    hide After, Legal, Balanced, TargetOk, TuneAll, Sizes, Scale;
    SchedulerInvariant(m, cfg, cap, steps);
    var times := Times(After(m, cfg, cap, steps).history.calls);
    assert times == times[..k] + times[k..];
    OverloadIsGeometric(cap, times[..k], times[k..], n);
  }

  /**
   In every run whose earlier decode calls took at most `hi` ms and whose last ones at most 20 ms:
   after the cool-down from `hi` and n more calls, where 1.125^n >= cap - 7, the target is the capacity.
   */
  lemma RecoveryOfRuns(m: LanguageModel, cfg: Config, cap: int, steps: seq<Step>, k: nat, hi: real, n: nat)
    requires cap >= 8 && Legal(m, cfg, cap, steps) && hi >= 30.0 && Scale(1.125, n, 1.0) >= cap as real - 7.0
    requires k + CoolDown(hi - 20.0) + n <= |After(m, cfg, cap, steps).history.calls|
    requires forall i :: 0 <= i < |After(m, cfg, cap, steps).history.calls| ==>
                           Millis(After(m, cfg, cap, steps).history.calls[i].durNs) <= if i < k then hi else 20.0
    ensures After(m, cfg, cap, steps).state.sched.tuning.target == cap
  {
    hide After, Legal, Balanced, TargetOk, TuneAll, Sizes, Scale, CoolDown;
    SchedulerInvariant(m, cfg, cap, steps);
    var times := Times(After(m, cfg, cap, steps).history.calls);
    assert times == times[..k] + times[k..];
    RecoveryReachesCap(cap, times[..k], hi, times[k..], n);
  }
}
