/** How much of its prompt a request is given, over whole runs. */
module PromptRuns {
  import opened Sessions
  import opened Policy
  import opened Bmt
  import opened Protocol
  import opened Batch
  import opened NonInterference
  import opened TickSpec
  import opened SessionManagement
  import opened Lifecycle
  import opened Histories
  import opened Invariants
  import opened Runs
  import opened Draining
  import opened WholePrompts

  // ---------------------------------------------------------------- one tick

  /** What a tick records of one connection. */
  lemma TickLog(m: LanguageModel, cfg: Config, w: State, h: History, env: TickEnv, fd: Fd) returns (items: seq<BatchItem>)
    requires Inv(m, cfg, w, h) && Enumerates(env.order, w.pool) && fd in w.pool
    ensures items == FinalPlan(cfg, w.pool, w.sched, env.order).items
    ensures FinalItems(w.pool, items) && AllEnactable(w.pool, items) && DistinctSeqs(w.pool)
    ensures var h1 := NextHistory(m, cfg, w, h, Tick(env));
            fd in h.logs && fd in h1.logs && h1.logs[fd] == LogTick(m, cfg, env, w.kv, w.pool, items, fd, h.logs[fd])
  {
    hide FinalPlan, LogTick, FinalItems, Inv, NextTick, RunBatch, SessionOk;
    LoggedSessions(m, cfg, w, h, fd);
    items := TickItems(m, cfg, w, h, env);
  }

  /** Item `i` is the one item of `fd`, and it feeds something. */
  ghost predicate TheItem(pool: Pool, items: seq<BatchItem>, fd: Fd, i: int) {
    && 0 <= i < |items| && items[i].fd == fd && Chunk(items[i]) > 0 && FinalItem(pool, items[i])
    && fd in pool && CanFeed(pool[fd], items[i])
    && forall k :: 0 <= k < |items| && items[k].fd == fd ==> k == i
  }

  ghost predicate Unserved(items: seq<BatchItem>, fd: Fd) {
    forall k :: 0 <= k < |items| && items[k].fd == fd ==> Chunk(items[k]) == 0
  }

  /** The item that serves a session, if any. */
  lemma TheItemOf(pool: Pool, items: seq<BatchItem>, fd: Fd) returns (i: int)
    requires FinalItems(pool, items) && AllEnactable(pool, items) && fd in pool
    ensures if i == -1 then Unserved(items, fd) else TheItem(pool, items, fd, i)
    ensures i >= 0 ==> ItemFor(items, fd) == i
    ensures ItemFor(items, fd) >= 0 && i == -1 ==> Chunk(items[ItemFor(items, fd)]) == 0
  {
    hide FinalItem, CanFeed;
    i := ItemFor(items, fd);
    if i >= 0 {
      assert FinalItem(pool, items[i]) && Enactable(pool, items[i]);
      OnlyItem(items, fd, i);
      if Chunk(items[i]) == 0 { i := -1; }
    }
  }

  /** The item that serves a session, and what it leaves in the log. */
  lemma ServedLog(m: LanguageModel, cfg: Config, w: State, env: TickEnv, items: seq<BatchItem>, fd: Fd, log: Log) returns (i: int)
    requires FinalItems(w.pool, items) && AllEnactable(w.pool, items) && DistinctSeqs(w.pool) && fd in w.pool
    ensures if i == -1 then Unserved(items, fd) else TheItem(w.pool, items, fd, i)
    ensures var log1 := LogTick(m, cfg, env, w.kv, w.pool, items, fd, log);
            if i == -1 then log1 == log
            else log.entries != [] ==>
              log1 == Amend(log, LogSample(m, cfg, env, SeqCells(w.kv, w.pool[fd]), w.pool[fd], items[i], Last(log.entries)))
  {
    hide LogSample, FinalItem;
    i := TheItemOf(w.pool, items, fd);
    if i == -1 {
      hide LogTick;
      IdleAt(m, cfg, w, env, items, fd, log);
    }
  }

  // ---------------------------------------------------------------- records only grow

  /** How a request stands that was given to the model. */
  predicate WhileServed(end: End) {
    end.Open? || end.Sampled? || end == Broke(E_RUNTIME_DECODE, DECODE_FAILED)
  }

  /** A request keeps its id, prompt and parameters; tokens are added; once it has one, what it was fed is settled. */
  ghost predicate Evolves(e: Entry, f: Entry) {
    && f.id == e.id && f.prompt == e.prompt && f.params == e.params && e.tokens <= f.tokens && e.draws <= f.draws
    && (e.tokens != [] ==> f.fed == e.fed) && (if e.end.Open? then WhileServed(f.end) else f == e)
  }

  lemma SampleEvolves(m: LanguageModel, cfg: Config, env: TickEnv, cells: seq<Cell>, s: ClientSession, it: BatchItem, e: Entry)
    requires CanFeed(s, it) && PhaseOk(s, cells, e) && (it.phase.DECODE? ==> DecodeReady(s)) && (it.phase.PREFILL? ==> PrefillReady(s))
    ensures Evolves(e, LogSample(m, cfg, env, cells, s, it, e))
  {
    hide TokenOf, Ends;
  }

  lemma TickEvolves(m: LanguageModel, cfg: Config, w: State, h: History, env: TickEnv, fd: Fd, i: nat)
    requires Inv(m, cfg, w, h) && Enumerates(env.order, w.pool) && fd in w.pool && fd in h.logs && i < |h.logs[fd].entries|
    ensures var h1 := NextHistory(m, cfg, w, h, Tick(env));
            && fd in h1.logs && i < |h1.logs[fd].entries| && |h1.logs[fd].entries| == |h.logs[fd].entries|
            && Evolves(h.logs[fd].entries[i], h1.logs[fd].entries[i])
  {
    hide NextHistory, LogTick, LogSample, Inv, PhaseOk, EntriesOk, WireOk, AllEnactable, FinalItems, FinalPlan, Enumerates, DistinctSeqs, Unserved, SeqCells;
    var items := TickLog(m, cfg, w, h, env, fd);
    LoggedSessions(m, cfg, w, h, fd);
    var log := h.logs[fd];
    var k := ServedLog(m, cfg, w, env, items, fd, log);
    if k >= 0 {
      SampleEvolves(m, cfg, env, SeqCells(w.kv, w.pool[fd]), w.pool[fd], items[k], Last(log.entries));
    }
  }

  lemma StepEvolves(m: LanguageModel, cfg: Config, w: State, h: History, step: Step, fd: Fd, i: nat)
    requires Inv(m, cfg, w, h) && Possible(w, step) && fd in h.logs && i < |h.logs[fd].entries| && !(step.Accept? && step.fd == fd)
    ensures var h1 := NextHistory(m, cfg, w, h, step);
            fd in h1.logs && i < |h1.logs[fd].entries| && Evolves(h.logs[fd].entries[i], h1.logs[fd].entries[i])
  {
    hide Inv, AfterRequest, Answers, LogTick, FinalPlan, AllEnactable, NewEntry;
    if step.Tick? && fd in w.pool {
      hide NextHistory;
      TickEvolves(m, cfg, w, h, step.env, fd, i);
    }
  }

  /** The record of a request evolves along every continuation of a run, until its descriptor is used again. */
  lemma {:induction false} RecordsEvolve(m: LanguageModel, cfg: Config, cap: int, steps: seq<Step>, more: seq<Step>, fd: Fd, i: nat)
    requires cap >= 1 && Legal(m, cfg, cap, steps + more)
    requires fd in After(m, cfg, cap, steps).history.logs && i < |After(m, cfg, cap, steps).history.logs[fd].entries|
    requires forall k :: 0 <= k < |more| ==> !(more[k].Accept? && more[k].fd == fd)
    ensures var x, y := After(m, cfg, cap, steps), After(m, cfg, cap, steps + more);
            && fd in y.history.logs && i < |y.history.logs[fd].entries|
            && Evolves(x.history.logs[fd].entries[i], y.history.logs[fd].entries[i])
    decreases |more|
  {
    hide Next, NextHistory, Possible, Polite, Inv;
    if more == [] {
      assert steps + more == steps;
    } else {
      var n := |more| - 1;
      var all := steps + more;
      assert all[..|all| - 1] == steps + more[..n] && all[|all| - 1] == more[n];
      RecordsEvolve(m, cfg, cap, steps, more[..n], fd, i);
      RunKeepsInv(m, cfg, cap, steps + more[..n]);
      var y := After(m, cfg, cap, steps + more[..n]);
      StepEvolves(m, cfg, y.state, y.history, more[n], fd, i);
    }
  }

  // ---------------------------------------------------------------- whole prompts

  /** The tick that gives a request its first token has given it the whole prompt exactly under the condition. */
  lemma TickFeedsWholeIff(m: LanguageModel, cfg: Config, w: State, h: History, env: TickEnv, fd: Fd)
    requires Inv(m, cfg, w, h) && Enumerates(env.order, w.pool) && env.ok
    requires fd in w.pool && PrefillReady(w.pool[fd]) && fd !in env.nullRows
    ensures var h1 := NextHistory(m, cfg, w, h, Tick(env));
            && fd in h1.logs && h1.logs[fd].entries != []
            && var e := Last(h1.logs[fd].entries);
               e.tokens != [] && e.fed == e.prompt <==> FitsWhole(cfg, w.pool, w.sched, env.order, fd)
  {
    hide NextHistory, LogTick, LogSample, Inv, EntriesOk, WireOk, FinalPlan, FitsWhole;
    var items := TickLog(m, cfg, w, h, env, fd);
    LoggedSessions(m, cfg, w, h, fd);
    var s, log := w.pool[fd], h.logs[fd];
    assert PrefillOk(s, SeqCells(w.kv, s), Last(log.entries));
    var k := ServedLog(m, cfg, w, env, items, fd, log);
    WholePromptIff(cfg, w.pool, w.sched, env.order, fd);
    var whole := BatchItem(fd, PREFILL, Remaining(s));
    if k >= 0 {
      FirstSample(m, cfg, env, SeqCells(w.kv, s), s, items[k], Last(log.entries));
      assert whole in items <==> items[k] == whole;
    } else {
      assert whole in items ==> Chunk(whole) > 0;
    }
  }

  lemma FirstSample(m: LanguageModel, cfg: Config, env: TickEnv, cells: seq<Cell>, s: ClientSession, it: BatchItem, e: Entry)
    requires CanFeed(s, it) && PrefillOk(s, cells, e) && s.state.Prefill? && Chunk(it) > 0 && env.ok && it.fd !in env.nullRows
    requires it.phase.DECODE? ==> DecodeReady(s)
    ensures var f := LogSample(m, cfg, env, cells, s, it, e);
            f.tokens != [] && f.prompt == s.promptTokens && (f.fed == f.prompt <==> it == BatchItem(it.fd, PREFILL, Remaining(s)))
  {
    hide TokenOf;
    var n := s.prefillIdx + Chunk(it);
    assert n <= |s.promptTokens| ==> (s.promptTokens[..n] == s.promptTokens <==> n == |s.promptTokens|);
  }

  /**
   The documented behaviour, over runs: a request whose tick has given it a first token has been
   given its whole prompt exactly if the condition held at that tick, and that is still so at
   the end of any continuation of the run.
   */
  lemma PromptFedWholeIff(m: LanguageModel, cfg: Config, cap: int, steps: seq<Step>, env: TickEnv, more: seq<Step>, fd: Fd)
    requires cap >= 1 && Legal(m, cfg, cap, steps) && Legal(m, cfg, cap, steps + [Tick(env)] + more)
    requires var w := After(m, cfg, cap, steps).state;
             fd in w.pool && PrefillReady(w.pool[fd]) && env.ok && fd !in env.nullRows
    requires forall k :: 0 <= k < |more| ==> !(more[k].Accept? && more[k].fd == fd)
    ensures var w, x, y := After(m, cfg, cap, steps).state, After(m, cfg, cap, steps + [Tick(env)]), After(m, cfg, cap, steps + [Tick(env)] + more);
            && fd in x.history.logs && x.history.logs[fd].entries != []
            && var i := |x.history.logs[fd].entries| - 1;
            && fd in y.history.logs && i < |y.history.logs[fd].entries|
            && var e, f := x.history.logs[fd].entries[i], y.history.logs[fd].entries[i];
            && (e.tokens != [] && e.fed == e.prompt <==> FitsWhole(cfg, w.pool, w.sched, env.order, fd))
            && (e.tokens != [] ==> (f.fed == f.prompt <==> FitsWhole(cfg, w.pool, w.sched, env.order, fd)))
  {
    hide Legal, Inv, NextHistory, Next, Polite, FitsWhole;
    var all := steps + [Tick(env)];
    assert all[..|all| - 1] == steps && all[|all| - 1] == Tick(env);
    var x := After(m, cfg, cap, steps);
    RunKeepsInv(m, cfg, cap, steps);
    assert (all + more)[..|all|] == all;
    LegalTick(m, cfg, cap, steps, env, more);
    TickFeedsWholeIff(m, cfg, x.state, x.history, env, fd);
    var i := |After(m, cfg, cap, all).history.logs[fd].entries| - 1;
    RecordsEvolve(m, cfg, cap, all, more, fd, i);
  }

  lemma LegalTick(m: LanguageModel, cfg: Config, cap: int, steps: seq<Step>, env: TickEnv, more: seq<Step>)
    requires Legal(m, cfg, cap, steps + [Tick(env)] + more)
    ensures Enumerates(env.order, After(m, cfg, cap, steps).state.pool)
  {
    hide Legal, After, Next;
    var rest := [Tick(env)] + more;
    assert steps + [Tick(env)] + more == steps + rest && steps + rest[..0] == steps;
    LegalNext(m, cfg, cap, steps, rest, 0);
  }

  // ---------------------------------------------------------------- long prompts are cut

  ghost predicate ShortLog(log: Log) {
    forall i :: 0 <= i < |log.entries| ==> |log.entries[i].fed| <= BURST
  }

  /** No request has been fed more than one burst of its prompt. */
  ghost predicate AllShort(h: History) {
    forall fd :: fd in h.logs ==> ShortLog(h.logs[fd])
  }

  lemma ShortSample(m: LanguageModel, cfg: Config, env: TickEnv, cells: seq<Cell>, s: ClientSession, it: BatchItem, e: Entry)
    requires CanFeed(s, it) && Smooth(cfg, s) && FinalItemOf(s, it) && |e.fed| <= BURST
    ensures |LogSample(m, cfg, env, cells, s, it, e).fed| <= BURST
  {
    hide TokenOf, Ends;
  }

  lemma TickKeepsShort(m: LanguageModel, cfg: Config, w: State, h: History, env: TickEnv, fd: Fd)
    requires Inv(m, cfg, w, h) && AllSmooth(cfg, w) && Enumerates(env.order, w.pool) && fd in w.pool && fd in h.logs && ShortLog(h.logs[fd])
    ensures var h1 := NextHistory(m, cfg, w, h, Tick(env));
            fd in h1.logs && ShortLog(h1.logs[fd])
  {
    hide NextHistory, LogTick, LogSample, Inv, Smooth, FullChunk, AllEnactable, FinalItems, FinalPlan, Enumerates, DistinctSeqs, Unserved;
    assert Smooth(cfg, w.pool[fd]);
    var items := TickLog(m, cfg, w, h, env, fd);
    var log := h.logs[fd];
    var k := ServedLog(m, cfg, w, env, items, fd, log);
    if k >= 0 && log.entries != [] {
      ShortSample(m, cfg, env, SeqCells(w.kv, w.pool[fd]), w.pool[fd], items[k], Last(log.entries));
    } else if k >= 0 {
      EmptyLogStays(m, cfg, env, w.kv, w.pool, items, fd, log);
    }
  }

  lemma EmptyLogStays(m: LanguageModel, cfg: Config, env: TickEnv, kv: KvStore, pool: Pool, items: seq<BatchItem>, fd: Fd, log: Log)
    requires AllEnactable(pool, items) && log.entries == []
    ensures LogTick(m, cfg, env, kv, pool, items, fd, log) == log
  {
  }

  lemma StepKeepsShort(m: LanguageModel, cfg: Config, w: State, h: History, step: Step, fd: Fd)
    requires Inv(m, cfg, w, h) && AllSmooth(cfg, w) && Possible(w, step) && AllShort(h) && fd in NextHistory(m, cfg, w, h, step).logs
    ensures ShortLog(NextHistory(m, cfg, w, h, step).logs[fd])
  {
    hide Inv, AllSmooth, AfterRequest, Answers, LogTick, FinalPlan, AllEnactable, ShortLog;
    if step.Tick? {
      assert fd in h.logs && ShortLog(h.logs[fd]);
      if fd in w.pool {
        hide NextHistory;
        TickKeepsShort(m, cfg, w, h, step.env, fd);
      }
    } else {
      if fd in h.logs { assert ShortLog(h.logs[fd]); }
      OtherKeepsShort(m, cfg, w, h, step, fd);
    }
  }

  lemma OtherKeepsShort(m: LanguageModel, cfg: Config, w: State, h: History, step: Step, fd: Fd)
    requires !step.Tick? && (fd in h.logs ==> ShortLog(h.logs[fd])) && fd in NextHistory(m, cfg, w, h, step).logs
    ensures ShortLog(NextHistory(m, cfg, w, h, step).logs[fd])
  {
    hide AfterRequest, Answers, LogTick, Unsent;
  }

  lemma {:induction false} RunsAreShort(m: LanguageModel, cfg: Config, cap: int, steps: seq<Step>)
    requires cap >= 1 && Legal(m, cfg, cap, steps) && forall i :: 0 <= i < |steps| ==> GoodTick(steps[i])
    ensures AllShort(After(m, cfg, cap, steps).history)
  {
    hide Inv, Next, NextHistory, Possible, Polite, ShortLog, AllSmooth;
    if steps != [] {
      var n := |steps| - 1;
      var x := After(m, cfg, cap, steps[..n]);
      RunsAreShort(m, cfg, cap, steps[..n]);
      RunKeepsInv(m, cfg, cap, steps[..n]);
      GoodRunsAreSmooth(m, cfg, cap, steps[..n]);
      forall fd | fd in NextHistory(m, cfg, x.state, x.history, steps[n]).logs
        ensures ShortLog(NextHistory(m, cfg, x.state, x.history, steps[n]).logs[fd])
      {
        StepKeepsShort(m, cfg, x.state, x.history, steps[n], fd);
      }
    }
  }

  /**
   In every run with successful decodes no request is ever fed more than 16 tokens of its prompt:
   the rest of a longer prompt is dropped.
   */
  lemma LongPromptsAreCut(m: LanguageModel, cfg: Config, cap: int, steps: seq<Step>, fd: Fd, i: nat)
    requires cap >= 1 && Legal(m, cfg, cap, steps) && forall i :: 0 <= i < |steps| ==> GoodTick(steps[i])
    requires fd in After(m, cfg, cap, steps).history.logs && i < |After(m, cfg, cap, steps).history.logs[fd].entries|
    ensures var e := After(m, cfg, cap, steps).history.logs[fd].entries[i];
            |e.fed| <= 16 && (|e.prompt| > 16 ==> e.fed < e.prompt)
  {
    hide After, Legal, GoodTick, SessionsOk, SchedOk, Owned, SeqsBelow;
    RunsAreShort(m, cfg, cap, steps);
    RunKeepsInv(m, cfg, cap, steps);
    var x := After(m, cfg, cap, steps);
    assert ShortLog(x.history.logs[fd]) && LogOk(m, cfg, x.history.logs[fd]);
    assert EntryOk(m, cfg, x.history.logs[fd].entries[i]);
  }
}
