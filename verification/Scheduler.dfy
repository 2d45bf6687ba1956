/** `Scheduler::tick` as it runs: plan, trim, enact into parallel arrays, one model call, sample. */
module Scheduling {
  import opened Sessions
  import opened Policy
  import opened PlanProperties
  import opened Bmt
  import opened Protocol
  import opened Batch
  import opened NonInterference
  import opened Controller
  import opened Accounting
  import opened TickSpec
  import opened SessionManagement

  // ---------------------------------------------------------------- batch arrays

  /** The parallel vectors that make up a `llama_batch`. */
  datatype Arrays = Arrays(tokens: seq<int>, nSeqId: seq<int>, seqIdVals: seq<nat>, pos: seq<int>, logits: seq<bool>)

  const EMPTY := Arrays([], [], [], [], [])

  ghost predicate Lockstep(b: Arrays) {
    && |b.tokens| == |b.nSeqId| == |b.seqIdVals| == |b.pos| == |b.logits|
    && forall i :: 0 <= i < |b.nSeqId| ==> b.nSeqId[i] == 1
  }

  function RowsOf(b: Arrays): seq<Row>
    requires Lockstep(b)
  {
    seq(|b.tokens|, i requires 0 <= i < |b.tokens| => Row(b.tokens[i], b.seqIdVals[i], b.pos[i], b.logits[i]))
  }

  /** One `push_back` on each vector. */
  function Push(b: Arrays, r: Row): Arrays {
    Arrays(b.tokens + [r.token], b.nSeqId + [1], b.seqIdVals + [r.seqId], b.pos + [r.pos], b.logits + [r.logits])
  }

  lemma PushRow(b: Arrays, r: Row)
    requires Lockstep(b)
    ensures Lockstep(Push(b, r)) && RowsOf(Push(b, r)) == RowsOf(b) + [r]
  {
  }

  /** The rows of one prefill chunk, pushed one by one. */
  method PushChunk(b0: Arrays, s: ClientSession, it: BatchItem) returns (b: Arrays)
    requires Lockstep(b0) && CanFeed(s, it) && it.phase.PREFILL?
    ensures Lockstep(b) && RowsOf(b) == RowsOf(b0) + ItemRows(s, it)
  {
    b := b0;
    var chunk := Chunk(it);
    ghost var rows := ItemRows(s, it);
    for j := 0 to chunk
      invariant Lockstep(b) && RowsOf(b) == RowsOf(b0) + rows[..j]
    {
      var r := Row(s.promptTokens[s.prefillIdx + j], s.seqId, s.nPast + j, j == chunk - 1);
      assert r == rows[j];
      PushRow(b, r);
      assert rows[..j + 1] == rows[..j] + [r];
      b := Push(b, r);
    }
    assert rows[..chunk] == rows;
  }

  class Scheduler {
    const cap: int
    var targetBatch: int
    var rrDecodeIdx: nat
    var rrPrefillIdx: nat
    var decodeMsEwma: real
    var metrics: Metrics

    constructor (batchCap: int)
      ensures State() == InitialSched(batchCap)
    {
      cap := batchCap;
      targetBatch := batchCap;
      rrDecodeIdx, rrPrefillIdx := 0, 0;
      decodeMsEwma := TICK_BUDGET_MS;
      metrics := ZERO;
    }

    function State(): SchedState
      reads this
    {
      SchedState(cap, Tuning(targetBatch, decodeMsEwma), rrDecodeIdx, rrPrefillIdx, metrics)
    }

    /** Enact one item: its rows, and its session's counters. */
    method EnactItem(mgr: SessionManager, b0: Arrays, it: BatchItem) returns (b: Arrays)
      requires Enactable(mgr.sessions, it) && Lockstep(b0)
      modifies mgr`sessions
      ensures mgr.sessions == old(mgr.sessions)[it.fd := Enacted(old(mgr.sessions)[it.fd], it)]
      ensures Lockstep(b) && RowsOf(b) == RowsOf(b0) + ItemRows(old(mgr.sessions)[it.fd], it)
    {
      var s := mgr.sessions[it.fd];
      if it.phase.DECODE? {
        var r := Row(s.pendingTok, s.seqId, s.nPast, true);
        PushRow(b0, r);
        assert ItemRows(s, it) == [r];
        b := Push(b0, r);
        mgr.sessions := mgr.sessions[it.fd := s.(hasPendingTok := false)];
      } else {
        b := PushChunk(b0, s, it);
        var chunk := Chunk(it);
        mgr.sessions := mgr.sessions[it.fd := s.(prefillIdx := s.prefillIdx + chunk, nPast := s.nPast + chunk)];
      }
    }

    /** Enact the plan: fill the arrays and advance the sessions. */
    method Enact(mgr: SessionManager, items: seq<BatchItem>) returns (b: Arrays, samples: seq<SampleRef>)
      requires AllEnactable(mgr.sessions, items)
      modifies mgr`sessions
      ensures mgr.sessions == EnactAll(old(mgr.sessions), items)
      ensures Lockstep(b) && RowsOf(b) == BatchRows(old(mgr.sessions), items)
      ensures samples == Samples(old(mgr.sessions), items)
    {
      hide Enacted, ItemRows, EnactAll, BatchRows, Samples;
      ghost var pool := mgr.sessions;
      EnactNone(pool);
      b, samples := EMPTY, [];
      assert items[..0] == [] && RowsOf(b) == [];
      for i := 0 to |items|
        invariant mgr.sessions == EnactAll(pool, items[..i])
        invariant Lockstep(b) && RowsOf(b) == BatchRows(pool, items[..i])
        invariant samples == Samples(pool, items[..i])
      {
        var it := items[i];
        EnactStep(pool, items, i);
        b := EnactItem(mgr, b, it);
        if Chunk(it) > 0 {
          assert |b.tokens| == |RowsOf(b)|;
          samples := samples + [SampleRef(it.fd, |b.tokens| - 1, it.phase)];
        }
      }
      assert items[..|items|] == items;
    }

    /** One session and its sample: feed it next, or end the request. */
    method Advance(m: LanguageModel, cfg: Config, s0: ClientSession, phase: Phase, t: int, now: nat) returns (s: ClientSession, ended: bool)
      ensures s == AfterSample(m, cfg, s0, phase, t, now)
      ensures ended <==> Ends(m, cfg, s0, phase, t)
    {
      hide Wire;
      s, ended := s0, false;
      if phase.PREFILL? {
        s := s.(pendingTok := t, hasPendingTok := true, state := Decode);
        s := s.(tx := s.tx + Wire(TokenEvents(m, s.requestId, t)));
      } else if m.isEog(t) || s.generatedCount >= cfg.maxTokens {
        s := s.(tx := s.tx + Wire([Eos(s.requestId, if s.generatedCount >= cfg.maxTokens then LENGTH else STOP)]));
        s := s.(state := Stream, nPast := 0);
        ended := true;
      } else {
        s := s.(tx := s.tx + Wire(TokenEvents(m, s.requestId, t)));
        s := s.(generatedCount := s.generatedCount + 1, pendingTok := t, hasPendingTok := true, nPast := s.nPast + 1, state := Decode);
      }
      if s.firstEmitNs == 0 {
        s := s.(firstEmitNs := now);
      }
    }

    /** The sampling loop after a successful call. */
    method ApplySamples(m: LanguageModel, cfg: Config, mgr: SessionManager, ctx: LlamaContext,
                        samples: seq<SampleRef>, env: TickEnv) returns (arm: seq<Fd>)
      modifies mgr`sessions, ctx`kv
      ensures Effects(mgr.sessions, ctx.kv, arm)
           == ApplyAll(m, cfg, env, ctx.base, ctx.rows, Effects(old(mgr.sessions), old(ctx.kv), []), samples)
    {
      arm := [];
      ghost var e := Effects(mgr.sessions, ctx.kv, []);
      for i := 0 to |samples|
        invariant Effects(mgr.sessions, ctx.kv, arm) == ApplyAll(m, cfg, env, ctx.base, ctx.rows, e, samples[..i])
      {
        var ref := samples[i];
        assert samples[..i + 1][..i] == samples[..i];
        if ref.fd in mgr.sessions && ref.fd !in env.nullRows && ref.index < |ctx.rows| {
          var s := mgr.sessions[ref.fd];
          var needArm := s.tx == [];
          var t := TokenAt(m, ctx.base, ctx.rows, ref.index, s.sampling, env.draw(ref.fd));
          var s1, ended := Advance(m, cfg, s, ref.phase, t, env.now);
          mgr.sessions := mgr.sessions[ref.fd := s1];
          if ended && s.seqId >= 0 {
            ctx.SeqRm(s.seqId);
          }
          if needArm {
            arm := arm + [ref.fd];
          }
        }
      }
      assert samples[..|samples|] == samples;
    }

    /** The failure loop: every sampled session is told and given up. */
    method FailSamples(mgr: SessionManager, samples: seq<SampleRef>)
      modifies mgr`sessions
      ensures mgr.sessions == FailAll(old(mgr.sessions), samples)
    {
      for i := 0 to |samples|
        invariant mgr.sessions == FailAll(old(mgr.sessions), samples[..i])
      {
        assert samples[..i + 1][..i] == samples[..i];
        if samples[i].fd in mgr.sessions {
          mgr.sessions := mgr.sessions[samples[i].fd := Failed(mgr.sessions[samples[i].fd])];
        }
      }
      assert samples[..|samples|] == samples;
    }

    /** Plan this tick and trim it to the cost budget. */
    method MakePlan(cfg: Config, pool: Pool, order: seq<Fd>) returns (plan: Plan)
      requires Enumerates(order, pool) && Fits32(pool)
      requires targetBatch < 0x8000_0000
      ensures plan == FinalPlan(cfg, pool, State(), order)
    {
      hide PlanOf, Guard, PrefillLeft, Estimate;
      plan := ScheduleTick(pool, order, cap, targetBatch, rrDecodeIdx, rrPrefillIdx);
      if cfg.bmtBudget > 0 {
        PlanFits32(pool, order, cap, targetBatch, rrDecodeIdx, rrPrefillIdx);
        var est, trimmed;
        plan, est, trimmed := TrimToBudget(pool, plan, cfg.bmtBudget);
      }
    }

    /** Enact, call the model once, sample. Reports the size of the batch. */
    method Execute(m: LanguageModel, cfg: Config, mgr: SessionManager, ctx: LlamaContext, items: seq<BatchItem>,
                   env: TickEnv) returns (arm: seq<Fd>, size: nat)
      requires AllEnactable(mgr.sessions, items)
      modifies mgr`sessions, ctx
      ensures Effects(mgr.sessions, ctx.kv, arm) == RunBatch(m, cfg, env, old(ctx.kv), old(mgr.sessions), items)
      ensures size == |BatchRows(old(mgr.sessions), items)|
    {
      var b, samples := Enact(mgr, items);
      arm, size := [], |b.tokens|;
      assert size == |RowsOf(b)|;
      if size > 0 {
        var ok := ctx.Decode(RowsOf(b), env);
        if ok {
          arm := ApplySamples(m, cfg, mgr, ctx, samples, env);
        } else {
          FailSamples(mgr, samples);
        }
      }
    }

    /** The counters of one model call; time is split in proportion to the tokens. */
    method RecordCall(durNs: nat, gen: nat, prefill: nat)
      modifies this`metrics
      ensures metrics == Record(old(metrics), Call(durNs, gen, prefill))
    {
      var genNs := GenNs(Call(durNs, gen, prefill));
      GenShare(Call(durNs, gen, prefill));
      hide GenNs;
      metrics := metrics.(batchCalls := metrics.batchCalls + 1, lastBatchSize := gen + prefill);
      metrics := metrics.(decodePhaseTokens := metrics.decodePhaseTokens + gen, prefillTokens := metrics.prefillTokens + prefill);
      metrics := metrics.(decodeNsGen := metrics.decodeNsGen + genNs, prefillNs := metrics.prefillNs + (durNs - genNs));
      if gen > 0 {
        var ms := (genNs + 500_000) / 1_000_000;
        metrics := metrics.(decodeMsLast := ms, decodeNs := metrics.decodeNs + genNs);
        metrics := metrics.(decodeCalls := metrics.decodeCalls + 1, decodeTokens := metrics.decodeTokens + gen);
        if ms < metrics.decodeMsMin {
          metrics := metrics.(decodeMsMin := ms);
        }
        if ms > metrics.decodeMsMax {
          metrics := metrics.(decodeMsMax := ms);
        }
      }
    }

    /** Cursors, metrics and the batch target. */
    method Update(plan: Plan, size: nat, durNs: nat)
      requires 0 <= plan.decodeTok && 0 <= plan.prefillTok
      modifies this
      ensures State() == NextSched(old(State()), plan, size, durNs)
    {
      rrDecodeIdx, rrPrefillIdx := plan.nextRrDecode, plan.nextRrPrefill;
      if size > 0 {
        RecordCall(durNs, plan.decodeTok, plan.prefillTok);
        decodeMsEwma := 0.8 * decodeMsEwma + 0.2 * Millis(durNs);
        targetBatch := NextTarget(targetBatch, cap, decodeMsEwma);
      }
    }

    /**
     `tick`. Sessions, KV memory and arming follow the batch semantics, and the batch never
     exceeds the capacity that the vectors reserve.
     */
    method Tick(m: LanguageModel, cfg: Config, mgr: SessionManager, ctx: LlamaContext, env: TickEnv)
      returns (arm: seq<Fd>, plan: Plan, size: nat)
      requires Enumerates(env.order, mgr.sessions) && PoolOk(mgr.sessions)
      requires Fits32(mgr.sessions)
      requires targetBatch < 0x8000_0000
      modifies this, mgr`sessions, ctx
      ensures plan == FinalPlan(cfg, old(mgr.sessions), old(State()), env.order)
      ensures AllEnactable(old(mgr.sessions), plan.items)
      ensures Effects(mgr.sessions, ctx.kv, arm) == RunBatch(m, cfg, env, old(ctx.kv), old(mgr.sessions), plan.items)
      ensures size == |BatchRows(old(mgr.sessions), plan.items)| && (size > 0 ==> size <= cap)
      ensures State() == NextSched(old(State()), plan, size, env.durNs)
    {
      plan := MakePlan(cfg, mgr.sessions, env.order);
      PlanIsReady(cfg, mgr.sessions, State(), env.order, plan);
      arm, size := Execute(m, cfg, mgr, ctx, plan.items, env);
      Update(plan, size, env.durNs);
    }
  }

  lemma PlanIsReady(cfg: Config, pool: Pool, sched: SchedState, order: seq<Fd>, plan: Plan)
    requires Enumerates(order, pool) && PoolOk(pool) && plan == FinalPlan(cfg, pool, sched, order)
    ensures AllEnactable(pool, plan.items) && 0 <= plan.decodeTok && 0 <= plan.prefillTok
    ensures BatchRows(pool, plan.items) != [] ==> |BatchRows(pool, plan.items)| <= sched.cap
  {
    FinalPlanCounts(cfg, pool, sched, order);
  }

  lemma EnactNone(pool: Pool)
    ensures EnactAll(pool, []) == pool && BatchRows(pool, []) == [] && Samples(pool, []) == []
  {
  }

  /** The specification of one more enacted item. */
  lemma EnactStep(pool: Pool, items: seq<BatchItem>, i: nat)
    requires AllEnactable(pool, items) && i < |items|
    ensures var it := items[i];
            var p := EnactAll(pool, items[..i]);
            && Enactable(pool, it) && it.fd in p && p[it.fd] == pool[it.fd]
            && EnactAll(pool, items[..i + 1]) == p[it.fd := Enacted(pool[it.fd], it)]
            && BatchRows(pool, items[..i + 1]) == BatchRows(pool, items[..i]) + ItemRows(pool[it.fd], it)
            && Samples(pool, items[..i + 1]) == Samples(pool, items[..i]) +
                 (if Chunk(it) > 0 then [SampleRef(it.fd, |BatchRows(pool, items[..i + 1])| - 1, it.phase)] else [])
            && |ItemRows(pool[it.fd], it)| == Chunk(it)
  {
    hide ItemRows, FedCells, Enacted;
    var it := items[i];
    var front := items[..i + 1];
    assert front[..i] == items[..i] && front[i] == it;
    assert Enactable(pool, it);
    EnactOthers(pool, items[..i]);
    assert forall k :: 0 <= k < i ==> items[..i][k].fd != it.fd;
    ItemRowsLength(pool[it.fd], it);
  }

  /** `n_past` of the sessions that are being served is an `int32_t`. */
  ghost predicate Fits32(pool: Pool) {
    forall fd :: fd in pool && (DecodeReady(pool[fd]) || PrefillReady(pool[fd])) ==> pool[fd].nPast < 0x8000_0000
  }

  /** Planned chunks, and all of them together, fit 32 bits because the batch target does. */
  lemma PlanFits32(pool: Pool, order: seq<Fd>, cap: int, target: int, rrd: nat, rrp: nat)
    requires Enumerates(order, pool) && Fits32(pool) && target < 0x8000_0000
    ensures var items := PlanOf(pool, order, cap, target, rrd, rrp).items;
            && Counters32(pool, items) && Sized(items) && Tokens(items) < 0x8000_0000
            && (forall i :: 0 <= i < |items| ==> items[i].fd in pool)
  {
    hide PlanOf, Tokens, FullChunk, DecodersServed, PrefillsFull, Enumerates;
    var items := PlanOf(pool, order, cap, target, rrd, rrp).items;
    PlanTokens(pool, order, cap, target, rrd, rrp);
    PlanIsCorrect(pool, order, cap, target, rrd, rrp);
    ItemWithinTokens(pool, items);
    assert forall i :: 0 <= i < |items| ==> ItemOk(pool, items[i]);
  }

  lemma {:induction false} ItemWithinTokens(pool: Pool, items: seq<BatchItem>)
    requires ItemsOk(pool, items)
    ensures 0 <= Tokens(items)
    ensures forall i :: 0 <= i < |items| ==> 0 < items[i].nTokens <= Tokens(items) && items[i].fd in pool
  {
    if items != [] {
      assert ItemOk(pool, items[0]);
      assert forall i :: 0 <= i < |items| - 1 ==> items[1..][i] == items[i + 1];
      ItemWithinTokens(pool, items[1..]);
      forall i | 0 <= i < |items| ensures 0 < items[i].nTokens <= Tokens(items) && items[i].fd in pool {
        if i > 0 { assert items[i] == items[1..][i - 1]; }
      }
    }
  }
}
