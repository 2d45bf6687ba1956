/**
 One model call per tick: the plan becomes one batch of rows, `llama_decode` appends the rows to
 the KV cells of their sequences, and each row that asks for logits yields one sample. The model
 is foreign code, so it is a parameter: the logits of a row are some function of the cells of its
 own sequence, and the sampler is some function of logits, parameters and the draw.
 */
module Batch {
  import opened Bytes
  import opened Sessions
  import opened Policy
  import opened PlanProperties
  import opened Bmt
  import opened Protocol
  import Sampling

  datatype Cell = Cell(pos: int, token: int)

  /** KV memory: for each sequence id the cells in the order they were stored. */
  type KvStore = map<nat, seq<Cell>>

  function CellsOf(kv: KvStore, q: nat): seq<Cell> {
    if q in kv then kv[q] else []
  }

  datatype LanguageModel = LanguageModel(
    logits: seq<Cell> -> seq<real>,
    sample: (seq<real>, Sampling.Params, real) -> int,
    isEog: int -> bool,
    piece: int -> bytes,
    tokenize: bytes -> seq<int>
  )

  // ---------------------------------------------------------------- rows

  datatype Row = Row(token: int, seqId: nat, pos: int, logits: bool)

  /** The item can be fed: the session has a sequence, and the tokens. */
  ghost predicate CanFeed(s: ClientSession, it: BatchItem) {
    && s.seqId >= 0
    && (it.phase.DECODE? ==> it.nTokens == 1)
    && (it.phase.PREFILL? ==> s.prefillIdx + Chunk(it) <= |s.promptTokens|)
  }

  /** The cells that a planned item stores: the pending token, or a chunk of the prompt. */
  function FedCells(s: ClientSession, it: BatchItem): seq<Cell>
    requires it.phase.PREFILL? ==> s.prefillIdx + Chunk(it) <= |s.promptTokens|
  {
    if it.phase.DECODE? then [Cell(s.nPast, s.pendingTok)]
    else seq(Chunk(it), j requires 0 <= j < Chunk(it) => Cell(s.nPast + j, s.promptTokens[s.prefillIdx + j]))
  }

  /** The rows of an item: one sequence, and logits for the last row only. */
  function ItemRows(s: ClientSession, it: BatchItem): seq<Row>
    requires s.seqId >= 0 && (it.phase.PREFILL? ==> s.prefillIdx + Chunk(it) <= |s.promptTokens|)
  {
    var cells := FedCells(s, it);
    seq(|cells|, j requires 0 <= j < |cells| => Row(cells[j].token, s.seqId, cells[j].pos, j == |cells| - 1))
  }

  /** An item that can be enacted: its session is known and can be fed. */
  ghost predicate Enactable(pool: Pool, it: BatchItem) {
    it.fd in pool && CanFeed(pool[it.fd], it)
  }

  ghost predicate AllEnactable(pool: Pool, items: seq<BatchItem>) {
    DistinctFds(items) && forall i :: 0 <= i < |items| ==> Enactable(pool, items[i])
  }

  function BatchRows(pool: Pool, items: seq<BatchItem>): seq<Row>
    requires forall i :: 0 <= i < |items| ==> Enactable(pool, items[i])
  {
    if items == [] then []
    else
      var n := |items| - 1;
      assert Enactable(pool, items[n]);
      BatchRows(pool, items[..n]) + ItemRows(pool[items[n].fd], items[n])
  }

  /** The cells that a list of rows stores in sequence `q`. */
  ghost function CellsIn(rows: seq<Row>, q: nat): seq<Cell> {
    if rows == [] then []
    else
      var n := |rows| - 1;
      CellsIn(rows[..n], q) + if rows[n].seqId == q then [Cell(rows[n].pos, rows[n].token)] else []
  }

  /** `llama_decode` on the KV memory: each row appends to its sequence, in batch order. */
  function Feed(kv: KvStore, rows: seq<Row>): KvStore {
    if rows == [] then kv
    else
      var n := |rows| - 1;
      var k := Feed(kv, rows[..n]);
      k[rows[n].seqId := CellsOf(k, rows[n].seqId) + [Cell(rows[n].pos, rows[n].token)]]
  }

  lemma {:induction false} FeedStores(kv: KvStore, rows: seq<Row>, q: nat)
    ensures CellsOf(Feed(kv, rows), q) == CellsOf(kv, q) + CellsIn(rows, q)
  {
    if rows != [] {
      FeedStores(kv, rows[..|rows| - 1], q);
    }
  }

  lemma {:induction false} CellsInAppend(a: seq<Row>, b: seq<Row>, q: nat)
    ensures CellsIn(a + b, q) == CellsIn(a, q) + CellsIn(b, q)
  {
    if b == [] {
      assert a + b == a;
    } else {
      var n := |b| - 1;
      assert (a + b)[..|a + b| - 1] == a + b[..n];
      CellsInAppend(a, b[..n], q);
    }
  }

  lemma {:induction false} CellsInUniform(rows: seq<Row>, q: nat, cells: seq<Cell>)
    requires |rows| == |cells|
    requires forall j :: 0 <= j < |rows| ==> rows[j].seqId == q && Cell(rows[j].pos, rows[j].token) == cells[j]
    ensures CellsIn(rows, q) == cells
  {
    if rows != [] {
      var n := |rows| - 1;
      CellsInUniform(rows[..n], q, cells[..n]);
      assert cells == cells[..n] + [cells[n]];
    }
  }

  lemma {:induction false} CellsInNone(rows: seq<Row>, q: nat)
    requires forall j :: 0 <= j < |rows| ==> rows[j].seqId != q
    ensures CellsIn(rows, q) == []
  {
    if rows != [] { CellsInNone(rows[..|rows| - 1], q); }
  }

  lemma ItemCells(s: ClientSession, it: BatchItem, q: nat)
    requires s.seqId >= 0 && (it.phase.PREFILL? ==> s.prefillIdx + Chunk(it) <= |s.promptTokens|)
    ensures CellsIn(ItemRows(s, it), q) == if q == s.seqId then FedCells(s, it) else []
  {
    if q == s.seqId {
      CellsInUniform(ItemRows(s, it), q, FedCells(s, it));
    } else {
      CellsInNone(ItemRows(s, it), q);
    }
  }

  /** Live sessions never share a sequence id. */
  ghost predicate DistinctSeqs(pool: Pool) {
    forall f, g :: f in pool && g in pool && f != g && pool[f].seqId >= 0 ==> pool[f].seqId != pool[g].seqId
  }

  /** The item feeds sequence `q`. */
  ghost predicate Feeds(pool: Pool, it: BatchItem, q: nat) {
    it.fd in pool && pool[it.fd].seqId == q
  }

  lemma OnlyFeeder(pool: Pool, items: seq<BatchItem>, i: nat)
    requires AllEnactable(pool, items) && DistinctSeqs(pool) && i < |items|
    ensures forall k :: 0 <= k < |items| && k != i ==> !Feeds(pool, items[k], pool[items[i].fd].seqId)
  {
    forall k | 0 <= k < |items| && k != i ensures !Feeds(pool, items[k], pool[items[i].fd].seqId) {
      assert items[k].fd != items[i].fd;
    }
  }

  lemma {:induction false} CellsOfOnlyFeeder(pool: Pool, items: seq<BatchItem>, i: nat, q: nat)
    requires forall k :: 0 <= k < |items| ==> Enactable(pool, items[k])
    requires i < |items| && Feeds(pool, items[i], q)
    requires forall k :: 0 <= k < |items| && k != i ==> !Feeds(pool, items[k], q)
    ensures CellsIn(BatchRows(pool, items), q) == FedCells(pool[items[i].fd], items[i])
  {
    hide ItemRows, FedCells, CellsIn;
    var n := |items| - 1;
    var front := items[..n];
    assert Enactable(pool, items[n]);
    CellsInAppend(BatchRows(pool, front), ItemRows(pool[items[n].fd], items[n]), q);
    ItemCells(pool[items[n].fd], items[n], q);
    if i == n {
      CellsOfNoFeeder(pool, front, q);
    } else {
      CellsOfOnlyFeeder(pool, front, i, q);
    }
  }

  lemma {:induction false} CellsOfNoFeeder(pool: Pool, items: seq<BatchItem>, q: nat)
    requires forall i :: 0 <= i < |items| ==> Enactable(pool, items[i]) && !Feeds(pool, items[i], q)
    ensures CellsIn(BatchRows(pool, items), q) == []
  {
    if items != [] {
      var n := |items| - 1;
      assert Enactable(pool, items[n]);
      CellsInAppend(BatchRows(pool, items[..n]), ItemRows(pool[items[n].fd], items[n]), q);
      ItemCells(pool[items[n].fd], items[n], q);
      CellsOfNoFeeder(pool, items[..n], q);
    }
  }

  /** Non-interference: the batch stores in a sequence exactly what its own item feeds. */
  lemma BatchCells(pool: Pool, items: seq<BatchItem>, i: nat)
    requires AllEnactable(pool, items) && DistinctSeqs(pool) && i < |items|
    ensures CellsIn(BatchRows(pool, items), pool[items[i].fd].seqId) == FedCells(pool[items[i].fd], items[i])
  {
    OnlyFeeder(pool, items, i);
    CellsOfOnlyFeeder(pool, items, i, pool[items[i].fd].seqId);
  }

  // ---------------------------------------------------------------- enactment

  function Enacted(s: ClientSession, it: BatchItem): ClientSession {
    if it.phase.DECODE? then s.(hasPendingTok := false)
    else s.(prefillIdx := s.prefillIdx + Chunk(it), nPast := s.nPast + Chunk(it))
  }

  function EnactAll(pool: Pool, items: seq<BatchItem>): Pool {
    if items == [] then pool
    else
      var n := |items| - 1;
      var p := EnactAll(pool, items[..n]);
      if items[n].fd in p then p[items[n].fd := Enacted(p[items[n].fd], items[n])] else p
  }

  datatype SampleRef = SampleRef(fd: Fd, index: nat, phase: Phase)

  /** One sample for each item that puts rows into the batch, at its last row. */
  function Samples(pool: Pool, items: seq<BatchItem>): seq<SampleRef>
    requires forall i :: 0 <= i < |items| ==> Enactable(pool, items[i])
  {
    if items == [] then []
    else
      var n := |items| - 1;
      Samples(pool, items[..n]) +
      if Chunk(items[n]) > 0 then [SampleRef(items[n].fd, |BatchRows(pool, items)| - 1, items[n].phase)] else []
  }

  lemma {:induction false} EnactOthers(pool: Pool, items: seq<BatchItem>)
    ensures EnactAll(pool, items).Keys == pool.Keys
    ensures forall fd :: fd in pool && (forall i :: 0 <= i < |items| ==> items[i].fd != fd) ==>
                           EnactAll(pool, items)[fd] == pool[fd]
  {
    if items != [] {
      EnactOthers(pool, items[..|items| - 1]);
    }
  }

  lemma {:induction false} EnactOne(pool: Pool, items: seq<BatchItem>, i: nat)
    requires DistinctFds(items) && i < |items| && items[i].fd in pool
    ensures items[i].fd in EnactAll(pool, items)
    ensures EnactAll(pool, items)[items[i].fd] == Enacted(pool[items[i].fd], items[i])
  {
    var n := |items| - 1;
    var front := items[..n];
    EnactOthers(pool, front);
    if i == n {
      assert forall k :: 0 <= k < n ==> front[k].fd != items[n].fd;
    } else {
      EnactOne(pool, front, i);
      assert items[n].fd != items[i].fd;
    }
  }

  // ---------------------------------------------------------------- sampling

  datatype Config = Config(
    maxTokens: nat,
    bmtBudget: nat,      // 0 switches the guard off
    maxSessions: nat,
    maxPromptBytes: nat,
    idleNs: nat
  )

  /** What a tick meets: iteration order, clock, decode time, and how the model call went. */
  datatype TickEnv = TickEnv(
    order: seq<Fd>,
    now: nat,
    durNs: nat,
    ok: bool,                // llama_decode returned 0
    wreck: KvStore,          // what a failed call leaves in the sequences of its batch
    nullRows: set<Fd>,       // sessions whose logits row is missing
    draw: Fd -> real         // the uniform draw of each session's sample
  )

  function Reason(cfg: Config, s: ClientSession): bytes {
    if s.generatedCount >= cfg.maxTokens then LENGTH else STOP
  }

  /** A sample in the DECODE state ends the request on an end token or at the token limit. */
  predicate Ends(m: LanguageModel, cfg: Config, s: ClientSession, phase: Phase, t: int) {
    phase.DECODE? && (m.isEog(t) || s.generatedCount >= cfg.maxTokens)
  }

  function TokenEvents(m: LanguageModel, id: bytes, t: int): seq<Event> {
    if m.piece(t) != [] then [Token(id, m.piece(t), t)] else []
  }

  function SampleEvents(m: LanguageModel, cfg: Config, s: ClientSession, phase: Phase, t: int): seq<Event> {
    if Ends(m, cfg, s, phase, t) then [Eos(s.requestId, Reason(cfg, s))] else TokenEvents(m, s.requestId, t)
  }

  /** The session after its sample `t`. */
  function AfterSample(m: LanguageModel, cfg: Config, s: ClientSession, phase: Phase, t: int, now: nat): ClientSession {
    var s1 := s.(tx := s.tx + Wire(SampleEvents(m, cfg, s, phase, t)),
                 firstEmitNs := if s.firstEmitNs == 0 then now else s.firstEmitNs);
    if Ends(m, cfg, s, phase, t) then
      s1.(state := Stream, nPast := 0)
    else if phase.PREFILL? then
      s1.(pendingTok := t, hasPendingTok := true, state := Decode)
    else
      s1.(pendingTok := t, hasPendingTok := true, state := Decode,
          generatedCount := s.generatedCount + 1, nPast := s.nPast + 1)
  }

  function FailureEvent(s: ClientSession): Event {
    Error(s.requestId, E_RUNTIME_DECODE, DECODE_FAILED)
  }

  function Failed(s: ClientSession): ClientSession {
    s.(state := Errored, tx := s.tx + Wire([FailureEvent(s)]), readClosed := true)
  }

  /** The token drawn for a row: the row sees its own sequence up to and including itself. */
  function TokenAt(m: LanguageModel, kv: KvStore, rows: seq<Row>, index: nat, params: Sampling.Params, draw: real): int
    requires index < |rows|
  {
    m.sample(m.logits(CellsOf(Feed(kv, rows[..index + 1]), rows[index].seqId)), params, draw)
  }

  datatype Effects = Effects(pool: Pool, kv: KvStore, arm: seq<Fd>)

  function ApplySample(m: LanguageModel, cfg: Config, env: TickEnv, kv: KvStore, rows: seq<Row>,
                             e: Effects, ref: SampleRef): Effects
  {
    if ref.fd !in e.pool || ref.fd in env.nullRows || ref.index >= |rows| then e
    else
      var s := e.pool[ref.fd];
      var t := TokenAt(m, kv, rows, ref.index, s.sampling, env.draw(ref.fd));
      Effects(e.pool[ref.fd := AfterSample(m, cfg, s, ref.phase, t, env.now)],
              if Ends(m, cfg, s, ref.phase, t) && s.seqId >= 0 then e.kv - {s.seqId} else e.kv,
              if s.tx == [] then e.arm + [ref.fd] else e.arm)
  }

  function ApplyAll(m: LanguageModel, cfg: Config, env: TickEnv, kv: KvStore, rows: seq<Row>,
                          e: Effects, refs: seq<SampleRef>): Effects
  {
    if refs == [] then e
    else
      var n := |refs| - 1;
      ApplySample(m, cfg, env, kv, rows, ApplyAll(m, cfg, env, kv, rows, e, refs[..n]), refs[n])
  }

  function FailAll(pool: Pool, refs: seq<SampleRef>): Pool {
    if refs == [] then pool
    else
      var n := |refs| - 1;
      var p := FailAll(pool, refs[..n]);
      if refs[n].fd in p then p[refs[n].fd := Failed(p[refs[n].fd])] else p
  }

  /** A failed call may leave anything in the sequences of its batch, and only there. */
  function Disturbed(kv: KvStore, rows: seq<Row>, wreck: KvStore): KvStore {
    map q | q in kv.Keys + wreck.Keys && (q in kv || exists j :: 0 <= j < |rows| && rows[j].seqId == q)
      :: if exists j :: 0 <= j < |rows| && rows[j].seqId == q then CellsOf(wreck, q) else CellsOf(kv, q)
  }

  /** Everything a tick does with an enactable plan. */
  function RunBatch(m: LanguageModel, cfg: Config, env: TickEnv, kv: KvStore, pool: Pool,
                          items: seq<BatchItem>): Effects
    requires AllEnactable(pool, items)
  {
    var rows, refs := BatchRows(pool, items), Samples(pool, items);
    var enacted := EnactAll(pool, items);
    if rows == [] then Effects(enacted, kv, [])
    else if !env.ok then Effects(FailAll(enacted, refs), Disturbed(kv, rows, env.wreck), [])
    else ApplyAll(m, cfg, env, kv, rows, Effects(enacted, Feed(kv, rows), []), refs)
  }

  // ---------------------------------------------------------------- the model context

  /** `llama_context` as far as the scheduler sees it: KV memory and the rows of the last call. */
  class LlamaContext {
    var kv: KvStore
    var base: KvStore
    var rows: seq<Row>

    constructor ()
      ensures kv == map[] && base == map[] && rows == []
    {
      kv, base, rows := map[], map[], [];
    }

    /** `llama_decode`. */
    method Decode(batch: seq<Row>, env: TickEnv) returns (ok: bool)
      modifies this
      ensures ok == env.ok && base == old(kv) && rows == batch
      ensures kv == if env.ok then Feed(old(kv), batch) else Disturbed(old(kv), batch, env.wreck)
    {
      base, rows, ok := kv, batch, env.ok;
      if env.ok {
        for i := 0 to |batch|
          invariant kv == Feed(base, batch[..i]) && base == old(kv) && rows == batch
        {
          assert batch[..i + 1][..i] == batch[..i];
          kv := kv[batch[i].seqId := CellsOf(kv, batch[i].seqId) + [Cell(batch[i].pos, batch[i].token)]];
        }
        assert batch[..|batch|] == batch;
      } else {
        kv := Disturbed(kv, batch, env.wreck);
      }
    }

    /** `llama_memory_seq_rm` of a whole sequence. */
    method SeqRm(q: nat)
      modifies this`kv
      ensures kv == old(kv) - {q}
    {
      kv := kv - {q};
    }
  }
}
