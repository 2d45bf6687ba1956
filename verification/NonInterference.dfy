/**
 Batching does not mix sessions: the effect of a whole batch on one session and on its KV cells
 is what feeding that session's own item alone would have done.
 */
module NonInterference {
  import opened Sessions
  import opened Policy
  import opened PlanProperties
  import opened Bmt
  import opened Batch

  // ---------------------------------------------------------------- one session by itself

  /** The token sampled when `cells` is all that the session's sequence holds so far. */
  ghost function TokenOf(m: LanguageModel, env: TickEnv, cells: seq<Cell>, s: ClientSession, it: BatchItem): int
    requires CanFeed(s, it)
  {
    m.sample(m.logits(cells + FedCells(s, it)), s.sampling, env.draw(it.fd))
  }

  ghost function Ticked(m: LanguageModel, cfg: Config, env: TickEnv, cells: seq<Cell>, s: ClientSession, it: BatchItem): ClientSession
    requires CanFeed(s, it)
  {
    var e := Enacted(s, it);
    if Chunk(it) == 0 then e
    else if !env.ok then Failed(e)
    else if it.fd in env.nullRows then e
    else AfterSample(m, cfg, e, it.phase, TokenOf(m, env, cells, s, it), env.now)
  }

  ghost function TickedCells(m: LanguageModel, cfg: Config, env: TickEnv, cells: seq<Cell>, s: ClientSession, it: BatchItem): seq<Cell>
    requires CanFeed(s, it)
  {
    if Chunk(it) == 0 then cells
    else if it.fd !in env.nullRows && Ends(m, cfg, Enacted(s, it), it.phase, TokenOf(m, env, cells, s, it)) then []
    else cells + FedCells(s, it)
  }

  // ---------------------------------------------------------------- rows and samples

  lemma ItemRowsLength(s: ClientSession, it: BatchItem)
    requires CanFeed(s, it)
    ensures |ItemRows(s, it)| == Chunk(it)
  {
  }

  lemma {:induction false} RowsPrefix(pool: Pool, items: seq<BatchItem>, k: nat)
    requires k <= |items| && forall i :: 0 <= i < |items| ==> Enactable(pool, items[i])
    ensures BatchRows(pool, items[..k]) <= BatchRows(pool, items)
  {
    if k == |items| {
      assert items[..k] == items;
    } else {
      var n := |items| - 1;
      assert items[..n][..k] == items[..k];
      RowsPrefix(pool, items[..n], k);
    }
  }

  lemma ItemRowsEnd(s: ClientSession, it: BatchItem)
    requires CanFeed(s, it) && Chunk(it) > 0
    ensures var rows := ItemRows(s, it);
            |rows| == Chunk(it) && rows[|rows| - 1].seqId == s.seqId
  {
    ItemRowsLength(s, it);
  }

  /** The last row of an item, and the batch up to it. */
  lemma LastRow(pool: Pool, items: seq<BatchItem>, i: nat)
    requires i < |items| && Chunk(items[i]) > 0
    requires forall k :: 0 <= k < |items| ==> Enactable(pool, items[k])
    ensures var upto := BatchRows(pool, items[..i + 1]);
            && 0 < |upto| <= |BatchRows(pool, items)| && BatchRows(pool, items)[..|upto|] == upto
            && BatchRows(pool, items)[|upto| - 1].seqId == pool[items[i].fd].seqId
  {
    hide FedCells, ItemRows;
    RowsPrefix(pool, items, i + 1);
    var front := items[..i + 1];
    assert front[..i] == items[..i] && front[i] == items[i];
    assert Enactable(pool, front[i]);
    ItemRowsEnd(pool[items[i].fd], items[i]);
    var rows := ItemRows(pool[items[i].fd], items[i]);
    var upto := BatchRows(pool, front);
    assert upto == BatchRows(pool, items[..i]) + rows;
    assert upto[|upto| - 1] == rows[|rows| - 1];
  }

  ghost function RefOf(pool: Pool, items: seq<BatchItem>, i: nat): SampleRef
    requires i < |items| && Chunk(items[i]) > 0
    requires forall k :: 0 <= k < |items| ==> Enactable(pool, items[k])
  {
    LastRow(pool, items, i);
    SampleRef(items[i].fd, |BatchRows(pool, items[..i + 1])| - 1, items[i].phase)
  }

  lemma {:induction false} SampleOf(pool: Pool, items: seq<BatchItem>, i: nat) returns (j: nat)
    requires i < |items| && Chunk(items[i]) > 0
    requires forall k :: 0 <= k < |items| ==> Enactable(pool, items[k])
    ensures j < |Samples(pool, items)| && Samples(pool, items)[j] == RefOf(pool, items, i)
  {
    hide BatchRows, ItemRows, Enactable;
    var n := |items| - 1;
    LastRow(pool, items, i);
    if i == n {
      assert items[..n + 1] == items;
      j := |Samples(pool, items)| - 1;
    } else {
      j := SampleOf(pool, items[..n], i);
      assert items[..n][..i + 1] == items[..i + 1];
    }
  }

  lemma {:induction false} SampleFrom(pool: Pool, items: seq<BatchItem>, j: nat) returns (i: nat)
    requires forall k :: 0 <= k < |items| ==> Enactable(pool, items[k])
    requires j < |Samples(pool, items)|
    ensures i < |items| && Chunk(items[i]) > 0 && Samples(pool, items)[j].fd == items[i].fd
  {
    var n := |items| - 1;
    if j < |Samples(pool, items[..n])| {
      i := SampleFrom(pool, items[..n], j);
    } else {
      i := n;
    }
  }

  ghost predicate DistinctRefs(refs: seq<SampleRef>) {
    forall i, j :: 0 <= i < j < |refs| ==> refs[i].fd != refs[j].fd
  }

  lemma {:induction false} SamplesDistinct(pool: Pool, items: seq<BatchItem>)
    requires AllEnactable(pool, items)
    ensures DistinctRefs(Samples(pool, items))
  {
    if items != [] {
      var n := |items| - 1;
      var front := Samples(pool, items[..n]);
      SamplesDistinct(pool, items[..n]);
      forall j | 0 <= j < |front| ensures front[j].fd != items[n].fd {
        var i := SampleFrom(pool, items[..n], j);
        assert items[..n][i] == items[i];
      }
    }
  }

  // ---------------------------------------------------------------- the sampling loop, session by session

  lemma {:induction false} ApplyOthers(m: LanguageModel, cfg: Config, env: TickEnv, kv: KvStore, rows: seq<Row>,
                                       e: Effects, refs: seq<SampleRef>, fd: Fd)
    requires forall j :: 0 <= j < |refs| ==> refs[j].fd != fd
    ensures fd in ApplyAll(m, cfg, env, kv, rows, e, refs).pool <==> fd in e.pool
    ensures fd in e.pool ==> ApplyAll(m, cfg, env, kv, rows, e, refs).pool[fd] == e.pool[fd]
    ensures fd in ApplyAll(m, cfg, env, kv, rows, e, refs).arm <==> fd in e.arm
  {
    if refs != [] { ApplyOthers(m, cfg, env, kv, rows, e, refs[..|refs| - 1], fd); }
  }

  /** The session of one sample, whatever the other samples are. */
  lemma {:induction false} ApplyOne(m: LanguageModel, cfg: Config, env: TickEnv, kv: KvStore, rows: seq<Row>,
                                    e: Effects, refs: seq<SampleRef>, j: nat)
    requires DistinctRefs(refs) && j < |refs| && refs[j].fd in e.pool && refs[j].fd !in e.arm
    ensures var out := ApplyAll(m, cfg, env, kv, rows, e, refs);
            var one := ApplySample(m, cfg, env, kv, rows, e, refs[j]);
            && refs[j].fd in out.pool && out.pool[refs[j].fd] == one.pool[refs[j].fd]
            && (refs[j].fd in out.arm <==> refs[j].fd in one.arm)
  {
    hide AfterSample, Ends, TokenAt;
    var n := |refs| - 1;
    var front := refs[..n];
    var fd := refs[j].fd;
    if j == n {
      ApplyOthers(m, cfg, env, kv, rows, e, front, fd);
    } else {
      ApplyOne(m, cfg, env, kv, rows, e, front, j);
      assert refs[n].fd != fd;
    }
  }

  /** Sequences disappear from the KV memory only when their own session ends. */
  lemma {:induction false} ApplyKeepsCells(m: LanguageModel, cfg: Config, env: TickEnv, kv: KvStore, rows: seq<Row>,
                                           e: Effects, refs: seq<SampleRef>, q: nat)
    requires DistinctRefs(refs)
    requires forall j :: 0 <= j < |refs| && refs[j].fd in e.pool ==> e.pool[refs[j].fd].seqId != q
    ensures CellsOf(ApplyAll(m, cfg, env, kv, rows, e, refs).kv, q) == CellsOf(e.kv, q)
  {
    if refs != [] {
      var n := |refs| - 1;
      ApplyKeepsCells(m, cfg, env, kv, rows, e, refs[..n], q);
      ApplyOthers(m, cfg, env, kv, rows, e, refs[..n], refs[n].fd);
    }
  }

  lemma SameSampleCells(m: LanguageModel, cfg: Config, env: TickEnv, kv: KvStore, rows: seq<Row>,
                        e: Effects, f: Effects, ref: SampleRef, q: nat)
    requires ref.fd in e.pool && ref.fd in f.pool && e.pool[ref.fd] == f.pool[ref.fd]
    requires CellsOf(e.kv, q) == CellsOf(f.kv, q)
    ensures CellsOf(ApplySample(m, cfg, env, kv, rows, e, ref).kv, q)
         == CellsOf(ApplySample(m, cfg, env, kv, rows, f, ref).kv, q)
  {
  }

  lemma OtherSampleCells(m: LanguageModel, cfg: Config, env: TickEnv, kv: KvStore, rows: seq<Row>,
                         e: Effects, ref: SampleRef, q: nat)
    requires ref.fd in e.pool ==> e.pool[ref.fd].seqId != q
    ensures CellsOf(ApplySample(m, cfg, env, kv, rows, e, ref).kv, q) == CellsOf(e.kv, q)
  {
  }

  lemma {:induction false} ApplyOwnCells(m: LanguageModel, cfg: Config, env: TickEnv, kv: KvStore, rows: seq<Row>,
                                         e: Effects, refs: seq<SampleRef>, j: nat, q: nat)
    requires DistinctRefs(refs) && j < |refs| && refs[j].fd in e.pool
    requires forall k :: 0 <= k < |refs| && k != j && refs[k].fd in e.pool ==> e.pool[refs[k].fd].seqId != q
    ensures CellsOf(ApplyAll(m, cfg, env, kv, rows, e, refs).kv, q)
         == CellsOf(ApplySample(m, cfg, env, kv, rows, e, refs[j]).kv, q)
  {
    var n := |refs| - 1;
    var front := refs[..n];
    var before := ApplyAll(m, cfg, env, kv, rows, e, front);
    ApplyOthers(m, cfg, env, kv, rows, e, front, refs[n].fd);
    if j == n {
      ApplyKeepsCells(m, cfg, env, kv, rows, e, front, q);
      SameSampleCells(m, cfg, env, kv, rows, before, e, refs[n], q);
    } else {
      ApplyOwnCells(m, cfg, env, kv, rows, e, front, j, q);
      OtherSampleCells(m, cfg, env, kv, rows, before, refs[n], q);
    }
  }

  lemma {:induction false} FailOthers(pool: Pool, refs: seq<SampleRef>, fd: Fd)
    requires forall j :: 0 <= j < |refs| ==> refs[j].fd != fd
    ensures fd in FailAll(pool, refs) <==> fd in pool
    ensures fd in pool ==> FailAll(pool, refs)[fd] == pool[fd]
  {
    if refs != [] { FailOthers(pool, refs[..|refs| - 1], fd); }
  }

  lemma {:induction false} FailOne(pool: Pool, refs: seq<SampleRef>, j: nat)
    requires DistinctRefs(refs) && j < |refs| && refs[j].fd in pool
    ensures refs[j].fd in FailAll(pool, refs) && FailAll(pool, refs)[refs[j].fd] == Failed(pool[refs[j].fd])
  {
    hide Failed;
    var n := |refs| - 1;
    FailOthers(pool, refs[..n], refs[n].fd);
    if j < n {
      FailOne(pool, refs[..n], j);
      assert refs[n].fd != refs[j].fd;
    }
  }

  // ---------------------------------------------------------------- the whole batch

  ghost predicate NoItemFor(items: seq<BatchItem>, fd: Fd) {
    forall i :: 0 <= i < |items| ==> items[i].fd != fd
  }

  /** Sessions without an item, and those whose chunk was trimmed away, have no sample. */
  lemma NoSample(pool: Pool, items: seq<BatchItem>, fd: Fd)
    requires AllEnactable(pool, items)
    requires forall i :: 0 <= i < |items| && items[i].fd == fd ==> Chunk(items[i]) == 0
    ensures forall j :: 0 <= j < |Samples(pool, items)| ==> Samples(pool, items)[j].fd != fd
  {
    forall j | 0 <= j < |Samples(pool, items)| ensures Samples(pool, items)[j].fd != fd {
      var i := SampleFrom(pool, items, j);
    }
  }

  /** A session that feeds nothing this tick. */
  lemma IdleSession(m: LanguageModel, cfg: Config, env: TickEnv, kv: KvStore, pool: Pool, items: seq<BatchItem>, fd: Fd)
    requires AllEnactable(pool, items)
    requires forall i :: 0 <= i < |items| && items[i].fd == fd ==> Chunk(items[i]) == 0
    ensures var out := RunBatch(m, cfg, env, kv, pool, items);
            && (fd in out.pool <==> fd in pool) && fd !in out.arm
            && (fd in pool ==> out.pool[fd] == pool[fd])
  {
    hide BatchRows, Samples, EnactAll, ApplyAll, FailAll, Feed, Disturbed;
    NoSample(pool, items, fd);
    EnactOthers(pool, items);
    var rows, refs, enacted := BatchRows(pool, items), Samples(pool, items), EnactAll(pool, items);
    if i :| 0 <= i < |items| && items[i].fd == fd {
      EnactOne(pool, items, i);
      assert Enactable(pool, items[i]);
      assert Enacted(pool[fd], items[i]) == pool[fd];
    }
    ApplyOthers(m, cfg, env, kv, rows, Effects(enacted, Feed(kv, rows), []), refs, fd);
    FailOthers(enacted, refs, fd);
  }

  /** What the model shows of a sampled session's sequence is its own cells and its own item. */
  lemma OwnToken(m: LanguageModel, env: TickEnv, kv: KvStore, pool: Pool, items: seq<BatchItem>, i: nat)
    requires AllEnactable(pool, items) && DistinctSeqs(pool) && i < |items| && Chunk(items[i]) > 0
    ensures var s := pool[items[i].fd];
            var r := RefOf(pool, items, i);
            && r.index < |BatchRows(pool, items)|
            && TokenAt(m, kv, BatchRows(pool, items), r.index, s.sampling, env.draw(items[i].fd))
               == TokenOf(m, env, CellsOf(kv, s.seqId), s, items[i])
  {
    hide BatchRows, Feed, CellsIn;
    var s := pool[items[i].fd];
    var front := items[..i + 1];
    var upto := BatchRows(pool, front);
    LastRow(pool, items, i);
    assert front[i] == items[i];
    assert AllEnactable(pool, front);
    BatchCells(pool, front, i);
    FeedStores(kv, upto, s.seqId);
  }

  /** The enacted pool still has distinct sequences, and the same ones. */
  lemma EnactKeepsSeqs(pool: Pool, items: seq<BatchItem>, fd: Fd)
    requires DistinctFds(items) && fd in pool
    ensures fd in EnactAll(pool, items) && EnactAll(pool, items)[fd].seqId == pool[fd].seqId
  {
    EnactOthers(pool, items);
    if i :| 0 <= i < |items| && items[i].fd == fd {
      EnactOne(pool, items, i);
    }
  }

  /** The session of one item: exactly what it would do by itself. */
  lemma BusySession(m: LanguageModel, cfg: Config, env: TickEnv, kv: KvStore, pool: Pool, items: seq<BatchItem>, i: nat)
    requires AllEnactable(pool, items) && DistinctSeqs(pool) && i < |items| && Chunk(items[i]) > 0
    ensures var out := RunBatch(m, cfg, env, kv, pool, items);
            var s := pool[items[i].fd];
            && items[i].fd in out.pool
            && out.pool[items[i].fd] == Ticked(m, cfg, env, CellsOf(kv, s.seqId), s, items[i])
            && (items[i].fd in out.arm <==> env.ok && items[i].fd !in env.nullRows && s.tx == [])
  {
    var fd := items[i].fd;
    var rows, refs, enacted := BatchRows(pool, items), Samples(pool, items), EnactAll(pool, items);
    LastRow(pool, items, i);
    EnactOne(pool, items, i);
    SamplesDistinct(pool, items);
    var j := SampleOf(pool, items, i);
    OwnToken(m, env, kv, pool, items, i);
    if env.ok {
      ApplyOne(m, cfg, env, kv, rows, Effects(enacted, Feed(kv, rows), []), refs, j);
    } else {
      FailOne(enacted, refs, j);
    }
  }

  /** The KV cells of one item's sequence. */
  lemma BusyCells(m: LanguageModel, cfg: Config, env: TickEnv, kv: KvStore, pool: Pool, items: seq<BatchItem>, i: nat)
    requires AllEnactable(pool, items) && DistinctSeqs(pool) && i < |items| && Chunk(items[i]) > 0 && env.ok
    ensures var s := pool[items[i].fd];
            CellsOf(RunBatch(m, cfg, env, kv, pool, items).kv, s.seqId)
              == TickedCells(m, cfg, env, CellsOf(kv, s.seqId), s, items[i])
  {
    var s := pool[items[i].fd];
    var q := s.seqId;
    var rows, refs, enacted := BatchRows(pool, items), Samples(pool, items), EnactAll(pool, items);
    LastRow(pool, items, i);
    SamplesDistinct(pool, items);
    var j := SampleOf(pool, items, i);
    forall k | 0 <= k < |refs| && k != j && refs[k].fd in enacted ensures enacted[refs[k].fd].seqId != q {
      var x := SampleFrom(pool, items, k);
      assert refs[k].fd != refs[j].fd;
      EnactKeepsSeqs(pool, items, refs[k].fd);
    }
    EnactOne(pool, items, i);
    BatchCells(pool, items, i);
    FeedStores(kv, rows, q);
    OwnToken(m, env, kv, pool, items, i);
    ApplyOwnCells(m, cfg, env, kv, rows, Effects(enacted, Feed(kv, rows), []), refs, j, q);
  }

  ghost predicate Quiet(pool: Pool, items: seq<BatchItem>, q: nat) {
    forall i :: 0 <= i < |items| && Chunk(items[i]) > 0 ==> !Feeds(pool, items[i], q)
  }

  /** Sequences that no item feeds keep their cells, even when the model call fails. */
  lemma QuietCells(m: LanguageModel, cfg: Config, env: TickEnv, kv: KvStore, pool: Pool, items: seq<BatchItem>, q: nat)
    requires AllEnactable(pool, items) && Quiet(pool, items, q)
    ensures CellsOf(RunBatch(m, cfg, env, kv, pool, items).kv, q) == CellsOf(kv, q)
  {
    var rows, refs, enacted := BatchRows(pool, items), Samples(pool, items), EnactAll(pool, items);
    QuietRows(pool, items, q);
    CellsInNone(rows, q);
    FeedStores(kv, rows, q);
    SamplesDistinct(pool, items);
    forall k | 0 <= k < |refs| && refs[k].fd in enacted ensures enacted[refs[k].fd].seqId != q {
      var x := SampleFrom(pool, items, k);
      assert Enactable(pool, items[x]);
      EnactKeepsSeqs(pool, items, refs[k].fd);
    }
    ApplyKeepsCells(m, cfg, env, kv, rows, Effects(enacted, Feed(kv, rows), []), refs, q);
  }

  lemma {:induction false} QuietRows(pool: Pool, items: seq<BatchItem>, q: nat)
    requires AllEnactable(pool, items) && Quiet(pool, items, q)
    ensures forall j :: 0 <= j < |BatchRows(pool, items)| ==> BatchRows(pool, items)[j].seqId != q
  {
    if items != [] {
      var n := |items| - 1;
      QuietRows(pool, items[..n], q);
      assert Enactable(pool, items[n]);
      ItemRowsLength(pool[items[n].fd], items[n]);
    }
  }
}
