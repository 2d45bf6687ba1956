/** The invariant of the whole daemon, kept by every step, and what it says about every run. */
module Runs {
  import opened Bounds
  import opened Bytes
  import opened Sessions
  import opened Policy
  import opened PlanProperties
  import opened Bmt
  import opened Protocol
  import opened Batch
  import opened NonInterference
  import opened TickSpec
  import opened SessionManagement
  import opened Lifecycle
  import opened Histories
  import opened Invariants
  import opened Controller
  import opened Accounting
  import Solo

  // ---------------------------------------------------------------- the invariant

  /** KV cells belong to live sessions. */
  ghost predicate Owned(pool: Pool, kv: KvStore) {
    forall q: nat :: CellsOf(kv, q) != [] ==> HasOwner(pool, q)
  }

  ghost predicate HasOwner(pool: Pool, q: nat) {
    exists fd :: fd in pool && pool[fd].seqId == q
  }

  /** Sequence ids are handed out once. */
  ghost predicate SeqsBelow(pool: Pool, nextSeq: nat) {
    forall fd :: fd in pool ==> pool[fd].seqId < nextSeq
  }

  ghost predicate SessionAt(m: LanguageModel, cfg: Config, w: State, h: History, fd: Fd) {
    && fd in w.pool && fd in h.logs
    && SessionOk(m, cfg, w.pool[fd], SeqCells(w.kv, w.pool[fd]), h.logs[fd])
  }

  ghost predicate SessionsOk(m: LanguageModel, cfg: Config, w: State, h: History) {
    forall fd :: fd in w.pool ==> SessionAt(m, cfg, w, h, fd)
  }

  /** Requests of all connections, those already closed included. */
  ghost predicate LogsOk(m: LanguageModel, cfg: Config, h: History) {
    forall fd :: fd in h.logs ==> LogOk(m, cfg, h.logs[fd])
  }

  /** Decode times in milliseconds. */
  function Times(calls: seq<Call>): seq<real> {
    seq(|calls|, i requires 0 <= i < |calls| => Millis(calls[i].durNs))
  }

  /** Every call counts exactly the rows of its batch. */
  ghost predicate Sizes(calls: seq<Call>, sizes: seq<nat>) {
    |sizes| == |calls| && forall i :: 0 <= i < |calls| ==> calls[i].Total() == sizes[i]
  }

  /** Target and EWMA are those of the recorded calls, and the counters balance against them. */
  ghost predicate SchedOk(s: SchedState, calls: seq<Call>, sizes: seq<nat>) {
    && s.cap >= 1 && TargetOk(s.cap, s.tuning.target) && Balanced(s.metrics, calls)
    && s.tuning == TuneAll(s.cap, Initial(s.cap), Times(calls)) && Sizes(calls, sizes)
  }

  ghost predicate Inv(m: LanguageModel, cfg: Config, w: State, h: History) {
    && DistinctSeqs(w.pool) && SeqsBelow(w.pool, w.nextSeq) && Owned(w.pool, w.kv)
    && SessionsOk(m, cfg, w, h) && LogsOk(m, cfg, h) && SchedOk(w.sched, h.calls, h.sizes)
  }

  lemma InvPoolOk(m: LanguageModel, cfg: Config, w: State, h: History)
    requires Inv(m, cfg, w, h)
    ensures PoolOk(w.pool)
  {
    hide EntriesOk, WireOk, LogsOk, SchedOk, Owned;
    forall fd | fd in w.pool && (w.pool[fd].state.Prefill? || w.pool[fd].state.Decode?) ensures w.pool[fd].seqId >= 0 {
      assert SessionAt(m, cfg, w, h, fd);
    }
  }

  lemma InitialInv(m: LanguageModel, cfg: Config, w: State, h: History)
    requires w.sched.cap >= 1 && w == InitialState(w.sched.cap) && h == EMPTY_HISTORY
    ensures Inv(m, cfg, w, h)
  {
    hide SessionAt, LogOk, SchedOk, InitialSched;
    InitialSchedOk(w.sched, h.calls, h.sizes);
  }

  lemma InitialSchedOk(s: SchedState, calls: seq<Call>, sizes: seq<nat>)
    requires s.cap >= 1 && s == InitialSched(s.cap) && calls == [] && sizes == []
    ensures SchedOk(s, calls, sizes)
  {
    hide Balanced, TargetOk;
    ZeroBalances(s.metrics, calls);
    InitialTarget(s.cap);
  }

  // ---------------------------------------------------------------- replacing and removing one session

  /** One session changes, the KV memory does not. */
  lemma ReplaceSession(m: LanguageModel, cfg: Config, w: State, h: History, fd: Fd, s: ClientSession, log: Log, w1: State, h1: History)
    requires Inv(m, cfg, w, h) && fd in w.pool
    requires w1.pool == w.pool[fd := s] && w1.kv == w.kv && w1.sched == w.sched && w1.nextSeq >= w.nextSeq
    requires h1 == h.(logs := h.logs[fd := log])
    requires s.seqId == w.pool[fd].seqId || (w.pool[fd].seqId < 0 && s.seqId == w.nextSeq < w1.nextSeq)
    requires SessionOk(m, cfg, s, SeqCells(w.kv, s), log)
    ensures Inv(m, cfg, w1, h1)
  {
    hide SessionOk, LogOk, SchedOk;
    LogOfSession(m, cfg, s, SeqCells(w.kv, s), log);
    forall g | g in w1.pool ensures SessionAt(m, cfg, w1, h1, g) {
      if g != fd { assert SessionAt(m, cfg, w, h, g); }
    }
    OwnersKept(w.pool, fd, s, w.kv);
  }

  lemma LogOfSession(m: LanguageModel, cfg: Config, s: ClientSession, cells: seq<Cell>, log: Log)
    requires SessionOk(m, cfg, s, cells, log)
    ensures LogOk(m, cfg, log)
  {
    hide EntriesOk, PhaseOk, Wire;
  }

  lemma OwnersKept(pool: Pool, fd: Fd, s: ClientSession, kv: KvStore)
    requires Owned(pool, kv) && fd in pool && (s.seqId == pool[fd].seqId || pool[fd].seqId < 0)
    ensures Owned(pool[fd := s], kv)
  {
    forall q: nat | CellsOf(kv, q) != [] ensures HasOwner(pool[fd := s], q) {
      assert HasOwner(pool, q);
      var g :| g in pool && pool[g].seqId == q;
      assert g in pool[fd := s] && pool[fd := s][g].seqId == q;
    }
  }

  /** A fresh sequence id has no cells yet. */
  lemma FreshSeqIsEmpty(pool: Pool, kv: KvStore, nextSeq: nat)
    requires Owned(pool, kv) && SeqsBelow(pool, nextSeq)
    ensures CellsOf(kv, nextSeq) == []
  {
    assert CellsOf(kv, nextSeq) != [] ==> HasOwner(pool, nextSeq);
  }

  /** Closing sessions takes their cells away and nobody else's. */
  lemma RemoveSessions(m: LanguageModel, cfg: Config, w: State, h: History, gone: set<Fd>, w1: State)
    requires Inv(m, cfg, w, h)
    requires w1.pool == w.pool - gone && w1.sched == w.sched && w1.nextSeq == w.nextSeq
    requires forall q: nat :: CellsOf(w1.kv, q) == if exists fd :: fd in gone && fd in w.pool && w.pool[fd].seqId == q then [] else CellsOf(w.kv, q)
    ensures Inv(m, cfg, w1, h)
  {
    hide SessionOk, LogOk, SchedOk;
    forall g | g in w1.pool ensures SessionAt(m, cfg, w1, h, g) {
      assert SessionAt(m, cfg, w, h, g);
      assert SeqCells(w1.kv, w.pool[g]) == SeqCells(w.kv, w.pool[g]);
    }
    forall q: nat | CellsOf(w1.kv, q) != [] ensures HasOwner(w1.pool, q) {
      assert HasOwner(w.pool, q);
      var g :| g in w.pool && w.pool[g].seqId == q;
      assert g in w1.pool;
    }
  }

  lemma CloseKeepsInv(m: LanguageModel, cfg: Config, w: State, h: History, fd: Fd)
    requires Inv(m, cfg, w, h)
    ensures Inv(m, cfg, CloseFd(w, fd), h)
  {
    hide Inv;
    RemoveSessions(m, cfg, w, h, {fd}, CloseFd(w, fd));
  }

  lemma IdleKeepsInv(m: LanguageModel, cfg: Config, w: State, h: History, now: nat)
    requires Inv(m, cfg, w, h)
    ensures Inv(m, cfg, NextIdle(cfg, w, now), h)
  {
    hide Inv;
    RemoveSessions(m, cfg, w, h, IdleFds(cfg, w.pool, now), NextIdle(cfg, w, now));
  }

  // ---------------------------------------------------------------- accept, write

  lemma NewSessionOk(m: LanguageModel, cfg: Config, now: nat)
    ensures SessionOk(m, cfg, NewSession(now), [], Log([], []))
  {
  }

  lemma AcceptKeepsInv(m: LanguageModel, cfg: Config, w: State, h: History, fd: Fd, now: nat)
    requires Inv(m, cfg, w, h) && fd !in w.pool && |w.pool| < cfg.maxSessions
    ensures Inv(m, cfg, NextAccept(cfg, w, fd, now), h.(logs := h.logs[fd := Log([], [])]))
  {
    hide SessionOk, LogOk, SchedOk;
    var w1 := NextAccept(cfg, w, fd, now);
    var h1 := h.(logs := h.logs[fd := Log([], [])]);
    NewSessionOk(m, cfg, now);
    LogOfSession(m, cfg, NewSession(now), [], Log([], []));
    forall g | g in w1.pool ensures SessionAt(m, cfg, w1, h1, g) {
      if g != fd { assert SessionAt(m, cfg, w, h, g); }
    }
    forall q: nat | CellsOf(w1.kv, q) != [] ensures HasOwner(w1.pool, q) {
      assert HasOwner(w.pool, q);
      var g :| g in w.pool && w.pool[g].seqId == q;
      assert g in w1.pool && w1.pool[g].seqId == q;
    }
  }

  /** Sending a prefix of `tx` moves bytes from the buffer to the client and changes nothing else. */
  lemma SentOk(m: LanguageModel, cfg: Config, s: ClientSession, cells: seq<Cell>, log: Log, n: nat, now: nat)
    requires SessionOk(m, cfg, s, cells, log) && n <= |s.tx|
    ensures SessionOk(m, cfg, s.(tx := s.tx[n..], lastActivityNs := now), cells, log.(delivered := log.delivered + s.tx[..n]))
  {
    hide EntriesOk;
    assert (log.delivered + s.tx[..n]) + s.tx[n..] == log.delivered + s.tx;
  }

  lemma ResetOk(m: LanguageModel, cfg: Config, s: ClientSession, cells: seq<Cell>, log: Log)
    requires SessionOk(m, cfg, s, cells, log) && s.state.Stream?
    ensures SessionOk(m, cfg, Reset(s), cells, log)
  {
    hide EntriesOk;
  }

  lemma FlushedKeepsInv(m: LanguageModel, cfg: Config, w: State, h: History, fd: Fd)
    requires Inv(m, cfg, w, h) && fd in w.pool
    ensures Inv(m, cfg, Flushed(w, fd), h)
  {
    var s := w.pool[fd];
    if s.state.Errored? || (s.state.Stream? && s.readClosed) {
      CloseKeepsInv(m, cfg, w, h, fd);
    } else if s.state.Stream? {
      assert SessionAt(m, cfg, w, h, fd);
      ResetOk(m, cfg, s, SeqCells(w.kv, s), h.logs[fd]);
      assert h.logs[fd := h.logs[fd]] == h.logs;
      hide Inv;
      hide SessionOk;
      ReplaceSession(m, cfg, w, h, fd, Reset(s), h.logs[fd], Flushed(w, fd), h);
    }
  }

  /** Poller interest plays no part in the invariant. */
  lemma InterestIsFree(m: LanguageModel, cfg: Config, w: State, h: History, readers: set<Fd>, writers: set<Fd>)
    requires Inv(m, cfg, w, h)
    ensures Inv(m, cfg, w.(readers := readers, writers := writers), h)
  {
    var w1 := w.(readers := readers, writers := writers);
    hide SessionOk, LogOk, SchedOk;
    forall g | g in w1.pool ensures SessionAt(m, cfg, w1, h, g) {
      assert SessionAt(m, cfg, w, h, g);
    }
  }

  /** The write loop on one session, before the flushed session is finished. */
  lemma WriteKeepsInv(m: LanguageModel, cfg: Config, w: State, h: History, fd: Fd, n: nat, now: nat, w1: State, h1: History)
    requires Inv(m, cfg, w, h) && fd in w.pool && fd in h.logs && n <= |w.pool[fd].tx|
    requires w1 == w.(pool := w.pool[fd := w.pool[fd].(tx := w.pool[fd].tx[n..], lastActivityNs := now)])
    requires h1 == h.(logs := h.logs[fd := h.logs[fd].(delivered := h.logs[fd].delivered + w.pool[fd].tx[..n])])
    ensures Inv(m, cfg, w1, h1)
  {
    hide SessionOk;
    var s := w.pool[fd];
    assert SessionAt(m, cfg, w, h, fd);
    SentOk(m, cfg, s, SeqCells(w.kv, s), h.logs[fd], n, now);
    hide Inv;
    ReplaceSession(m, cfg, w, h, fd, w1.pool[fd], h1.logs[fd], w1, h1);
  }

  lemma LoggedSessions(m: LanguageModel, cfg: Config, w: State, h: History, fd: Fd)
    requires Inv(m, cfg, w, h) && fd in w.pool
    ensures fd in h.logs && SessionOk(m, cfg, w.pool[fd], SeqCells(w.kv, w.pool[fd]), h.logs[fd])
  {
    hide SessionOk;
    assert SessionAt(m, cfg, w, h, fd);
  }

  lemma WritableKeepsInv(m: LanguageModel, cfg: Config, w: State, h: History, fd: Fd, writes: seq<nat>, broken: bool, now: nat)
    requires Inv(m, cfg, w, h) && fd in w.pool && fd in h.logs
    ensures Inv(m, cfg, NextWritable(w, fd, writes, broken, now),
                h.(logs := h.logs[fd := LogWrite(h.logs[fd], w.pool[fd], writes)]))
  {
    hide Inv;
    var s := w.pool[fd];
    var rest := Unsent(s.tx, writes);
    UnsentIsSuffix(s.tx, writes);
    var s1 := Written(s, writes, now);
    var w1 := w.(pool := w.pool[fd := s1]);
    var h1 := h.(logs := h.logs[fd := LogWrite(h.logs[fd], s, writes)]);
    WriteKeepsInv(m, cfg, w, h, fd, |s.tx| - |rest|, s1.lastActivityNs, w1, h1);
    if rest == [] {
      InterestIsFree(m, cfg, w1, h1, w1.readers, w1.writers - {fd});
      FlushedKeepsInv(m, cfg, w1.(writers := w1.writers - {fd}), h1, fd);
    } else if broken {
      CloseKeepsInv(m, cfg, w1, h1, fd);
    }
  }

  // ---------------------------------------------------------------- read

  ghost predicate AllClosed(entries: seq<Entry>) {
    forall i :: 0 <= i < |entries| ==> !entries[i].end.Open?
  }

  lemma QuietIsClosed(m: LanguageModel, cfg: Config, s: ClientSession, cells: seq<Cell>, log: Log)
    requires SessionOk(m, cfg, s, cells, log) && (s.state.RecvReq? || s.state.Stream?)
    ensures AllClosed(log.entries) && cells == []
  {
  }

  /** A new entry with its events keeps the log consistent. */
  lemma AppendEntry(m: LanguageModel, cfg: Config, tx: bytes, log: Log, e: Entry)
    requires EntriesOk(m, cfg, log.entries) && AllClosed(log.entries) && WireOk(m, tx, log) && EntryOk(m, cfg, e)
    ensures EntriesOk(m, cfg, log.entries + [e])
    ensures WireOk(m, tx + Wire(EventsOf(m, e)), log.(entries := log.entries + [e]))
  {
    hide EntryOk;
    hide EventsOf;
    hide Wire;
    var es := log.entries + [e];
    assert es[..|es| - 1] == log.entries;
    WireAppend(AllEvents(m, log.entries), EventsOf(m, e));
    assert log.delivered + (tx + Wire(EventsOf(m, e))) == (log.delivered + tx) + Wire(EventsOf(m, e));
  }

  /** Entries that start with no tokens. */
  lemma BlankEntry(m: LanguageModel, cfg: Config, e: Entry)
    requires e.fed == [] && e.tokens == [] && e.draws == [] && !e.end.Sampled? && Tokenised(m, cfg, e.prompt)
    ensures EntryOk(m, cfg, e) && EventsOf(m, e) == EndOut(e.id, e.end)
  {
    assert [] + EndOut(e.id, e.end) == EndOut(e.id, e.end);
  }

  /** An answered request: the session streams the answer. */
  lemma AnsweredOk(m: LanguageModel, cfg: Config, s: ClientSession, log: Log, s1: ClientSession, e: Entry)
    requires EntriesOk(m, cfg, log.entries) && AllClosed(log.entries) && WireOk(m, s.tx, log)
    requires e.prompt == [] && e.fed == [] && e.tokens == [] && e.draws == [] && !e.end.Sampled? && !e.end.Open?
    requires s1.state.Stream? && s1.tx == s.tx + Wire(EndOut(e.id, e.end))
    ensures SessionOk(m, cfg, s1, [], log.(entries := log.entries + [e]))
  {
    hide Wire, EndOut, EventsOf, EntryOk, EntriesOk, WireOk;
    BlankEntry(m, cfg, e);
    AppendEntry(m, cfg, s.tx, log, e);
  }

  /** An accepted prompt: an open entry, an empty sequence. */
  lemma StartedOk(m: LanguageModel, cfg: Config, s: ClientSession, log: Log, s1: ClientSession, nextSeq: nat, toks: seq<int>, e: Entry)
    requires EntriesOk(m, cfg, log.entries) && AllClosed(log.entries) && WireOk(m, s.tx, log)
    requires s1.tx == s.tx && toks != [] && Tokenised(m, cfg, toks)
    requires e == Entry(s1.requestId, toks, [], s1.sampling, [], [], Open)
    ensures SessionOk(m, cfg, StartRequest(s1, nextSeq, toks), [], log.(entries := log.entries + [e]))
  {
    assert s.tx + Wire([]) == s.tx;
    hide Wire, EventsOf, EntryOk, EntriesOk, WireOk;
    BlankEntry(m, cfg, e);
    AppendEntry(m, cfg, s.tx, log, e);
    assert Solo.Place(toks[..0]) == [];
  }

  /** The sequence id is kept, or assigned from the counter. */
  ghost predicate SeqAssigned(s: ClientSession, nextSeq: nat, out: ReadOutcome) {
    || (out.s.seqId == s.seqId && out.nextSeq == nextSeq)
    || (s.seqId < 0 && out.s.seqId == nextSeq && out.nextSeq == nextSeq + 1)
  }

  /** A frame in a quiet state leaves a consistent session with one more entry. */
  ghost predicate FrameGood(m: LanguageModel, cfg: Config, s: ClientSession, log: Log, nextSeq: nat, out: ReadOutcome) {
    SeqAssigned(s, nextSeq, out) && SessionOk(m, cfg, out.s, [], log.(entries := log.entries + [NewEntry(out)]))
  }

  ghost predicate Consistent(m: LanguageModel, cfg: Config, tx: bytes, log: Log) {
    EntriesOk(m, cfg, log.entries) && AllClosed(log.entries) && WireOk(m, tx, log)
  }

  lemma RefuseGood(m: LanguageModel, cfg: Config, s: ClientSession, s1: ClientSession, log: Log, nextSeq: nat, id: bytes, code: bytes, message: bytes)
    requires Consistent(m, cfg, s.tx, log) && s1.tx == s.tx && s1.seqId == s.seqId
    ensures FrameGood(m, cfg, s, log, nextSeq, Refuse(s1, nextSeq, Error(id, code, message)))
  {
    hide Wire, EntriesOk, WireOk, SessionOk;
    var out := Refuse(s1, nextSeq, Error(id, code, message));
    AnsweredOk(m, cfg, s, log, out.s, NewEntry(out));
  }

  lemma SnapshotGood(m: LanguageModel, cfg: Config, s: ClientSession, log: Log, nextSeq: nat, out: ReadOutcome, json: bytes)
    requires Consistent(m, cfg, s.tx, log) && out.queued == [Snapshot(json)] && out.s.state.Stream?
    requires out.s.tx == s.tx + Wire([Snapshot(json)]) && out.s.seqId == s.seqId && out.nextSeq == nextSeq
    ensures FrameGood(m, cfg, s, log, nextSeq, out)
  {
    hide Wire, EntriesOk, WireOk, SessionOk;
    AnsweredOk(m, cfg, s, log, out.s, NewEntry(out));
  }

  lemma GenerateGood(m: LanguageModel, cfg: Config, s: ClientSession, log: Log, nextSeq: nat, js: bytes, ev: ReadEvent)
    requires Consistent(m, cfg, s.tx, log) && Classify(cfg, js).Generate?
    ensures FrameGood(m, cfg, s, log, nextSeq, HandlePayload(m, cfg, s, nextSeq, js, ev))
  {
    hide Wire, EntriesOk, WireOk, SessionOk, Classify;
    PromptFits(cfg, js);
    var out := HandlePayload(m, cfg, s, nextSeq, js, ev);
    var r := Classify(cfg, js);
    var s1 := s.(requestId := r.id, sampling := Prefer(s.sampling, ev.wanted));
    var toks := m.tokenize(r.prompt);
    if toks != [] {
      StartedOk(m, cfg, s, log, s1, nextSeq, toks, NewEntry(out));
    } else {
      AnsweredOk(m, cfg, s, log, out.s, NewEntry(out));
    }
  }

  lemma PayloadGood(m: LanguageModel, cfg: Config, s: ClientSession, log: Log, nextSeq: nat, js: bytes, ev: ReadEvent)
    requires Consistent(m, cfg, s.tx, log) && !Classify(cfg, js).AdminRequest?
    ensures FrameGood(m, cfg, s, log, nextSeq, HandlePayload(m, cfg, s, nextSeq, js, ev))
  {
    hide Wire, EntriesOk, WireOk, SessionOk, Classify;
    match Classify(cfg, js) {
      case Refused(id, code, message) => RefuseGood(m, cfg, s, s, log, nextSeq, id, code, message);
      case Oversized(id) =>
        RefuseGood(m, cfg, s, s.(requestId := id, sampling := Prefer(s.sampling, ev.wanted)), log, nextSeq, id, E_LIMIT_001, PROMPT_TOO_LARGE);
      case Generate(id, prompt) => GenerateGood(m, cfg, s, log, nextSeq, js, ev);
    }
  }

  /** `FrameGood` looks at the output buffer and the sequence id of the session before, nothing else. */
  lemma FrameGoodTransfers(m: LanguageModel, cfg: Config, s: ClientSession, t: ClientSession, log: Log, nextSeq: nat, out: ReadOutcome)
    requires FrameGood(m, cfg, t, log, nextSeq, out) && s.seqId == t.seqId
    ensures FrameGood(m, cfg, s, log, nextSeq, out)
  {
    hide SessionOk;
  }

  lemma FrameKeepsSession(m: LanguageModel, cfg: Config, s: ClientSession, log: Log, nextSeq: nat, ev: ReadEvent, metrics: bytes)
    requires Consistent(m, cfg, s.tx, log) && Answers(s, ev)
    ensures FrameGood(m, cfg, s, log, nextSeq, AfterRequest(m, cfg, s, nextSeq, ev, metrics))
  {
    hide Wire, EntriesOk, WireOk, SessionOk, Classify, FrameGood;
    var s1 := AfterRead(s, ev);
    match TryReadFrame(s1.rx, MAX_FRAME_BYTES) {
      case InvalidLength =>
        RefuseGood(m, cfg, s, s1, log, nextSeq, s1.requestId, E_PROTO_INVALID_LEN, INVALID_LENGTH);
      case TooLarge =>
        RefuseGood(m, cfg, s, s1, log, nextSeq, s1.requestId, E_PROTO_FRAME_TOO_LARGE, FRAME_TOO_LARGE);
      case Got(js, rest) =>
        var s2 := s1.(rx := rest);
        if Classify(cfg, js).AdminRequest? {
          SnapshotGood(m, cfg, s, log, nextSeq, AfterRequest(m, cfg, s, nextSeq, ev, metrics), metrics);
        } else {
          PayloadGood(m, cfg, s2, log, nextSeq, js, ev);
          FrameGoodTransfers(m, cfg, s, s2, log, nextSeq, HandlePayload(m, cfg, s2, nextSeq, js, ev));
        }
      case NeedMore => assert false;
    }
  }

  lemma BytesReadOk(m: LanguageModel, cfg: Config, s: ClientSession, cells: seq<Cell>, log: Log, ev: ReadEvent)
    requires SessionOk(m, cfg, s, cells, log)
    ensures SessionOk(m, cfg, AfterRead(s, ev), cells, log)
  {
    hide EntriesOk, WireOk;
  }

  function LogFrame(log: Log, s: ClientSession, ev: ReadEvent, out: ReadOutcome): Log {
    log.(entries := if Answers(s, ev) then log.entries + [NewEntry(out)] else log.entries)
  }

  /** The session and its log after `on_readable`, before the immediate write. */
  lemma ReadKeepsSession(m: LanguageModel, cfg: Config, w: State, h: History, fd: Fd, ev: ReadEvent, metrics: bytes)
    requires Inv(m, cfg, w, h) && fd in w.pool && fd in h.logs
    requires Answers(w.pool[fd], ev) ==> w.pool[fd].state.RecvReq? || w.pool[fd].state.Stream?
    ensures var s := w.pool[fd];
            var out := AfterRequest(m, cfg, s, w.nextSeq, ev, metrics);
            && SeqAssigned(s, w.nextSeq, out)
            && SessionOk(m, cfg, out.s, SeqCells(w.kv, out.s), LogFrame(h.logs[fd], s, ev, out))
  {
    hide AfterRequest, SessionOk, EntriesOk, AllClosed, WireOk, SessionsOk, LogsOk, SchedOk, Answers;
    var s := w.pool[fd];
    var log := h.logs[fd];
    LoggedSessions(m, cfg, w, h, fd);
    if Answers(s, ev) {
      QuietIsClosed(m, cfg, s, SeqCells(w.kv, s), log);
      SessionParts(m, cfg, s, SeqCells(w.kv, s), log);
      FreshSeqIsEmpty(w.pool, w.kv, w.nextSeq);
      FrameKeepsSession(m, cfg, s, log, w.nextSeq, ev, metrics);
    } else {
      NoFrameKeepsSession(m, cfg, s, SeqCells(w.kv, s), log, w.nextSeq, ev, metrics);
    }
  }

  lemma NoFrameKeepsSession(m: LanguageModel, cfg: Config, s: ClientSession, cells: seq<Cell>, log: Log, nextSeq: nat, ev: ReadEvent, metrics: bytes)
    requires SessionOk(m, cfg, s, cells, log) && !Answers(s, ev)
    ensures var out := AfterRequest(m, cfg, s, nextSeq, ev, metrics);
            && out.s.seqId == s.seqId && out.nextSeq == nextSeq
            && SessionOk(m, cfg, out.s, cells, LogFrame(log, s, ev, out))
  {
    hide SessionOk, TryReadFrame, HandlePayload;
    BytesReadOk(m, cfg, s, cells, log, ev);
    assert log.(entries := log.entries) == log;
  }

  lemma ReadKeepsInv(m: LanguageModel, cfg: Config, w: State, h: History, fd: Fd, ev: ReadEvent, metrics: bytes, w1: State, h1: History)
    requires Inv(m, cfg, w, h) && fd in w.pool && fd in h.logs
    requires Answers(w.pool[fd], ev) ==> w.pool[fd].state.RecvReq? || w.pool[fd].state.Stream?
    requires var out := AfterRequest(m, cfg, w.pool[fd], w.nextSeq, ev, metrics);
             && w1 == w.(pool := w.pool[fd := out.s], nextSeq := out.nextSeq)
             && h1 == h.(logs := h.logs[fd := LogFrame(h.logs[fd], w.pool[fd], ev, out)])
    ensures Inv(m, cfg, w1, h1)
  {
    hide Inv, SessionOk, AfterRequest, Answers, LogFrame;
    ReadKeepsSession(m, cfg, w, h, fd, ev, metrics);
    ReplaceSession(m, cfg, w, h, fd, w1.pool[fd], h1.logs[fd], w1, h1);
  }

  /** The immediate write after a request and the finishing of a flushed session. */
  lemma AnswerKeepsInv(m: LanguageModel, cfg: Config, w: State, h: History, fd: Fd, n: nat, readers: set<Fd>, w1: State, h1: History)
    requires Inv(m, cfg, w, h) && fd in w.pool && fd in h.logs && n <= |w.pool[fd].tx|
    requires var s := w.pool[fd].(tx := w.pool[fd].tx[n..]);
             var wr := w.(pool := w.pool[fd := s], readers := readers);
             w1 == if s.tx != [] then wr.(writers := wr.writers + {fd})
                   else
                     var w2 := Flushed(wr, fd);
                     if fd in w2.pool && s.state.Stream? then w2.(readers := w2.readers + {fd}) else w2
    requires h1 == h.(logs := h.logs[fd := h.logs[fd].(delivered := h.logs[fd].delivered + w.pool[fd].tx[..n])])
    ensures Inv(m, cfg, w1, h1)
  {
    hide Inv;
    var s := w.pool[fd].(tx := w.pool[fd].tx[n..]);
    var ws := w.(pool := w.pool[fd := s]);
    WriteKeepsInv(m, cfg, w, h, fd, n, w.pool[fd].lastActivityNs, ws, h1);
    var wr := ws.(readers := readers);
    InterestIsFree(m, cfg, ws, h1, readers, ws.writers);
    if s.tx != [] {
      InterestIsFree(m, cfg, wr, h1, readers, wr.writers + {fd});
    } else {
      FlushedKeepsInv(m, cfg, wr, h1, fd);
      var w2 := Flushed(wr, fd);
      InterestIsFree(m, cfg, w2, h1, w2.readers + {fd}, w2.writers);
    }
  }

  lemma ReadableKeepsInv(m: LanguageModel, cfg: Config, w: State, h: History, fd: Fd, ev: ReadEvent, metrics: bytes, wrote: nat)
    requires Inv(m, cfg, w, h) && fd in w.pool && fd in h.logs
    requires Answers(w.pool[fd], ev) ==> w.pool[fd].state.RecvReq? || w.pool[fd].state.Stream?
    ensures var out := AfterRequest(m, cfg, w.pool[fd], w.nextSeq, ev, metrics);
            Inv(m, cfg, NextReadable(m, cfg, w, fd, ev, metrics, wrote),
                h.(logs := h.logs[fd := LogRead(h.logs[fd], w.pool[fd], ev, out, wrote)]))
  {
    hide Inv, AfterRequest, Answers, NewEntry;
    var s, log := w.pool[fd], h.logs[fd];
    var out := AfterRequest(m, cfg, s, w.nextSeq, ev, metrics);
    var wa := w.(pool := w.pool[fd := out.s], nextSeq := out.nextSeq);
    var ha := h.(logs := h.logs[fd := LogFrame(log, s, ev, out)]);
    ReadKeepsInv(m, cfg, w, h, fd, ev, metrics, wa, ha);
    var readers := if out.removedRead then w.readers - {fd} else w.readers;
    var h1 := h.(logs := h.logs[fd := LogRead(log, s, ev, out, wrote)]);
    var w1 := NextReadable(m, cfg, w, fd, ev, metrics, wrote);
    if !out.wantsWrite {
      InterestIsFree(m, cfg, wa, ha, readers, wa.writers);
      assert log.delivered + [] == log.delivered;
    } else {
      var n := Min(wrote, |out.s.tx|);
      assert h1.logs == ha.logs[fd := ha.logs[fd].(delivered := ha.logs[fd].delivered + out.s.tx[..n])];
      var sx := out.s.(tx := out.s.tx[n..]);
      assert wa.pool[fd := sx] == w.pool[fd := sx];
      AnswerKeepsInv(m, cfg, wa, ha, fd, n, readers, w1, h1);
    }
  }

  // ---------------------------------------------------------------- tick

  /** Amending the last entry together with the output buffer. */
  lemma AmendOk(m: LanguageModel, cfg: Config, log: Log, tx: bytes, s1: ClientSession, cells1: seq<Cell>, e1: Entry, news: seq<Event>)
    requires log.entries != [] && EntriesOk(m, cfg, log.entries) && WireOk(m, tx, log) && EntryOk(m, cfg, e1)
    requires s1.tx == tx + Wire(news) && EventsOf(m, e1) == EventsOf(m, Last(log.entries)) + news
    requires PhaseOk(s1, cells1, e1)
    ensures SessionOk(m, cfg, s1, cells1, Amend(log, e1))
  {
    hide EntryOk, EventsOf, Wire, PhaseOk;
    var es := Amend(log, e1).entries;
    var front := log.entries[..|log.entries| - 1];
    assert es[..|es| - 1] == front && Last(es) == e1;
    WireAppend(AllEvents(m, front), EventsOf(m, e1));
    WireAppend(AllEvents(m, front), EventsOf(m, Last(log.entries)));
    WireAppend(EventsOf(m, Last(log.entries)), news);
    assert log.delivered + (tx + Wire(news)) == (log.delivered + tx) + Wire(news);
  }

  lemma AmendSame(log: Log)
    requires log.entries != []
    ensures Amend(log, Last(log.entries)) == log
  {
    assert log.entries[..|log.entries| - 1] + [Last(log.entries)] == log.entries;
  }

  /** The item of a session is the only one that can feed its sequence. */
  lemma IdleIsQuiet(pool: Pool, items: seq<BatchItem>, fd: Fd)
    requires AllEnactable(pool, items) && DistinctSeqs(pool) && fd in pool && pool[fd].seqId >= 0
    requires forall i :: 0 <= i < |items| && items[i].fd == fd ==> Chunk(items[i]) == 0
    ensures Quiet(pool, items, pool[fd].seqId)
  {
  }

  lemma OnlyItem(items: seq<BatchItem>, fd: Fd, i: nat)
    requires DistinctFds(items) && i < |items| && items[i].fd == fd
    ensures forall k :: 0 <= k < |items| && items[k].fd == fd ==> k == i
  {
  }

  /** A session that is not served keeps everything. */
  lemma IdleAt(m: LanguageModel, cfg: Config, w: State, env: TickEnv, items: seq<BatchItem>, fd: Fd, log: Log)
    requires AllEnactable(w.pool, items) && DistinctSeqs(w.pool) && fd in w.pool
    requires forall i :: 0 <= i < |items| && items[i].fd == fd ==> Chunk(items[i]) == 0
    ensures var e := RunBatch(m, cfg, env, w.kv, w.pool, items);
            && fd in e.pool && e.pool[fd] == w.pool[fd] && SeqCells(e.kv, e.pool[fd]) == SeqCells(w.kv, w.pool[fd])
            && LogTick(m, cfg, env, w.kv, w.pool, items, fd, log) == log
  {
    hide RunBatch, TokenOf, Ends;
    IdleSession(m, cfg, env, w.kv, w.pool, items, fd);
    if w.pool[fd].seqId >= 0 {
      IdleIsQuiet(w.pool, items, fd);
      QuietCells(m, cfg, env, w.kv, w.pool, items, w.pool[fd].seqId);
    }
    if log.entries != [] { AmendSame(log); }
  }

  lemma TickedKeepsSeq(m: LanguageModel, cfg: Config, env: TickEnv, cells: seq<Cell>, s: ClientSession, it: BatchItem)
    requires CanFeed(s, it)
    ensures Ticked(m, cfg, env, cells, s, it).seqId == s.seqId
  {
    hide TokenOf, Wire, Ends, SampleEvents;
  }

  /** Any served session: entry, phase and output by the local lemmas. */
  lemma ServedAt(m: LanguageModel, cfg: Config, env: TickEnv, cells: seq<Cell>, s: ClientSession, it: BatchItem, log: Log)
    requires SessionOk(m, cfg, s, cells, log) && CanFeed(s, it) && Chunk(it) > 0
    requires (it.phase.DECODE? && DecodeReady(s)) || (it.phase.PREFILL? && PrefillReady(s))
    ensures log.entries != [] && Served(m, cfg, env, cells, s, it, Last(log.entries))
  {
    hide Served, WireOk;
    var e := Last(log.entries);
    assert EntryOk(m, cfg, e);
    if it.phase.DECODE? {
      DecodeTick(m, cfg, env, cells, s, it, e);
    } else {
      PrefillTick(m, cfg, env, cells, s, it, e);
    }
  }

  lemma SessionParts(m: LanguageModel, cfg: Config, s: ClientSession, cells: seq<Cell>, log: Log)
    requires SessionOk(m, cfg, s, cells, log)
    ensures EntriesOk(m, cfg, log.entries) && WireOk(m, s.tx, log)
  {
    hide EntriesOk, WireOk, PhaseOk;
  }

  lemma ServedParts(m: LanguageModel, cfg: Config, env: TickEnv, cells: seq<Cell>, s: ClientSession, it: BatchItem, e: Entry, after: seq<Cell>)
    requires CanFeed(s, it) && Served(m, cfg, env, cells, s, it, e)
    requires env.ok ==> after == TickedCells(m, cfg, env, cells, s, it)
    ensures var s1, e1 := Ticked(m, cfg, env, cells, s, it), LogSample(m, cfg, env, cells, s, it, e);
            && EntryOk(m, cfg, e1) && PhaseOk(s1, after, e1)
            && s1.tx == s.tx + Wire(NewEvents(m, cfg, env, cells, s, it))
            && EventsOf(m, e1) == EventsOf(m, e) + NewEvents(m, cfg, env, cells, s, it)
  {
    hide Ticked, TickedCells, LogSample, NewEvents, EntryOk, EventsOf, Wire;
  }

  lemma BusyOk(m: LanguageModel, cfg: Config, env: TickEnv, cells: seq<Cell>, s: ClientSession, it: BatchItem, log: Log, after: seq<Cell>)
    requires SessionOk(m, cfg, s, cells, log) && CanFeed(s, it) && Chunk(it) > 0
    requires (it.phase.DECODE? && DecodeReady(s)) || (it.phase.PREFILL? && PrefillReady(s))
    requires env.ok ==> after == TickedCells(m, cfg, env, cells, s, it)
    ensures log.entries != []
    ensures SessionOk(m, cfg, Ticked(m, cfg, env, cells, s, it), after,
                      Amend(log, LogSample(m, cfg, env, cells, s, it, Last(log.entries))))
  {
    hide Ticked, TickedCells, LogSample, NewEvents, EntryOk, EntriesOk, EventsOf, Wire, WireOk, PhaseOk, SessionOk, Served;
    ServedAt(m, cfg, env, cells, s, it, log);
    ServedParts(m, cfg, env, cells, s, it, Last(log.entries), after);
    SessionParts(m, cfg, s, cells, log);
    AmendOk(m, cfg, log, s.tx, Ticked(m, cfg, env, cells, s, it), after,
            LogSample(m, cfg, env, cells, s, it, Last(log.entries)), NewEvents(m, cfg, env, cells, s, it));
  }

  /** A served session and its log after the tick. */
  lemma BusyAt(m: LanguageModel, cfg: Config, w: State, h: History, env: TickEnv, items: seq<BatchItem>, i: nat)
    requires Inv(m, cfg, w, h) && FinalItems(w.pool, items) && AllEnactable(w.pool, items)
    requires i < |items| && Chunk(items[i]) > 0 && items[i].fd in h.logs
    ensures var e := RunBatch(m, cfg, env, w.kv, w.pool, items);
            var fd := items[i].fd;
            && fd in e.pool && e.pool[fd].seqId == w.pool[fd].seqId
            && SessionOk(m, cfg, e.pool[fd], SeqCells(e.kv, e.pool[fd]), LogTick(m, cfg, env, w.kv, w.pool, items, fd, h.logs[fd]))
  {
    hide SessionOk, RunBatch, Ticked, TickedCells, LogSample, SessionsOk, LogsOk, SchedOk, Owned;
    var fd := items[i].fd;
    assert FinalItem(w.pool, items[i]) && Enactable(w.pool, items[i]);
    LoggedSessions(m, cfg, w, h, fd);
    assert DistinctSeqs(w.pool);
    hide Inv, FinalItems;
    OnlyItem(items, fd, i);
    var s := w.pool[fd];
    BusySession(m, cfg, env, w.kv, w.pool, items, i);
    TickedKeepsSeq(m, cfg, env, CellsOf(w.kv, s.seqId), s, items[i]);
    if env.ok { BusyCells(m, cfg, env, w.kv, w.pool, items, i); }
    var e := RunBatch(m, cfg, env, w.kv, w.pool, items);
    BusyOk(m, cfg, env, SeqCells(w.kv, s), s, items[i], h.logs[fd], SeqCells(e.kv, e.pool[fd]));
  }

  /** The effects of a tick on every session. */
  lemma TickAt(m: LanguageModel, cfg: Config, w: State, h: History, env: TickEnv, items: seq<BatchItem>, fd: Fd)
    requires Inv(m, cfg, w, h) && FinalItems(w.pool, items) && AllEnactable(w.pool, items) && fd in w.pool && fd in h.logs
    ensures var e := RunBatch(m, cfg, env, w.kv, w.pool, items);
            && fd in e.pool && e.pool[fd].seqId == w.pool[fd].seqId
            && SessionOk(m, cfg, e.pool[fd], SeqCells(e.kv, e.pool[fd]), LogTick(m, cfg, env, w.kv, w.pool, items, fd, h.logs[fd]))
  {
    LoggedSessions(m, cfg, w, h, fd);
    assert DistinctSeqs(w.pool);
    hide Inv, SessionOk, RunBatch, FinalItems, LogTick;
    var i := ItemFor(items, fd);
    if i >= 0 {
      OnlyItem(items, fd, i);
    }
    if i >= 0 && Chunk(items[i]) > 0 {
      BusyAt(m, cfg, w, h, env, items, i);
    } else {
      IdleAt(m, cfg, w, env, items, fd, h.logs[fd]);
    }
  }

  lemma TickKeys(m: LanguageModel, cfg: Config, w: State, h: History, env: TickEnv, items: seq<BatchItem>)
    requires Inv(m, cfg, w, h) && FinalItems(w.pool, items) && AllEnactable(w.pool, items)
    ensures var e := RunBatch(m, cfg, env, w.kv, w.pool, items);
            && (forall fd :: fd in e.pool <==> fd in w.pool)
            && (forall fd :: fd in w.pool ==> e.pool[fd].seqId == w.pool[fd].seqId)
  {
    var e := RunBatch(m, cfg, env, w.kv, w.pool, items);
    forall fd ensures fd in e.pool <==> fd in w.pool {
      if fd in w.pool {
        LoggedSessions(m, cfg, w, h, fd);
        hide *;
        TickAt(m, cfg, w, h, env, items, fd);
      } else {
        assert forall i :: 0 <= i < |items| ==> Enactable(w.pool, items[i]);
        hide RunBatch, Inv, FinalItems;
        IdleSession(m, cfg, env, w.kv, w.pool, items, fd);
      }
    }
    forall fd | fd in w.pool ensures e.pool[fd].seqId == w.pool[fd].seqId {
      LoggedSessions(m, cfg, w, h, fd);
      hide *;
      TickAt(m, cfg, w, h, env, items, fd);
    }
  }

  lemma TickOwned(m: LanguageModel, cfg: Config, w: State, h: History, env: TickEnv, items: seq<BatchItem>)
    requires Inv(m, cfg, w, h) && FinalItems(w.pool, items) && AllEnactable(w.pool, items)
    ensures var e := RunBatch(m, cfg, env, w.kv, w.pool, items);
            Owned(e.pool, e.kv)
  {
    var e := RunBatch(m, cfg, env, w.kv, w.pool, items);
    TickKeys(m, cfg, w, h, env, items);
    assert Owned(w.pool, w.kv);
    hide Inv, RunBatch, FinalItems, AllEnactable;
    forall q: nat | CellsOf(e.kv, q) != [] ensures HasOwner(e.pool, q) {
      assert HasOwner(w.pool, q) by {
        if Quiet(w.pool, items, q) {
          QuietCells(m, cfg, env, w.kv, w.pool, items, q);
        } else {
          var i :| 0 <= i < |items| && Feeds(w.pool, items[i], q);
          assert items[i].fd in w.pool;
        }
      }
      var g :| g in w.pool && w.pool[g].seqId == q;
      assert g in e.pool && e.pool[g].seqId == q;
    }
  }

  lemma SchedKeepsOk(s: SchedState, calls: seq<Call>, sizes: seq<nat>, plan: Plan, rows: nat, durNs: nat)
    requires SchedOk(s, calls, sizes) && rows == Nat(plan.decodeTok) + Nat(plan.prefillTok)
    ensures var c := Call(durNs, Nat(plan.decodeTok), Nat(plan.prefillTok));
            SchedOk(NextSched(s, plan, rows, durNs), if rows == 0 then calls else calls + [c], if rows == 0 then sizes else sizes + [rows])
  {
    hide Record, Balanced, Tune, TargetOk, Millis;
    if rows > 0 {
      var c := Call(durNs, Nat(plan.decodeTok), Nat(plan.prefillTok));
      RecordBalances(s.metrics, calls, c);
      TuneKeepsTarget(s.cap, s.tuning, Millis(durNs));
      assert Times(calls + [c])[..|calls|] == Times(calls);
    }
  }

  lemma TickKeepsSessions(m: LanguageModel, cfg: Config, w: State, h: History, env: TickEnv, items: seq<BatchItem>, w1: State, h1: History)
    requires Inv(m, cfg, w, h) && FinalItems(w.pool, items) && AllEnactable(w.pool, items)
    requires var e := RunBatch(m, cfg, env, w.kv, w.pool, items);
             w1.pool == e.pool && w1.kv == e.kv
    requires forall fd :: fd in h1.logs <==> fd in h.logs
    requires forall fd :: fd in h.logs ==> h1.logs[fd] == if fd in w.pool then LogTick(m, cfg, env, w.kv, w.pool, items, fd, h.logs[fd]) else h.logs[fd]
    ensures SessionsOk(m, cfg, w1, h1) && LogsOk(m, cfg, h1)
  {
    TickKeys(m, cfg, w, h, env, items);
    assert LogsOk(m, cfg, h);
    hide RunBatch, LogTick, SessionOk, LogOk, FinalItems, AllEnactable;
    forall fd | fd in w1.pool ensures SessionAt(m, cfg, w1, h1, fd) {
      assert SessionAt(m, cfg, w, h, fd);
      TickAt(m, cfg, w, h, env, items, fd);
    }
    forall fd | fd in h1.logs ensures LogOk(m, cfg, h1.logs[fd]) {
      if fd in w.pool {
        assert SessionAt(m, cfg, w1, h1, fd);
        LogOfSession(m, cfg, w1.pool[fd], SeqCells(w1.kv, w1.pool[fd]), h1.logs[fd]);
      }
    }
  }

  lemma TickKeepsInv(m: LanguageModel, cfg: Config, w: State, h: History, env: TickEnv)
    requires Inv(m, cfg, w, h) && Enumerates(env.order, w.pool)
    ensures Inv(m, cfg, NextTick(m, cfg, w, env), NextHistory(m, cfg, w, h, Tick(env)))
  {
    hide FinalPlan, RunBatch, LogTick, NextSched, SessionsOk, LogsOk, SchedOk, Owned;
    var plan := FinalPlan(cfg, w.pool, w.sched, env.order);
    var items := plan.items;
    InvPoolOk(m, cfg, w, h);
    FinalPlanItems(cfg, w.pool, w.sched, env.order);
    FinalItemsEnactable(w.pool, items);
    var w1, h1 := NextTick(m, cfg, w, env), NextHistory(m, cfg, w, h, Tick(env));
    TickKeys(m, cfg, w, h, env, items);
    TickOwned(m, cfg, w, h, env, items);
    TickKeepsSessions(m, cfg, w, h, env, items, w1, h1);
    FinalPlanCounts(cfg, w.pool, w.sched, env.order);
    SchedKeepsOk(w.sched, h.calls, h.sizes, plan, |BatchRows(w.pool, items)|, env.durNs);
  }

  // ---------------------------------------------------------------- runs

  lemma StepKeepsInv(m: LanguageModel, cfg: Config, w: State, h: History, step: Step)
    requires Inv(m, cfg, w, h) && Possible(w, step) && Polite(w, step)
    ensures Inv(m, cfg, Next(m, cfg, w, step), NextHistory(m, cfg, w, h, step))
  {
    hide Inv, NextAccept, NextReadable, NextWritable, NextIdle, NextTick, LogRead, LogWrite, AfterRequest, FinalPlan, Answers;
    match step {
      case Accept(fd, now) =>
        if |w.pool| < cfg.maxSessions {
          AcceptKeepsInv(m, cfg, w, h, fd, now);
        } else {
          FullPoolAccepts(cfg, w, fd, now);
        }
      case Readable(fd, ev, metrics, wrote) =>
        if fd in w.pool {
          LoggedSessions(m, cfg, w, h, fd);
          ReadableKeepsInv(m, cfg, w, h, fd, ev, metrics, wrote);
        } else {
          UnknownFd(m, cfg, w, step);
        }
      case Writable(fd, writes, broken, now) =>
        if fd in w.pool {
          LoggedSessions(m, cfg, w, h, fd);
          WritableKeepsInv(m, cfg, w, h, fd, writes, broken, now);
        } else {
          UnknownFd(m, cfg, w, step);
        }
      case IdleSweep(now) => IdleKeepsInv(m, cfg, w, h, now);
      case Tick(env) => TickKeepsInv(m, cfg, w, h, env);
    }
  }

  lemma FullPoolAccepts(cfg: Config, w: State, fd: Fd, now: nat)
    requires |w.pool| >= cfg.maxSessions
    ensures NextAccept(cfg, w, fd, now) == w
  {
  }

  lemma UnknownFd(m: LanguageModel, cfg: Config, w: State, step: Step)
    requires (step.Readable? || step.Writable?) && step.fd !in w.pool
    ensures Next(m, cfg, w, step) == w
  {
  }

  datatype World = World(state: State, history: History)

  /** State and history after a list of steps from the start. */
  ghost function After(m: LanguageModel, cfg: Config, cap: int, steps: seq<Step>): World {
    if steps == [] then World(InitialState(cap), EMPTY_HISTORY)
    else
      var n := |steps| - 1;
      var x := After(m, cfg, cap, steps[..n]);
      World(Next(m, cfg, x.state, steps[n]), NextHistory(m, cfg, x.state, x.history, steps[n]))
  }

  /** Every step is possible where it happens, and clients send one request at a time. */
  ghost predicate Legal(m: LanguageModel, cfg: Config, cap: int, steps: seq<Step>) {
    steps == [] ||
    (var n := |steps| - 1;
     var x := After(m, cfg, cap, steps[..n]);
     Legal(m, cfg, cap, steps[..n]) && Possible(x.state, steps[n]) && Polite(x.state, steps[n]))
  }

  /** The invariant holds at the end of every run: any interleaving of arrivals, reads, writes, closes and ticks. */
  lemma {:induction false} RunKeepsInv(m: LanguageModel, cfg: Config, cap: int, steps: seq<Step>)
    requires cap >= 1 && Legal(m, cfg, cap, steps)
    ensures var x := After(m, cfg, cap, steps); Inv(m, cfg, x.state, x.history)
  {
    hide Inv, Next, NextHistory, Possible, Polite;
    if steps == [] {
      InitialInv(m, cfg, InitialState(cap), EMPTY_HISTORY);
    } else {
      var n := |steps| - 1;
      var x := After(m, cfg, cap, steps[..n]);
      RunKeepsInv(m, cfg, cap, steps[..n]);
      StepKeepsInv(m, cfg, x.state, x.history, steps[n]);
    }
  }

  lemma LegalSnoc(m: LanguageModel, cfg: Config, cap: int, past: seq<Step>, step: Step)
    requires Legal(m, cfg, cap, past)
    requires Possible(After(m, cfg, cap, past).state, step) && Polite(After(m, cfg, cap, past).state, step)
    ensures Legal(m, cfg, cap, past + [step])
    ensures After(m, cfg, cap, past + [step]).state == Next(m, cfg, After(m, cfg, cap, past).state, step)
  {
    hide Next, NextHistory, Possible, Polite;
    assert (past + [step])[..|past|] == past;
  }

  /** Each step of a legal run is legal where it happens. */
  lemma {:induction false} LegalNext(m: LanguageModel, cfg: Config, cap: int, past: seq<Step>, steps: seq<Step>, i: nat)
    requires i < |steps| && Legal(m, cfg, cap, past + steps)
    ensures var w := After(m, cfg, cap, past + steps[..i]).state;
            Possible(w, steps[i]) && Polite(w, steps[i])
    decreases |steps|
  {
    hide Next, NextHistory, Possible, Polite;
    var n := |steps| - 1;
    var all := past + steps;
    assert all[..|all| - 1] == past + steps[..n];
    if i < n {
      assert steps[..n][..i] == steps[..i];
      LegalNext(m, cfg, cap, past, steps[..n], i);
    }
  }
}
