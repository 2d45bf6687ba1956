/**
 Requests and the bytes they came in. Beside the history of a run stands what each client has
 sent: the bytes received, and for each handled request the frame it was read from.
 */
module Requests {
  import opened Bytes
  import opened Sessions
  import opened Policy
  import opened Protocol
  import opened Batch
  import opened NonInterference
  import opened TickSpec
  import opened SessionManagement
  import opened Lifecycle
  import opened Histories
  import opened Invariants
  import opened Runs
  import opened Draining
  import opened PromptRuns
  import opened Guarantees
  import opened Json
  import opened RoundTrip
  import opened CliRequests
  import Sampling
  import Solo

  // ---------------------------------------------------------------- what was heard

  /** What a request was read from: a frame, or a header that cannot be one. */
  datatype Source = Framed(js: bytes, wanted: Wanted) | BadLength | TooBig

  datatype Heard = Heard(received: bytes, sources: seq<Source>)

  /** What is read from buffer `b` by event `ev`. */
  function SourceOf(b: bytes, ev: ReadEvent): Source {
    match TryReadFrame(b, MAX_FRAME_BYTES)
    case Got(js, _) => Framed(js, ev.wanted)
    case TooLarge => TooBig
    case _ => BadLength
  }

  function RestOf(b: bytes): bytes {
    match TryReadFrame(b, MAX_FRAME_BYTES)
    case Got(_, rest) => rest
    case _ => b
  }

  /** The bytes of the frames among the sources. */
  function Consumed(ss: seq<Source>): bytes {
    if ss == [] then []
    else Consumed(ss[..|ss| - 1]) + if ss[|ss| - 1].Framed? then Frame(ss[|ss| - 1].js) else []
  }

  function Hear(s: ClientSession, ev: ReadEvent, x: Heard): Heard {
    Heard(x.received + ev.arrived, if Answers(s, ev) then x.sources + [SourceOf(s.rx + ev.arrived, ev)] else x.sources)
  }

  function NextHeard(cfg: Config, w: State, heard: map<Fd, Heard>, step: Step): map<Fd, Heard> {
    match step
    case Accept(fd, now) => if |w.pool| >= cfg.maxSessions then heard else heard[fd := Heard([], [])]
    case Readable(fd, ev, metrics, wrote) =>
      if fd !in w.pool || fd !in heard then heard else heard[fd := Hear(w.pool[fd], ev, heard[fd])]
    case _ => heard
  }

  ghost function HeardAfter(m: LanguageModel, cfg: Config, cap: int, steps: seq<Step>): map<Fd, Heard> {
    if steps == [] then map[]
    else
      var n := |steps| - 1;
      NextHeard(cfg, After(m, cfg, cap, steps[..n]).state, HeardAfter(m, cfg, cap, steps[..n]), steps[n])
  }

  // ---------------------------------------------------------------- the invariant

  /** Sampling numbers are taken from requests that carry a prompt. */
  predicate Takes(cfg: Config, src: Source) {
    src.Framed? && (Classify(cfg, src.js).Generate? || Classify(cfg, src.js).Oversized?)
  }

  function NumbersOf(cfg: Config, ss: seq<Source>): seq<Wanted> {
    if ss == [] then []
    else NumbersOf(cfg, ss[..|ss| - 1]) + if Takes(cfg, ss[|ss| - 1]) then [ss[|ss| - 1].wanted] else []
  }

  /** The value given last, or the default. */
  function Latest<T>(xs: seq<Number<T>>, default: T): T {
    if xs == [] then default
    else if xs[|xs| - 1].Given? then xs[|xs| - 1].value
    else Latest(xs[..|xs| - 1], default)
  }

  /** For each number the value that the connection's requests gave last; 0.8, 0.95 and 0 at first. */
  function ParamsOf(cfg: Config, ss: seq<Source>): Sampling.Params {
    var ns := NumbersOf(cfg, ss);
    Sampling.Params(Latest(Temperatures(ns), 0.8), Latest(TopPs(ns), 0.95), Latest(TopKs(ns), 0))
  }

  function Temperatures(ns: seq<Wanted>): seq<Number<real>> {
    seq(|ns|, i requires 0 <= i < |ns| => ns[i].temperature)
  }

  function TopPs(ns: seq<Wanted>): seq<Number<real>> {
    seq(|ns|, i requires 0 <= i < |ns| => ns[i].topP)
  }

  function TopKs(ns: seq<Wanted>): seq<Number<int>> {
    seq(|ns|, i requires 0 <= i < |ns| => ns[i].topK)
  }

  /** The record of a request says what the server finds in the frame it was read from. */
  ghost predicate Matches(m: LanguageModel, cfg: Config, src: Source, params: Sampling.Params, e: Entry) {
    match src
    case BadLength => e.end == Broke(E_PROTO_INVALID_LEN, INVALID_LENGTH)
    case TooBig => e.end == Broke(E_PROTO_FRAME_TOO_LARGE, FRAME_TOO_LARGE)
    case Framed(js, _) =>
      match Classify(cfg, js)
      case AdminRequest => e.end.Answered?
      case Refused(id, code, message) => e.id == id && e.end == Broke(code, message)
      case Oversized(id) => e.id == id && e.end == Broke(E_LIMIT_001, PROMPT_TOO_LARGE)
      case Generate(id, prompt) =>
        && e.id == id && e.prompt == m.tokenize(prompt) && e.params == params
        && if e.prompt == [] then e.end.NoPrompt? else WhileServed(e.end)
  }

  ghost predicate LogHeard(m: LanguageModel, cfg: Config, x: Heard, log: Log) {
    && |x.sources| == |log.entries|
    && forall i :: 0 <= i < |log.entries| ==> Matches(m, cfg, x.sources[i], ParamsOf(cfg, x.sources[..i + 1]), log.entries[i])
  }

  /** One request per source on every connection; on open ones the received bytes are the handled frames and `rx`. */
  ghost predicate HeardAt(m: LanguageModel, cfg: Config, w: State, h: History, heard: map<Fd, Heard>, fd: Fd) {
    && (fd in h.logs ==> fd in heard && LogHeard(m, cfg, heard[fd], h.logs[fd]))
    && (fd in w.pool && fd in heard ==>
          && heard[fd].received == Consumed(heard[fd].sources) + w.pool[fd].rx
          && w.pool[fd].sampling == ParamsOf(cfg, heard[fd].sources))
  }

  ghost predicate AllHeard(m: LanguageModel, cfg: Config, w: State, h: History, heard: map<Fd, Heard>) {
    forall fd: Fd :: HeardAt(m, cfg, w, h, heard, fd)
  }

  // ---------------------------------------------------------------- one request

  lemma {:induction false} LatestSnoc<T>(xs: seq<Number<T>>, x: Number<T>, default: T)
    ensures Latest(xs + [x], default) == Override(x, Latest(xs, default))
  {
    assert (xs + [x])[..|xs|] == xs;
  }

  /** One more request overrides what it carries. */
  lemma ParamsSnoc(cfg: Config, ss: seq<Source>, src: Source)
    ensures ParamsOf(cfg, ss + [src]) == if Takes(cfg, src) then Prefer(ParamsOf(cfg, ss), src.wanted) else ParamsOf(cfg, ss)
  {
    hide Takes, Latest, Override;
    assert (ss + [src])[..|ss|] == ss;
    var ns := NumbersOf(cfg, ss);
    if Takes(cfg, src) {
      TakesFrame(cfg, src);
      var ms := NumbersOf(cfg, ss + [src]);
      assert ms == ns + [src.wanted];
      assert Temperatures(ms) == Temperatures(ns) + [src.wanted.temperature];
      assert TopPs(ms) == TopPs(ns) + [src.wanted.topP];
      assert TopKs(ms) == TopKs(ns) + [src.wanted.topK];
      LatestSnoc(Temperatures(ns), src.wanted.temperature, 0.8);
      LatestSnoc(TopPs(ns), src.wanted.topP, 0.95);
      LatestSnoc(TopKs(ns), src.wanted.topK, 0);
    } else {
      assert NumbersOf(cfg, ss + [src]) == ns;
    }
  }

  lemma TakesFrame(cfg: Config, src: Source)
    requires Takes(cfg, src)
    ensures src.Framed?
  {
  }

  /** Parameters of the session after the payload, and of the entry it starts. */
  lemma PayloadMatches(m: LanguageModel, cfg: Config, s: ClientSession, nextSeq: nat, js: bytes, ev: ReadEvent)
    ensures var out := HandlePayload(m, cfg, s, nextSeq, js, ev);
            var src := Framed(js, ev.wanted);
            && (if out.admin then Classify(cfg, js).AdminRequest? else Matches(m, cfg, src, out.s.sampling, NewEntry(out)))
            && out.s.sampling == if Takes(cfg, src) then Prefer(s.sampling, ev.wanted) else s.sampling
  {
    hide Wire, Classify, Prefer;
  }

  lemma NewEntryMatches(m: LanguageModel, cfg: Config, s: ClientSession, nextSeq: nat, ev: ReadEvent, metrics: bytes)
    ensures var out := AfterRequest(m, cfg, s, nextSeq, ev, metrics);
            var src := SourceOf(s.rx + ev.arrived, ev);
            if Answers(s, ev) then
              && Matches(m, cfg, src, out.s.sampling, NewEntry(out))
              && out.s.sampling == if Takes(cfg, src) then Prefer(s.sampling, ev.wanted) else s.sampling
            else out.s.sampling == s.sampling
  {
    hide Wire, Classify, TryReadFrame, HandlePayload, Prefer;
    var s1 := AfterRead(s, ev);
    match TryReadFrame(s1.rx, MAX_FRAME_BYTES)
    case Got(js, rest) => PayloadMatches(m, cfg, s1.(rx := rest), nextSeq, js, ev);
    case _ =>
  }

  lemma MatchesEvolves(m: LanguageModel, cfg: Config, src: Source, params: Sampling.Params, e: Entry, f: Entry)
    requires Matches(m, cfg, src, params, e) && Evolves(e, f)
    ensures Matches(m, cfg, src, params, f)
  {
    hide Classify;
  }

  lemma PayloadKeepsRx(m: LanguageModel, cfg: Config, s: ClientSession, nextSeq: nat, js: bytes, ev: ReadEvent)
    ensures HandlePayload(m, cfg, s, nextSeq, js, ev).s.rx == s.rx
  {
    hide Wire, Classify;
  }

  /** What a readable event leaves in `rx`. */
  lemma RxAfterRequest(m: LanguageModel, cfg: Config, s: ClientSession, nextSeq: nat, ev: ReadEvent, metrics: bytes)
    ensures AfterRequest(m, cfg, s, nextSeq, ev, metrics).s.rx == if ev.failed then s.rx + ev.arrived else RestOf(s.rx + ev.arrived)
  {
    hide Wire, TryReadFrame, HandlePayload;
    var s1 := AfterRead(s, ev);
    match TryReadFrame(s1.rx, MAX_FRAME_BYTES)
    case Got(js, rest) => PayloadKeepsRx(m, cfg, s1.(rx := rest), nextSeq, js, ev);
    case _ =>
  }

  /** Handling a frame moves it from `rx` to the handled ones. */
  lemma HearKeepsBytes(s: ClientSession, ev: ReadEvent, x: Heard)
    requires x.received == Consumed(x.sources) + s.rx
    ensures var y := Hear(s, ev, x);
            y.received == Consumed(y.sources) + if ev.failed then s.rx + ev.arrived else RestOf(s.rx + ev.arrived)
  {
    var b := s.rx + ev.arrived;
    assert x.received + ev.arrived == Consumed(x.sources) + b;
    if Answers(s, ev) {
      var ss := x.sources + [SourceOf(b, ev)];
      assert ss[..|ss| - 1] == x.sources;
      match TryReadFrame(b, MAX_FRAME_BYTES)
      case Got(js, rest) =>
        ReadIsFrame(b, MAX_FRAME_BYTES, js, rest);
        assert Consumed(x.sources) + (Frame(js) + rest) == (Consumed(x.sources) + Frame(js)) + rest;
      case _ =>
    }
  }

  // ---------------------------------------------------------------- one step

  lemma TickedKeepsRx(m: LanguageModel, cfg: Config, env: TickEnv, cells: seq<Cell>, s: ClientSession, it: BatchItem)
    requires CanFeed(s, it)
    ensures Ticked(m, cfg, env, cells, s, it).rx == s.rx && Ticked(m, cfg, env, cells, s, it).sampling == s.sampling
  {
    hide TokenOf, Wire, Ends, SampleEvents;
  }

  lemma TickKeepsRx(m: LanguageModel, cfg: Config, w: State, h: History, env: TickEnv, fd: Fd)
    requires Inv(m, cfg, w, h) && Enumerates(env.order, w.pool) && fd in w.pool
    ensures var w1 := NextTick(m, cfg, w, env);
            fd in w1.pool && w1.pool[fd].rx == w.pool[fd].rx && w1.pool[fd].sampling == w.pool[fd].sampling
  {
    hide NextTick, RunBatch, Ticked, FinalPlan, FinalItems, AllEnactable, Inv, Enumerates, DistinctSeqs;
    var items := TickItems(m, cfg, w, h, env);
    var i := TheItemOf(w.pool, items, fd);
    if i == -1 {
      IdleSession(m, cfg, env, w.kv, w.pool, items, fd);
    } else {
      BusySession(m, cfg, env, w.kv, w.pool, items, i);
      TickedKeepsRx(m, cfg, env, CellsOf(w.kv, w.pool[fd].seqId), w.pool[fd], items[i]);
    }
  }

  /** Only a readable event of its own changes what a session has buffered, and its parameters. */
  lemma RxStays(m: LanguageModel, cfg: Config, w: State, h: History, step: Step, fd: Fd)
    requires Inv(m, cfg, w, h) && Possible(w, step) && fd in w.pool && fd in Next(m, cfg, w, step).pool
    requires !(step.Readable? && step.fd == fd)
    ensures var w1 := Next(m, cfg, w, step);
            w1.pool[fd].rx == w.pool[fd].rx && w1.pool[fd].sampling == w.pool[fd].sampling
  {
    hide Inv, NextTick, Unsent, AfterRequest, WithoutSeq;
    if step.Tick? { TickKeepsRx(m, cfg, w, h, step.env, fd); }
  }

  lemma ReadableRx(m: LanguageModel, cfg: Config, w: State, fd: Fd, ev: ReadEvent, metrics: bytes, wrote: nat)
    requires fd in w.pool && fd in NextReadable(m, cfg, w, fd, ev, metrics, wrote).pool
    ensures var s, t := w.pool[fd], NextReadable(m, cfg, w, fd, ev, metrics, wrote).pool[fd];
            && t.rx == (if ev.failed then s.rx + ev.arrived else RestOf(s.rx + ev.arrived))
            && t.sampling == AfterRequest(m, cfg, s, w.nextSeq, ev, metrics).s.sampling
  {
    hide AfterRequest, RestOf, WithoutSeq;
    RxAfterRequest(m, cfg, w.pool[fd], w.nextSeq, ev, metrics);
  }

  /** The connection that is read. */
  lemma ReadHeard(m: LanguageModel, cfg: Config, w: State, h: History, heard: map<Fd, Heard>, step: Step)
    requires Inv(m, cfg, w, h) && step.Readable? && step.fd in w.pool && HeardAt(m, cfg, w, h, heard, step.fd)
    ensures HeardAt(m, cfg, Next(m, cfg, w, step), NextHistory(m, cfg, w, h, step), NextHeard(cfg, w, heard, step), step.fd)
  {
    hide Inv, AfterRequest, Matches, Consumed, SourceOf, RestOf, NewEntry, Answers, NextReadable, SessionOk, ParamsOf, Takes, Prefer;
    var fd, s := step.fd, w.pool[step.fd];
    LoggedSessions(m, cfg, w, h, fd);
    HearKeepsBytes(s, step.ev, heard[fd]);
    if fd in Next(m, cfg, w, step).pool { ReadableRx(m, cfg, w, fd, step.ev, step.metrics, step.wrote); }
    NewEntryMatches(m, cfg, s, w.nextSeq, step.ev, step.metrics);
    if Answers(s, step.ev) {
      var ss, src := heard[fd].sources, SourceOf(s.rx + step.ev.arrived, step.ev);
      ParamsSnoc(cfg, ss, src);
      SourceNumbers(cfg, s.rx + step.ev.arrived, step.ev);
      var es := h.logs[fd].entries;
      forall i | 0 <= i < |es| ensures Matches(m, cfg, (ss + [src])[i], ParamsOf(cfg, (ss + [src])[..i + 1]), es[i]) {
        assert (ss + [src])[..i + 1] == ss[..i + 1];
      }
      assert (ss + [src])[..|ss| + 1] == ss + [src];
    }
  }

  lemma SourceNumbers(cfg: Config, b: bytes, ev: ReadEvent)
    ensures Takes(cfg, SourceOf(b, ev)) ==> SourceOf(b, ev).wanted == ev.wanted
  {
    hide Classify, TryReadFrame;
  }

  /** Any other connection, and any other step. */
  lemma OtherHeard(m: LanguageModel, cfg: Config, w: State, h: History, heard: map<Fd, Heard>, step: Step, fd: Fd)
    requires Inv(m, cfg, w, h) && Possible(w, step) && HeardAt(m, cfg, w, h, heard, fd)
    requires !(step.Readable? && step.fd == fd) && !(step.Accept? && step.fd == fd)
    ensures HeardAt(m, cfg, Next(m, cfg, w, step), NextHistory(m, cfg, w, h, step), NextHeard(cfg, w, heard, step), fd)
  {
    hide Inv, Matches, Consumed, Next, NextHistory, Possible, ParamsOf;
    var w1, h1 := Next(m, cfg, w, step), NextHistory(m, cfg, w, h, step);
    OtherLog(m, cfg, w, h, step, fd);
    if fd in h.logs {
      var ss := heard[fd].sources;
      forall i | 0 <= i < |h.logs[fd].entries| ensures Matches(m, cfg, ss[i], ParamsOf(cfg, ss[..i + 1]), h1.logs[fd].entries[i]) {
        StepEvolves(m, cfg, w, h, step, fd, i);
        MatchesEvolves(m, cfg, ss[i], ParamsOf(cfg, ss[..i + 1]), h.logs[fd].entries[i], h1.logs[fd].entries[i]);
      }
    }
    if fd in w1.pool {
      if fd !in w.pool { NoNewSession(m, cfg, w, h, step, fd); }
      RxStays(m, cfg, w, h, step, fd);
    }
  }

  lemma OtherLog(m: LanguageModel, cfg: Config, w: State, h: History, step: Step, fd: Fd)
    requires Inv(m, cfg, w, h) && Possible(w, step)
    requires !(step.Readable? && step.fd == fd) && !(step.Accept? && step.fd == fd)
    ensures var h1 := NextHistory(m, cfg, w, h, step);
            (fd in h1.logs <==> fd in h.logs) && (fd in h.logs ==> |h1.logs[fd].entries| == |h.logs[fd].entries|)
  {
    hide Inv, AfterRequest, LogTick, LogRead, FinalPlan, AllEnactable, Evolves;
    if step.Tick? && fd in h.logs && fd in w.pool && h.logs[fd].entries != [] {
      TickEvolves(m, cfg, w, h, step.env, fd, 0);
    } else if step.Tick? && fd in h.logs && fd in w.pool {
      var items := TickLog(m, cfg, w, h, step.env, fd);
      EmptyLogStays(m, cfg, step.env, w.kv, w.pool, items, fd, h.logs[fd]);
    }
  }

  lemma StepHeard(m: LanguageModel, cfg: Config, w: State, h: History, heard: map<Fd, Heard>, step: Step, fd: Fd)
    requires Inv(m, cfg, w, h) && Possible(w, step) && HeardAt(m, cfg, w, h, heard, fd)
    ensures HeardAt(m, cfg, Next(m, cfg, w, step), NextHistory(m, cfg, w, h, step), NextHeard(cfg, w, heard, step), fd)
  {
    hide Inv, Possible, HeardAt, Next, NextHistory, NextHeard;
    if step.Accept? && step.fd == fd {
      AcceptHeard(m, cfg, w, h, heard, step);
    } else if step.Readable? && step.fd == fd {
      if fd in w.pool {
        ReadHeard(m, cfg, w, h, heard, step);
      } else {
        UnknownHeard(m, cfg, w, h, heard, step);
      }
    } else {
      OtherHeard(m, cfg, w, h, heard, step, fd);
    }
  }

  lemma AcceptHeard(m: LanguageModel, cfg: Config, w: State, h: History, heard: map<Fd, Heard>, step: Step)
    requires step.Accept? && HeardAt(m, cfg, w, h, heard, step.fd)
    ensures HeardAt(m, cfg, Next(m, cfg, w, step), NextHistory(m, cfg, w, h, step), NextHeard(cfg, w, heard, step), step.fd)
  {
    hide Matches;
    assert Consumed([]) == [] && NumbersOf(cfg, []) == [];
  }

  lemma UnknownHeard(m: LanguageModel, cfg: Config, w: State, h: History, heard: map<Fd, Heard>, step: Step)
    requires step.Readable? && step.fd !in w.pool && HeardAt(m, cfg, w, h, heard, step.fd)
    ensures HeardAt(m, cfg, Next(m, cfg, w, step), NextHistory(m, cfg, w, h, step), NextHeard(cfg, w, heard, step), step.fd)
  {
    hide Matches, Consumed, ParamsOf;
  }

  // ---------------------------------------------------------------- runs

  lemma {:induction false} RunsAreHeard(m: LanguageModel, cfg: Config, cap: int, steps: seq<Step>)
    requires cap >= 1 && Legal(m, cfg, cap, steps)
    ensures AllHeard(m, cfg, After(m, cfg, cap, steps).state, After(m, cfg, cap, steps).history, HeardAfter(m, cfg, cap, steps))
  {
    hide Inv, Next, NextHistory, NextHeard, Possible, Polite;
    if steps != [] {
      var n := |steps| - 1;
      RunsAreHeard(m, cfg, cap, steps[..n]);
      RunKeepsInv(m, cfg, cap, steps[..n]);
      var x, heard := After(m, cfg, cap, steps[..n]), HeardAfter(m, cfg, cap, steps[..n]);
      hide HeardAt;
      forall fd: Fd ensures HeardAt(m, cfg, After(m, cfg, cap, steps).state, After(m, cfg, cap, steps).history, HeardAfter(m, cfg, cap, steps), fd) {
        assert HeardAt(m, cfg, x.state, x.history, heard, fd);
        StepHeard(m, cfg, x.state, x.history, heard, steps[n], fd);
      }
    }
  }

  /**
   In every run the requests of a connection are exactly those that the server finds in the frames
   it has handled, one each and in order, with the sampling parameters given last on that
   connection; while the connection is open the bytes received are those frames, followed by what
   is buffered.
   */
  lemma RequestsComeFromFrames(m: LanguageModel, cfg: Config, cap: int, steps: seq<Step>, fd: Fd)
    requires cap >= 1 && Legal(m, cfg, cap, steps) && fd in After(m, cfg, cap, steps).history.logs
    ensures var x, heard := After(m, cfg, cap, steps), HeardAfter(m, cfg, cap, steps);
            && fd in heard && LogHeard(m, cfg, heard[fd], x.history.logs[fd])
            && (fd in x.state.pool ==> heard[fd].received == Consumed(heard[fd].sources) + x.state.pool[fd].rx)
  {
    hide After, Legal, HeardAfter, LogHeard, Consumed, ParamsOf;
    RunsAreHeard(m, cfg, cap, steps);
    var x := After(m, cfg, cap, steps);
    assert HeardAt(m, cfg, x.state, x.history, HeardAfter(m, cfg, cap, steps), fd);
  }

  // ---------------------------------------------------------------- what the client sent

  /** The sources are the first payloads of `ps`. */
  ghost predicate ReadsOf(ps: seq<bytes>, ss: seq<Source>) {
    |ss| <= |ps| && forall i :: 0 <= i < |ss| ==> ss[i].Framed? && ss[i].js == ps[i]
  }

  lemma {:induction false} ConsumedFrames(ps: seq<bytes>, ss: seq<Source>)
    requires ReadsOf(ps, ss)
    ensures Consumed(ss) == Frames(ps[..|ss|])
  {
    hide Frame;
    if ss != [] {
      var n := |ss| - 1;
      ConsumedFrames(ps, ss[..n]);
      var last := ps[n..n + 1];
      assert ps[..n + 1] == ps[..n] + last;
      FramesAppend(ps[..n], last);
      assert Frames(last) == Frame(last[0]) + Frames(last[1..]);
    }
  }

  /** From a part of the remaining frames only the next payload can be read. */
  lemma NextPayload(ps: seq<bytes>, k: nat, b: bytes)
    requires k <= |ps| && AllSendable(ps, MAX_FRAME_BYTES) && b <= Frames(ps[k..])
    ensures var r := TryReadFrame(b, MAX_FRAME_BYTES);
            r.NeedMore? || (k < |ps| && r.Got? && r.payload == ps[k])
  {
    hide TryReadFrame, Frame;
    if k == |ps| {
      NothingToRead(b);
    } else {
      var f := Frame(ps[k]);
      assert ps[k..][1..] == ps[k + 1..];
      if |b| < |f| {
        PartialFrameWaits(ps[k], b, MAX_FRAME_BYTES);
      } else {
        assert b == f + b[|f|..];
        FrameIsRead(ps[k], b[|f|..], MAX_FRAME_BYTES);
      }
    }
  }

  lemma NothingToRead(b: bytes)
    requires b == []
    ensures TryReadFrame(b, MAX_FRAME_BYTES).NeedMore?
  {
  }

  lemma HearInOrder(ps: seq<bytes>, s: ClientSession, ev: ReadEvent, x: Heard)
    requires AllSendable(ps, MAX_FRAME_BYTES) && x.received == Consumed(x.sources) + s.rx
    requires ReadsOf(ps, x.sources) && x.received + ev.arrived <= Frames(ps)
    ensures ReadsOf(ps, Hear(s, ev, x).sources)
  {
    hide TryReadFrame, AllSendable, Consumed, Frames, Frame;
    var k, b := |x.sources|, s.rx + ev.arrived;
    ConsumedFrames(ps, x.sources);
    FramesAppend(ps[..k], ps[k..]);
    assert ps == ps[..k] + ps[k..];
    assert x.received + ev.arrived == Frames(ps[..k]) + b;
    assert b == (x.received + ev.arrived)[|Frames(ps[..k])|..] <= Frames(ps)[|Frames(ps[..k])|..] == Frames(ps[k..]);
    NextPayload(ps, k, b);
  }

  /**
   If what a client has sent is part of the frames of `ps`, its requests are those of `ps`, in
   order and none skipped.
   */
  lemma {:induction false} RequestsInOrder(m: LanguageModel, cfg: Config, cap: int, steps: seq<Step>, fd: Fd, ps: seq<bytes>)
    requires cap >= 1 && Legal(m, cfg, cap, steps) && fd in HeardAfter(m, cfg, cap, steps) && AllSendable(ps, MAX_FRAME_BYTES)
    requires HeardAfter(m, cfg, cap, steps)[fd].received <= Frames(ps)
    ensures ReadsOf(ps, HeardAfter(m, cfg, cap, steps)[fd].sources)
  {
    hide Inv, Next, NextHistory, Possible, Polite, AllSendable, Frames, ReadsOf, Consumed, SourceOf, Answers, HeardAt;
    var n := |steps| - 1;
    var step, x, heard := steps[n], After(m, cfg, cap, steps[..n]), HeardAfter(m, cfg, cap, steps[..n]);
    if step.Accept? && step.fd == fd && HeardAfter(m, cfg, cap, steps)[fd] == Heard([], []) {
      NothingRead(ps);
    } else {
      var now, before := HeardAfter(m, cfg, cap, steps)[fd], heard[fd];
      assert before.received <= now.received;
      RequestsInOrder(m, cfg, cap, steps[..n], fd, ps);
      if step.Readable? && step.fd == fd && fd in x.state.pool {
        RunsAreHeard(m, cfg, cap, steps[..n]);
        assert HeardAt(m, cfg, x.state, x.history, heard, fd);
        HeardBytes(m, cfg, x.state, x.history, heard, fd);
        HearInOrder(ps, x.state.pool[fd], step.ev, before);
      }
    }
  }

  lemma NothingRead(ps: seq<bytes>)
    ensures ReadsOf(ps, [])
  {
  }

  lemma HeardBytes(m: LanguageModel, cfg: Config, w: State, h: History, heard: map<Fd, Heard>, fd: Fd)
    requires HeardAt(m, cfg, w, h, heard, fd) && fd in w.pool && fd in heard
    ensures heard[fd].received == Consumed(heard[fd].sources) + w.pool[fd].rx
  {
  }

  // ---------------------------------------------------------------- from the CLI to its tokens

  /** The request can be mistaken for a metrics request. */
  ghost predicate LooksAdmin(id: bytes, prompt: bytes) {
    prompt == METRICS && (KeyAtEnd(id, TYPE) || KeyAtEnd(id, EVENT))
  }

  /**
   End to end: whatever else the daemon does, a printable request of the CLI is recorded under its
   id with the tokens of its prompt, and has produced what decoding the fed part of that prompt
   alone produces with the parameters that the connection gave last.
   */
  lemma CliRequestIsServed(m: LanguageModel, cfg: Config, cap: int, steps: seq<Step>, fd: Fd, i: nat,
                           id: bytes, prompt: bytes, stream: bool, fs: seq<Field>)
    requires cap >= 1 && Legal(m, cfg, cap, steps) && fd in After(m, cfg, cap, steps).history.logs
    requires fd in HeardAfter(m, cfg, cap, steps) && i < |HeardAfter(m, cfg, cap, steps)[fd].sources|
    requires var src := HeardAfter(m, cfg, cap, steps)[fd].sources[i];
             src.Framed? && src.js == CliPayload(id, prompt, stream, fs)
    requires (forall k :: 0 <= k < |fs| ==> FieldOk(fs[k])) && !LooksAdmin(id, prompt)
    requires Printable(id) && Printable(prompt) && 0 < |prompt| <= cfg.maxPromptBytes
    ensures i < |After(m, cfg, cap, steps).history.logs[fd].entries|
    ensures var e := After(m, cfg, cap, steps).history.logs[fd].entries[i];
            && e.id == id && e.prompt == m.tokenize(prompt) && e.fed <= e.prompt
            && e.tokens == Solo.Decode(m, cfg.maxTokens, e.fed, ParamsOf(cfg, HeardAfter(m, cfg, cap, steps)[fd].sources[..i + 1]), e.draws).tokens
  {
    hide After, Legal, HeardAfter, CliPayload, Classify, Printable, FieldOk, KeyAtEnd, Sanitised, Consumed, Solo.Decode, ParamsOf;
    RequestsComeFromFrames(m, cfg, cap, steps, fd);
    CliRequestClassified(cfg, id, prompt, stream, fs);
    var e := After(m, cfg, cap, steps).history.logs[fd].entries[i];
    var ss := HeardAfter(m, cfg, cap, steps)[fd].sources;
    assert Matches(m, cfg, ss[i], ParamsOf(cfg, ss[..i + 1]), e);
    EntryOfRun(m, cfg, cap, steps, fd, i);
    NoDraws(m, cfg.maxTokens, e.fed, e.params);
  }

  lemma NoDraws(m: LanguageModel, maxTokens: nat, fed: seq<int>, params: Sampling.Params)
    ensures Solo.Decode(m, maxTokens, fed, params, []) == Solo.SoloRun([], Solo.Running)
  {
  }

  // ---------------------------------------------------------------- frames left behind

  /**
   A readable event handles at most one frame. A complete frame is left in `rx` exactly if two or
   more had come together (or one, if the read failed and nothing was handled).
   */
  lemma FrameLeftBehindIff(m: LanguageModel, cfg: Config, w: State, fd: Fd, ev: ReadEvent, metrics: bytes, wrote: nat)
    requires fd in w.pool && fd in NextReadable(m, cfg, w, fd, ev, metrics, wrote).pool
    ensures TryReadFrame(NextReadable(m, cfg, w, fd, ev, metrics, wrote).pool[fd].rx, MAX_FRAME_BYTES).Got?
       <==> |Drain(w.pool[fd].rx + ev.arrived, MAX_FRAME_BYTES).payloads| >= if ev.failed then 1 else 2
  {
    hide NextReadable, TryReadFrame, Drain;
    ReadableRx(m, cfg, w, fd, ev, metrics, wrote);
    var b := w.pool[fd].rx + ev.arrived;
    FramesBuffered(b);
    match TryReadFrame(b, MAX_FRAME_BYTES)
    case Got(js, rest) => FramesBuffered(rest);
    case _ =>
  }

  /** It stays there until the next readable event of that connection, whatever else happens. */
  lemma {:induction false} FrameStaysBehind(m: LanguageModel, cfg: Config, cap: int, steps: seq<Step>, more: seq<Step>, fd: Fd)
    requires cap >= 1 && Legal(m, cfg, cap, steps) && Legal(m, cfg, cap, steps + more)
    requires fd in After(m, cfg, cap, steps).state.pool && fd in After(m, cfg, cap, steps + more).state.pool
    requires forall i :: 0 <= i < |more| ==> !((more[i].Readable? || more[i].Accept?) && more[i].fd == fd)
    ensures After(m, cfg, cap, steps + more).state.pool[fd].rx == After(m, cfg, cap, steps).state.pool[fd].rx
    decreases |more|
  {
    hide Inv, Next, NextHistory, Possible, Polite;
    if more == [] {
      assert steps + more == steps;
    } else {
      var n := |more| - 1;
      var all := steps + more;
      assert all[..|all| - 1] == steps + more[..n] && all[|all| - 1] == more[n];
      var x := After(m, cfg, cap, steps + more[..n]);
      RunKeepsInv(m, cfg, cap, steps + more[..n]);
      if fd !in x.state.pool { NoNewSession(m, cfg, x.state, x.history, more[n], fd); }
      FrameStaysBehind(m, cfg, cap, steps, more[..n], fd);
      RxStays(m, cfg, x.state, x.history, more[n], fd);
    }
  }

  /** How many complete frames stand at the front of a buffer. */
  lemma FramesBuffered(b: bytes)
    ensures var r := TryReadFrame(b, MAX_FRAME_BYTES);
            |Drain(b, MAX_FRAME_BYTES).payloads| == if r.Got? then 1 + |Drain(r.rest, MAX_FRAME_BYTES).payloads| else 0
  {
    hide TryReadFrame;
    match TryReadFrame(b, MAX_FRAME_BYTES)
    case Got(js, rest) => DrainGot(b, MAX_FRAME_BYTES, js, rest);
    case _ => DrainNothing(b, MAX_FRAME_BYTES);
  }
}
