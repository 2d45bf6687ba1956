/**
 What happened on each connection, recorded beside the daemon's state: the requests with the
 tokens they produced and the draws they consumed, and the bytes delivered to the client.
 */
module Histories {
  import opened Bounds
  import opened Bytes
  import opened Sessions
  import opened Policy
  import opened Bmt
  import opened Protocol
  import opened Batch
  import opened NonInterference
  import opened TickSpec
  import opened SessionManagement
  import opened Lifecycle
  import opened Accounting
  import Sampling

  datatype End =
    | Open                                   // still being served
    | Sampled(reason: bytes)                 // ended by a sample
    | NoPrompt                               // nothing to generate from
    | Broke(code: bytes, message: bytes)     // refused or failed
    | Answered(json: bytes)                  // metrics

  /** `prompt` is the tokenised prompt; `fed` is the part of it given to the model before the first sample. */
  datatype Entry = Entry(id: bytes, prompt: seq<int>, fed: seq<int>, params: Sampling.Params, draws: seq<real>, tokens: seq<int>, end: End)

  datatype Log = Log(entries: seq<Entry>, delivered: bytes)

  /** `calls` are the model calls of all ticks, `sizes` the sizes of their batches. */
  datatype History = History(logs: map<Fd, Log>, calls: seq<Call>, sizes: seq<nat>)

  const EMPTY_HISTORY := History(map[], [], [])

  // ---------------------------------------------------------------- events of a log

  function TokensOut(m: LanguageModel, id: bytes, tokens: seq<int>): seq<Event> {
    if tokens == [] then []
    else TokensOut(m, id, tokens[..|tokens| - 1]) + TokenEvents(m, id, tokens[|tokens| - 1])
  }

  function EndOut(id: bytes, end: End): seq<Event> {
    match end
    case Open => []
    case Sampled(reason) => [Eos(id, reason)]
    case NoPrompt => [Eos(id, STOP)]
    case Broke(code, message) => [Error(id, code, message)]
    case Answered(json) => [Snapshot(json)]
  }

  /** Token events, then at most one closing event, all with the id of the request. */
  function EventsOf(m: LanguageModel, e: Entry): seq<Event> {
    TokensOut(m, e.id, e.tokens) + EndOut(e.id, e.end)
  }

  function AllEvents(m: LanguageModel, entries: seq<Entry>): seq<Event> {
    if entries == [] then []
    else AllEvents(m, entries[..|entries| - 1]) + EventsOf(m, entries[|entries| - 1])
  }

  // ---------------------------------------------------------------- recording

  function Amend(log: Log, e: Entry): Log
    requires log.entries != []
  {
    log.(entries := log.entries[..|log.entries| - 1] + [e])
  }

  /** The entry that a handled frame starts. */
  function NewEntry(out: ReadOutcome): Entry {
    if out.queued == [] then Entry(out.s.requestId, out.s.promptTokens, [], out.s.sampling, [], [], Open)
    else
      match out.queued[0]
      case Error(id, code, message) => Entry(id, [], [], out.s.sampling, [], [], Broke(code, message))
      case Eos(id, reason) => Entry(id, [], [], out.s.sampling, [], [], NoPrompt)
      case Snapshot(json) => Entry([], [], [], out.s.sampling, [], [], Answered(json))
      case Token(id, text, t) => Entry(id, [], [], out.s.sampling, [], [], Open)
  }

  function LogRead(log: Log, s: ClientSession, ev: ReadEvent, out: ReadOutcome, wrote: nat): Log {
    var entries := if Answers(s, ev) then log.entries + [NewEntry(out)] else log.entries;
    Log(entries, log.delivered + if out.wantsWrite then out.s.tx[..Min(wrote, |out.s.tx|)] else [])
  }

  function LogWrite(log: Log, s: ClientSession, writes: seq<nat>): Log {
    UnsentIsSuffix(s.tx, writes);
    log.(delivered := log.delivered + s.tx[..|s.tx| - |Unsent(s.tx, writes)|])
  }

  /** The current entry after a tick in which `it` was served. */
  ghost function LogSample(m: LanguageModel, cfg: Config, env: TickEnv, cells: seq<Cell>, s: ClientSession,
                           it: BatchItem, e: Entry): Entry
    requires CanFeed(s, it)
  {
    if Chunk(it) == 0 then e
    else if !env.ok then e.(end := Broke(E_RUNTIME_DECODE, DECODE_FAILED))
    else if it.fd in env.nullRows then e
    else
      var t := TokenOf(m, env, cells, s, it);
      var e1 := e.(draws := e.draws + [env.draw(it.fd)],
                   fed := if it.phase.PREFILL? then s.promptTokens[..s.prefillIdx + Chunk(it)] else e.fed);
      if Ends(m, cfg, Enacted(s, it), it.phase, t) then e1.(end := Sampled(Reason(cfg, s)))
      else e1.(tokens := e.tokens + [t])
  }

  /** Index of the item for `fd`, or -1. */
  function ItemFor(items: seq<BatchItem>, fd: Fd): (i: int)
    ensures -1 <= i < |items| && (i >= 0 ==> items[i].fd == fd)
    ensures i == -1 ==> NoItemFor(items, fd)
  {
    if items == [] then -1
    else if items[|items| - 1].fd == fd then |items| - 1
    else ItemFor(items[..|items| - 1], fd)
  }

  function SeqCells(kv: KvStore, s: ClientSession): seq<Cell> {
    if s.seqId >= 0 then CellsOf(kv, s.seqId) else []
  }

  ghost function LogTick(m: LanguageModel, cfg: Config, env: TickEnv, kv: KvStore, pool: Pool, items: seq<BatchItem>,
                         fd: Fd, log: Log): Log
    requires AllEnactable(pool, items)
  {
    var i := ItemFor(items, fd);
    if i == -1 || log.entries == [] then log
    else
      assert Enactable(pool, items[i]);
      Amend(log, LogSample(m, cfg, env, SeqCells(kv, pool[fd]), pool[fd], items[i], log.entries[|log.entries| - 1]))
  }

  ghost function NextHistory(m: LanguageModel, cfg: Config, w: State, h: History, step: Step): History {
    match step
    case Accept(fd, now) =>
      if |w.pool| >= cfg.maxSessions then h else h.(logs := h.logs[fd := Log([], [])])
    case Readable(fd, ev, metrics, wrote) =>
      if fd !in w.pool || fd !in h.logs then h
      else
        var out := AfterRequest(m, cfg, w.pool[fd], w.nextSeq, ev, metrics);
        h.(logs := h.logs[fd := LogRead(h.logs[fd], w.pool[fd], ev, out, wrote)])
    case Writable(fd, writes, broken, now) =>
      if fd !in w.pool || fd !in h.logs then h
      else h.(logs := h.logs[fd := LogWrite(h.logs[fd], w.pool[fd], writes)])
    case IdleSweep(now) => h
    case Tick(env) =>
      var plan := FinalPlan(cfg, w.pool, w.sched, env.order);
      if !AllEnactable(w.pool, plan.items) then h
      else
        var size := |BatchRows(w.pool, plan.items)|;
        History(map fd | fd in h.logs :: if fd in w.pool then LogTick(m, cfg, env, w.kv, w.pool, plan.items, fd, h.logs[fd]) else h.logs[fd],
                if size == 0 then h.calls else h.calls + [Call(env.durNs, Nat(plan.decodeTok), Nat(plan.prefillTok))],
                if size == 0 then h.sizes else h.sizes + [size])
  }
}
