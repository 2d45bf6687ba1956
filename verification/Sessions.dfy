/**
 Session state as in ipc/session.h. A pool owns its sessions through `unique_ptr`, so a map of
 values has the same behaviour: no two keys ever share a session.
 */
module Sessions {
  import opened Bytes
  import Sampling

  datatype SessionState = RecvReq | Prefill | Decode | Stream | Done | Errored

  datatype ClientSession = ClientSession(
    rx: bytes,
    tx: bytes,
    seqId: int,                // -1 until the first request
    state: SessionState,
    promptTokens: seq<int>,
    prefillIdx: nat,           // next index into promptTokens
    hasPendingTok: bool,
    pendingTok: int,           // last sampled token, to be fed next
    nPast: nat,                // tokens already in the sequence
    generatedCount: nat,
    lastActivityNs: nat,
    readClosed: bool,
    firstEmitNs: nat,
    sampling: Sampling.Params,
    requestId: bytes
  )

  /** File descriptors of open sockets are non-negative. */
  type Fd = nat

  type Pool = map<Fd, ClientSession>

  predicate DecodeReady(s: ClientSession) {
    s.state.Decode? && s.hasPendingTok
  }

  predicate PrefillReady(s: ClientSession) {
    s.state.Prefill? && s.prefillIdx < |s.promptTokens|
  }

  function Remaining(s: ClientSession): nat {
    if s.prefillIdx <= |s.promptTokens| then |s.promptTokens| - s.prefillIdx else 0
  }

  ghost predicate NoDup<T>(xs: seq<T>) {
    forall i, j :: 0 <= i < j < |xs| ==> xs[i] != xs[j]
  }

  /** `order` is an iteration order of the `unordered_map`: every key once. */
  ghost predicate Enumerates(order: seq<Fd>, pool: Pool) {
    NoDup(order) && forall fd :: fd in order <==> fd in pool
  }
}
