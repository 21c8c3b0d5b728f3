/**
 * The transaction re-broadcast registry of src/hooks/toast/retryTx.ts.
 *
 * A module-level map `retryRecord` from transaction id to a `done` flag
 * suppresses duplicate resend loops and lets anyone stop a loop by marking
 * its id done. `retryTx` posts the signed bytes to a relay (best effort),
 * registers the id and starts a bounded resend loop; `cancelRetryTx` marks an
 * id done; `handleMultiTxRetry` routes every step of a multi-transaction run
 * to one of the two.
 *
 * The abstract state is the value `Registry`; `RetryService` is the mutable
 * object whose methods are proved to move that state as the step functions
 * below say. The resend loop (the `retry` helper) is modelled as one `Loop`
 * per id, advanced one attempt at a time by `AttemptStep`, so that any
 * interleaving of attempts with registrations and cancellations is an `Op`
 * schedule handed to `Run`.
 */
module RetryTx {

  type TxId = string

  /** A signed transaction; `wire` stands for the bytes its `serialize()` yields. */
  datatype Tx = LegacyTx(wire: seq<bv8>) | VersionedTx(wire: seq<bv8>)

  /** The options handed to the transport on every resend. */
  datatype SendOptions = SendOptions(skipPreflight: bool, maxRetries: nat)

  const ResendOptions: SendOptions := SendOptions(true, 0)

  /** One call into the network transport, as it appears in the ghost send log. */
  datatype Send =
    | SendRaw(id: TxId, bytes: seq<bv8>, options: SendOptions)
    | SendTransaction(id: TxId, tx: Tx, options: SendOptions)

  /** The options given to the `retry` helper. */
  datatype RetryConfig = RetryConfig(retryCount: nat, interval: nat, sleepTime: nat)

  const RetryCount: nat := 60
  const TxRetryConfig: RetryConfig := RetryConfig(RetryCount, 2000, 2000)

  /** A running resend loop: what it resends and how many attempts it has made. */
  datatype Loop = Loop(tx: Tx, config: RetryConfig, attempts: nat)

  datatype Status = Sent | Success | Error

  /** One entry of the per-step status list of a multi-transaction run. */
  datatype TxUpdate = TxUpdate(txId: TxId, status: Status, signedTx: Tx)

  /**
   * `record` is `retryRecord` (id to its `done` flag); `loops` are the resend
   * loops still running; `sends` logs every transport call and `relayed` every
   * relay post, in order.
   */
  datatype Registry = Registry(
    record: map<TxId, bool>,
    loops: map<TxId, Loop>,
    sends: seq<Send>,
    relayed: seq<Tx>)

  const Empty: Registry := Registry(map[], map[], [], [])

  /** What one attempt of a loop reports back to the `retry` helper. */
  datatype AttemptResult =
    | NoLoop     // no loop is running for the id
    | Stopped    // the attempt returned true: the id was done
    | Continue   // the attempt threw; another attempt follows
    | Exhausted  // the attempt threw and was the last one allowed

  datatype Attempted = Attempted(next: Registry, result: AttemptResult)

  /** The number of transport calls in `sends` made for `id`. */
  function SendCount(sends: seq<Send>, id: TxId): nat
  {
    if sends == [] then 0
    else SendCount(sends[..|sends| - 1], id) + (if sends[|sends| - 1].id == id then 1 else 0)
  }

  lemma SendCountSnoc(sends: seq<Send>, x: Send, id: TxId)
    ensures SendCount(sends + [x], id) == SendCount(sends, id) + (if x.id == id then 1 else 0)
  {
    assert (sends + [x])[..|sends|] == sends;
  }

  /**
   * Transport selection for one resend: a legacy transaction goes out as its
   * raw serialized bytes, any other through `sendTransaction`; both skip
   * preflight and forbid transport-level retries.
   */
  function TransportCall(id: TxId, tx: Tx): (call: Send)
    ensures call.id == id && call.options == ResendOptions
    ensures call.options.skipPreflight && call.options.maxRetries == 0
    ensures call.SendRaw? <==> tx.LegacyTx?
    ensures call.SendRaw? ==> call.bytes == tx.wire
    ensures call.SendTransaction? ==> call.tx == tx
  {
    match tx
    case LegacyTx(wire) => SendRaw(id, wire, ResendOptions)
    case VersionedTx(_) => SendTransaction(id, tx, ResendOptions)
  }

  /**
   * `retryTx(tx, id)`: an id already in the record (done or not) is ignored
   * outright; otherwise the bytes are posted to the relay, and only with a
   * connection is the id registered as not done and its loop started.
   */
  function RetryTxStep(s: Registry, tx: Tx, id: TxId, connected: bool): (r: Registry)
    ensures id in s.record ==> r == s
    ensures id !in s.record ==> r.relayed == s.relayed + [tx]
    ensures id !in s.record && !connected ==> id !in r.record && r.record == s.record && r.loops == s.loops
    ensures id !in s.record && connected ==>
      && r.record == s.record[id := false]
      && r.loops == s.loops[id := Loop(tx, RetryConfig(60, 2000, 2000), 0)]
    ensures r.sends == s.sends
  {
    if id in s.record then s
    else
      var posted := s.(relayed := s.relayed + [tx]);
      if !connected then posted
      else posted.(record := s.record[id := false], loops := s.loops[id := Loop(tx, TxRetryConfig, 0)])
  }

  /**
   * `cancelRetryTx(id)`: the id is marked done, whether or not it was ever
   * registered; no other id changes and nothing is sent.
   */
  function CancelStep(s: Registry, id: TxId): (r: Registry)
    ensures id in r.record && r.record[id]
    ensures r.record.Keys == s.record.Keys + {id}
    ensures forall other :: other in s.record && other != id ==> r.record[other] == s.record[other]
    ensures r.loops == s.loops && r.sends == s.sends && r.relayed == s.relayed
  {
    s.(record := s.record[id := true])
  }

  /**
   * One attempt of the loop for `id`. It reads the done flag first: when set,
   * the attempt reports success and the loop ends without sending. Otherwise
   * it makes exactly one transport call and throws, which either continues
   * the loop or, at the attempt ceiling, ends it (the failure is only logged).
   * A missing record entry makes the flag lookup itself throw before sending.
   */
  function AttemptStep(s: Registry, id: TxId): (a: Attempted)
    ensures a.next.record == s.record && a.next.relayed == s.relayed
    ensures a.next.loops.Keys <= s.loops.Keys
    ensures a.result == NoLoop <==> id !in s.loops
    ensures a.result == Stopped <==> id in s.loops && id in s.record && s.record[id]
    ensures a.result == NoLoop || a.result == Stopped ==> a.next.sends == s.sends
    ensures id in s.loops && id in s.record && !s.record[id] ==>
      a.next.sends == s.sends + [TransportCall(id, s.loops[id].tx)]
    ensures id in s.loops && id !in s.record ==> a.next.sends == s.sends
    ensures a.result == Stopped || a.result == Exhausted ==> id !in a.next.loops
    ensures id in s.loops && !(id in s.record && s.record[id]) ==>
      (a.result == Exhausted <==> s.loops[id].attempts + 1 >= s.loops[id].config.retryCount)
    ensures a.result == Continue ==>
      id in a.next.loops && a.next.loops[id] == s.loops[id].(attempts := s.loops[id].attempts + 1)
    ensures forall other :: other != id && other in s.loops ==> other in a.next.loops && a.next.loops[other] == s.loops[other]
  {
    if id !in s.loops then Attempted(s, NoLoop)
    else
      var loop := s.loops[id];
      if id in s.record && s.record[id] then Attempted(s.(loops := s.loops - {id}), Stopped)
      else
        var sends := if id in s.record then s.sends + [TransportCall(id, loop.tx)] else s.sends;
        var tried := loop.(attempts := loop.attempts + 1);
        if tried.attempts >= loop.config.retryCount then
          Attempted(s.(loops := s.loops - {id}, sends := sends), Exhausted)
        else
          Attempted(s.(loops := s.loops[id := tried], sends := sends), Continue)
  }

  /** `handleMultiTxRetry`'s treatment of one entry. */
  function Route(s: Registry, update: TxUpdate, connected: bool): Registry
  {
    if update.status == Sent then RetryTxStep(s, update.signedTx, update.txId, connected)
    else CancelStep(s, update.txId)
  }

  /** `handleMultiTxRetry(data)`: the entries are routed in list order. */
  function MultiTxRetry(s: Registry, data: seq<TxUpdate>, connected: bool): (r: Registry)
    ensures r.sends == s.sends && r.loops.Keys >= s.loops.Keys
    ensures s.record.Keys <= r.record.Keys
    decreases |data|
  {
    if data == [] then s else MultiTxRetry(Route(s, data[0], connected), data[1..], connected)
  }

  /** Everything that can happen to the registry, in any interleaving. */
  datatype Op =
    | RetryTxOp(tx: Tx, id: TxId, connected: bool)
    | CancelOp(id: TxId)
    | AttemptOp(id: TxId)
    | MultiTxRetryOp(data: seq<TxUpdate>, connected: bool)

  function Apply(s: Registry, op: Op): Registry
  {
    match op
    case RetryTxOp(tx, id, connected) => RetryTxStep(s, tx, id, connected)
    case CancelOp(id) => CancelStep(s, id)
    case AttemptOp(id) => AttemptStep(s, id).next
    case MultiTxRetryOp(data, connected) => MultiTxRetry(s, data, connected)
  }

  function Run(s: Registry, ops: seq<Op>): Registry
    decreases |ops|
  {
    if ops == [] then s else Run(Apply(s, ops[0]), ops[1..])
  }

  /** `k` successive attempts of the loop for `id`, with nothing in between. */
  function Attempts(s: Registry, id: TxId, k: nat): Registry
    decreases k
  {
    if k == 0 then s else Attempts(AttemptStep(s, id).next, id, k - 1)
  }

  /**
   * The registry invariant: every running loop belongs to a registered id,
   * carries the 60 x 2000 ms configuration, and has made exactly as many
   * transport calls as attempts, fewer than the ceiling; no id was ever sent
   * more than 60 times; only registered ids were ever sent.
   */
  ghost predicate Consistent(s: Registry)
  {
    && s.loops.Keys <= s.record.Keys
    && (forall id :: id in s.loops ==> LoopConsistent(s, id))
    && (forall id :: SendCount(s.sends, id) <= RetryCount)
    && (forall id :: SendCount(s.sends, id) > 0 ==> id in s.record)
  }

  ghost predicate LoopConsistent(s: Registry, id: TxId)
    requires id in s.loops
  {
    var loop := s.loops[id];
    && loop.config == TxRetryConfig
    && loop.attempts < RetryCount
    && SendCount(s.sends, id) == loop.attempts
  }

  // ---------------------------------------------------------------------
  // Preservation of the invariant, under every schedule
  // ---------------------------------------------------------------------

  lemma RetryTxKeepsConsistent(s: Registry, tx: Tx, id: TxId, connected: bool)
    requires Consistent(s)
    ensures Consistent(RetryTxStep(s, tx, id, connected))
  {
    var r := RetryTxStep(s, tx, id, connected);
    if id !in s.record && connected {
      assert SendCount(s.sends, id) == 0;
      forall other | other in r.loops
        ensures LoopConsistent(r, other)
      {
        if other != id {
          assert LoopConsistent(s, other);
        }
      }
    }
  }

  lemma AttemptKeepsConsistent(s: Registry, id: TxId)
    requires Consistent(s)
    ensures Consistent(AttemptStep(s, id).next)
  {
    var r := AttemptStep(s, id).next;
    if id in s.loops && !s.record[id] {
      var call := TransportCall(id, s.loops[id].tx);
      assert LoopConsistent(s, id);
      forall other
        ensures SendCount(r.sends, other) == SendCount(s.sends, other) + (if other == id then 1 else 0)
      {
        SendCountSnoc(s.sends, call, other);
      }
      forall other | other in r.loops
        ensures LoopConsistent(r, other)
      {
        if other != id {
          assert LoopConsistent(s, other);
        }
      }
    }
  }

  lemma {:induction false} MultiTxRetryKeepsConsistent(s: Registry, data: seq<TxUpdate>, connected: bool)
    requires Consistent(s)
    ensures Consistent(MultiTxRetry(s, data, connected))
    decreases |data|
  {
    if data != [] {
      var next := Route(s, data[0], connected);
      if data[0].status == Sent {
        RetryTxKeepsConsistent(s, data[0].signedTx, data[0].txId, connected);
      }
      MultiTxRetryKeepsConsistent(next, data[1..], connected);
    }
  }

  lemma ApplyKeepsConsistent(s: Registry, op: Op)
    requires Consistent(s)
    ensures Consistent(Apply(s, op))
  {
    match op
    case RetryTxOp(tx, id, connected) => RetryTxKeepsConsistent(s, tx, id, connected);
    case CancelOp(id) =>
    case AttemptOp(id) => AttemptKeepsConsistent(s, id);
    case MultiTxRetryOp(data, connected) => MultiTxRetryKeepsConsistent(s, data, connected);
  }

  lemma {:induction false} RunKeepsConsistent(s: Registry, ops: seq<Op>)
    requires Consistent(s)
    ensures Consistent(Run(s, ops))
    decreases |ops|
  {
    if ops != [] {
      ApplyKeepsConsistent(s, ops[0]);
      RunKeepsConsistent(Apply(s, ops[0]), ops[1..]);
    }
  }

  /**
   * Whatever happens, in whatever order, starting from the empty registry no
   * transaction is sent more than 60 times, and every sent id is registered.
   */
  lemma ResendsBounded(ops: seq<Op>, id: TxId)
    ensures SendCount(Run(Empty, ops).sends, id) <= 60
    ensures SendCount(Run(Empty, ops).sends, id) > 0 ==> id in Run(Empty, ops).record
  {
    RunKeepsConsistent(Empty, ops);
  }

  // ---------------------------------------------------------------------
  // Cancellation is sticky and silences the id for good
  // ---------------------------------------------------------------------

  lemma {:induction false} MultiTxRetryKeepsDone(s: Registry, data: seq<TxUpdate>, connected: bool, id: TxId)
    requires id in s.record && s.record[id]
    ensures id in MultiTxRetry(s, data, connected).record && MultiTxRetry(s, data, connected).record[id]
    decreases |data|
  {
    if data != [] {
      MultiTxRetryKeepsDone(Route(s, data[0], connected), data[1..], connected, id);
    }
  }

  lemma ApplyKeepsDone(s: Registry, op: Op, id: TxId)
    requires id in s.record && s.record[id]
    ensures id in Apply(s, op).record && Apply(s, op).record[id]
    ensures SendCount(Apply(s, op).sends, id) == SendCount(s.sends, id)
  {
    match op
    case RetryTxOp(tx, other, connected) =>
    case CancelOp(other) =>
    case AttemptOp(other) =>
      if other != id && other in s.loops && other in s.record && !s.record[other] {
        SendCountSnoc(s.sends, TransportCall(other, s.loops[other].tx), id);
      }
    case MultiTxRetryOp(data, connected) => MultiTxRetryKeepsDone(s, data, connected, id);
  }

  lemma {:induction false} DoneStaysSilent(s: Registry, ops: seq<Op>, id: TxId)
    requires id in s.record && s.record[id]
    ensures id in Run(s, ops).record && Run(s, ops).record[id]
    ensures SendCount(Run(s, ops).sends, id) == SendCount(s.sends, id)
    decreases |ops|
  {
    if ops != [] {
      ApplyKeepsDone(s, ops[0], id);
      DoneStaysSilent(Apply(s, ops[0]), ops[1..], id);
    }
  }

  /**
   * After `cancelRetryTx(id)` the id stays done under every later schedule,
   * every later `retryTx(id)` is a no-op, and no further transport call is
   * made for it.
   */
  lemma CancelIsFinal(s: Registry, id: TxId, ops: seq<Op>, tx: Tx, connected: bool)
    ensures var t := Run(CancelStep(s, id), ops);
      && id in t.record && t.record[id]
      && SendCount(t.sends, id) == SendCount(s.sends, id)
      && RetryTxStep(t, tx, id, connected) == t
  {
    DoneStaysSilent(CancelStep(s, id), ops, id);
  }

  // ---------------------------------------------------------------------
  // At most one loop per id, ever
  // ---------------------------------------------------------------------

  lemma {:induction false} MultiTxRetryStartsNoLoopFor(s: Registry, data: seq<TxUpdate>, connected: bool, id: TxId)
    requires id in s.record && id !in s.loops
    ensures id !in MultiTxRetry(s, data, connected).loops
    decreases |data|
  {
    if data != [] {
      MultiTxRetryStartsNoLoopFor(Route(s, data[0], connected), data[1..], connected, id);
    }
  }

  /**
   * Once an id is registered and its loop has ended (or was never started),
   * no schedule starts another loop for it.
   */
  lemma {:induction false} LoopNeverRestarts(s: Registry, ops: seq<Op>, id: TxId)
    requires id in s.record && id !in s.loops
    ensures id in Run(s, ops).record && id !in Run(s, ops).loops
    decreases |ops|
  {
    if ops != [] {
      if ops[0].MultiTxRetryOp? {
        MultiTxRetryStartsNoLoopFor(s, ops[0].data, ops[0].connected, id);
      }
      LoopNeverRestarts(Apply(s, ops[0]), ops[1..], id);
    }
  }

  /** Calling `retryTx` twice for one id with a connection is calling it once. */
  lemma RetryTxIdempotent(s: Registry, tx1: Tx, tx2: Tx, id: TxId, connected: bool)
    ensures RetryTxStep(RetryTxStep(s, tx1, id, true), tx2, id, connected) == RetryTxStep(s, tx1, id, true)
  {
  }

  /**
   * Without a connection the id is not registered, so a later call for it
   * runs again and posts to the relay a second time.
   */
  lemma DisconnectedRetryRepeats(s: Registry, tx1: Tx, tx2: Tx, id: TxId)
    requires id !in s.record
    ensures RetryTxStep(RetryTxStep(s, tx1, id, false), tx2, id, false).relayed == s.relayed + [tx1, tx2]
    ensures id !in RetryTxStep(RetryTxStep(s, tx1, id, false), tx2, id, false).record
  {
  }

  // ---------------------------------------------------------------------
  // The attempt ceiling
  // ---------------------------------------------------------------------

  lemma {:induction false} AttemptsWithoutLoop(s: Registry, id: TxId, k: nat)
    requires id !in s.loops
    ensures Attempts(s, id, k) == s
  {
    if k > 0 {
      AttemptsWithoutLoop(s, id, k - 1);
    }
  }

  /**
   * A loop that is never cancelled makes its remaining attempts, each with
   * one transport call, and then ends: the id has then been sent exactly 60
   * times, and further attempts change nothing.
   */
  lemma {:induction false} CeilingReached(s: Registry, id: TxId, k: nat)
    requires Consistent(s)
    requires id in s.loops && id in s.record && !s.record[id]
    requires k >= RetryCount - s.loops[id].attempts
    ensures SendCount(Attempts(s, id, k).sends, id) == RetryCount
    ensures id !in Attempts(s, id, k).loops
    decreases k
  {
    assert LoopConsistent(s, id);
    var next := AttemptStep(s, id).next;
    assert Attempts(s, id, k) == Attempts(next, id, k - 1);
    assert next.sends == s.sends + [TransportCall(id, s.loops[id].tx)];
    SendCountSnoc(s.sends, TransportCall(id, s.loops[id].tx), id);
    AttemptKeepsConsistent(s, id);
    if s.loops[id].attempts + 1 >= RetryCount {
      assert id !in next.loops;
      AttemptsWithoutLoop(next, id, k - 1);
    } else {
      assert id in next.loops && next.loops[id].attempts == s.loops[id].attempts + 1;
      assert next.record == s.record;
      CeilingReached(next, id, k - 1);
    }
  }

  /** A fresh id submitted with a connection and never cancelled is sent exactly 60 times. */
  lemma UncancelledSendsExactlyRetryCount(s: Registry, tx: Tx, id: TxId, k: nat)
    requires Consistent(s) && id !in s.record
    requires k >= 60
    ensures SendCount(Attempts(RetryTxStep(s, tx, id, true), id, k).sends, id) == 60
  {
    RetryTxKeepsConsistent(s, tx, id, true);
    CeilingReached(RetryTxStep(s, tx, id, true), id, k);
  }

  // ---------------------------------------------------------------------
  // handleMultiTxRetry
  // ---------------------------------------------------------------------

  lemma {:induction false} MultiTxRetrySnoc(s: Registry, data: seq<TxUpdate>, update: TxUpdate, connected: bool)
    ensures MultiTxRetry(s, data + [update], connected) == Route(MultiTxRetry(s, data, connected), update, connected)
    decreases |data|
  {
    if data == [] {
      assert [update][1..] == [];
    } else {
      assert (data + [update])[1..] == data[1..] + [update];
      MultiTxRetrySnoc(Route(s, data[0], connected), data[1..], update, connected);
    }
  }

  /** Ids that appear in no entry keep their record entry and their loop. */
  lemma {:induction false} MultiTxRetryFrame(s: Registry, data: seq<TxUpdate>, connected: bool, id: TxId)
    requires forall k :: 0 <= k < |data| ==> data[k].txId != id
    ensures var r := MultiTxRetry(s, data, connected);
      && (id in r.record <==> id in s.record)
      && (id in s.record ==> r.record[id] == s.record[id])
      && (id in r.loops <==> id in s.loops)
      && (id in s.loops ==> r.loops[id] == s.loops[id])
    decreases |data|
  {
    if data != [] {
      MultiTxRetryFrame(Route(s, data[0], connected), data[1..], connected, id);
    }
  }

  /** Every id reported `success` or `error` anywhere in the list ends up done. */
  lemma {:induction false} MultiTxRetryCancelsTerminal(s: Registry, data: seq<TxUpdate>, connected: bool, k: nat)
    requires k < |data| && data[k].status != Sent
    ensures data[k].txId in MultiTxRetry(s, data, connected).record
    ensures MultiTxRetry(s, data, connected).record[data[k].txId]
    decreases |data|
  {
    var next := Route(s, data[0], connected);
    if k == 0 {
      MultiTxRetryKeepsDone(next, data[1..], connected, data[0].txId);
    } else {
      MultiTxRetryCancelsTerminal(next, data[1..], connected, k - 1);
    }
  }

  /** With a connection, every id reported `sent` ends up registered. */
  lemma {:induction false} MultiTxRetryRegistersSent(s: Registry, data: seq<TxUpdate>, k: nat)
    requires k < |data| && data[k].status == Sent
    ensures data[k].txId in MultiTxRetry(s, data, true).record
    decreases |data|
  {
    var next := Route(s, data[0], true);
    if k > 0 {
      MultiTxRetryRegistersSent(next, data[1..], k - 1);
    }
  }

  // ---------------------------------------------------------------------
  // The module-level registry as a mutable object
  // ---------------------------------------------------------------------

  class RetryService {
    var record: map<TxId, bool>
    var loops: map<TxId, Loop>
    ghost var sends: seq<Send>
    ghost var relayed: seq<Tx>

    ghost function State(): Registry
      reads this
    {
      Registry(record, loops, sends, relayed)
    }

    ghost predicate Valid()
      reads this
    {
      Consistent(State())
    }

    constructor ()
      ensures Valid() && State() == Empty
    {
      record, loops := map[], map[];
      sends, relayed := [], [];
    }

    /** `retryTx({ tx, id })`; `connected` is whether the app store holds a connection. */
    method RetryTx(tx: Tx, id: TxId, connected: bool)
      requires Valid()
      modifies this
      ensures Valid()
      ensures State() == RetryTxStep(old(State()), tx, id, connected)
    {
      RetryTxKeepsConsistent(State(), tx, id, connected);
      if id in record {
        return;
      }
      // best-effort relay post: its outcome never reaches the control flow
      relayed := relayed + [tx];
      if !connected {
        return;
      }
      record := record[id := false];
      loops := loops[id := Loop(tx, TxRetryConfig, 0)];
    }

    /** `cancelRetryTx(txId)`. */
    method CancelRetryTx(id: TxId)
      requires Valid()
      modifies this
      ensures Valid()
      ensures State() == CancelStep(old(State()), id)
    {
      record := record[id := true];
    }

    /** One attempt of the resend loop for `id`, as the `retry` helper runs it. */
    method Attempt(id: TxId) returns (result: AttemptResult)
      requires Valid()
      modifies this
      ensures Valid()
      ensures State() == AttemptStep(old(State()), id).next
      ensures result == AttemptStep(old(State()), id).result
    {
      AttemptKeepsConsistent(State(), id);
      if id !in loops {
        return NoLoop;
      }
      var loop := loops[id];
      if id in record && record[id] {
        loops := loops - {id};
        return Stopped;
      }
      if id in record {
        sends := sends + [TransportCall(id, loop.tx)];
      }
      var tried := loop.(attempts := loop.attempts + 1);
      if tried.attempts >= loop.config.retryCount {
        loops := loops - {id};
        result := Exhausted;
      } else {
        loops := loops[id := tried];
        result := Continue;
      }
    }

    /** `handleMultiTxRetry(processedData)`: each entry, in order, to `retryTx` or `cancelRetryTx`. */
    method HandleMultiTxRetry(data: seq<TxUpdate>, connected: bool)
      requires Valid()
      modifies this
      ensures Valid()
      ensures State() == MultiTxRetry(old(State()), data, connected)
    {
      var i := 0;
      while i < |data|
        invariant 0 <= i <= |data|
        invariant Valid()
        invariant State() == MultiTxRetry(old(State()), data[..i], connected)
      {
        var update := data[i];
        MultiTxRetrySnoc(old(State()), data[..i], update, connected);
        assert data[..i + 1] == data[..i] + [update];
        if update.status == Sent {
          RetryTx(update.signedTx, update.txId, connected);
        } else {
          CancelRetryTx(update.txId);
        }
        i := i + 1;
      }
      assert data[..i] == data;
    }
  }
}
