/**
 * Control flow of the liquidity actions of src/store/useLiquidityStore.ts.
 *
 * Each action checks that the SDK instance is present, asks the SDK to build
 * its transaction(s), runs `execute()` and reports the outcome: a status
 * event, the caller's callbacks and an error toast. The SDK is opaque: its
 * build either throws or yields an `execute()` that resolves or rejects, and
 * a multi-transaction run additionally reports the list of per-step status
 * updates it delivered. What the actions do that others can observe is an
 * ordered trace of `Event`s.
 */
module LiquidityStore {
  import opened Wrappers
  import RetryTx

  datatype Action = AddCpmmLiquidity | AddLiquidity | RemoveLiquidity | RemoveCpmmLiquidity | CreatePool

  datatype Callback = OnSent | OnError | OnFinally | OnConfirmed

  /** Which of the optional callbacks the caller supplied. */
  datatype Callbacks = Callbacks(onSent: bool, onError: bool, onFinally: bool, onConfirmed: bool)

  /** The confirmation hook a status event carries. */
  datatype ConfirmedHook = NoHook | CallerOnConfirmed | CreatedPoolHandler

  /** A single-transaction SDK call: the build throws, or `execute()` rejects or resolves. */
  datatype Execution =
    | BuildThrew
    | ExecuteRejected
    | ExecuteResolved(txId: string, signedTx: RetryTx.Tx)

  /** The migration's SDK call: the build throws, or the sequential `execute()` rejects or resolves. */
  datatype MultiExecution =
    | MigrateBuildThrew
    | MigrateRejected
    | MigrateResolved(txIds: seq<string>)

  /** What an action does that others can observe, in order. */
  datatype Event =
    | SdkCalled(action: Action)
    | StatusPublished(txId: string, signedTx: RetryTx.Tx, onSent: bool, onError: bool, onConfirmed: ConfirmedHook)
    | Invoked(callback: Callback)
    | ErrorToast(withMeta: bool)
    | MigrationRequested(tickLower: int, tickUpper: int)
    | MultiTxRetried(data: seq<RetryTx.TxUpdate>)
    | MultiToastUpdated(data: seq<RetryTx.TxUpdate>)
    | NewCreatedPoolSet(address: string)

  /** How the action's promise settles: with a string, with `undefined`, or rejected. */
  datatype Outcome = Returned(value: string) | ReturnedUndefined | Rejects

  datatype Run = Run(outcome: Outcome, events: seq<Event>)

  /** `cb?.()`: the callback runs only when the caller supplied it. */
  function IfPresent(present: bool, callback: Callback): seq<Event>
  {
    if present then [Invoked(callback)] else []
  }

  /** `a` occurs strictly before `b` in `events`. */
  ghost predicate Precedes(events: seq<Event>, a: Event, b: Event)
  {
    exists i, j :: 0 <= i < j < |events| && events[i] == a && events[j] == b
  }

  function Occurrences(events: seq<Event>, e: Event): nat
  {
    if events == [] then 0 else (if events[0] == e then 1 else 0) + Occurrences(events[1..], e)
  }

  lemma {:induction false} OccurrencesAppend(a: seq<Event>, b: seq<Event>, e: Event)
    ensures Occurrences(a + b, e) == Occurrences(a, e) + Occurrences(b, e)
    decreases |a|
  {
    if a == [] {
      assert a + b == b;
    } else {
      assert (a + b)[1..] == a[1..] + b;
      OccurrencesAppend(a[1..], b, e);
    }
  }

  lemma OccurrencesAbsent(events: seq<Event>, e: Event)
    requires e !in events
    ensures Occurrences(events, e) == 0
  {
  }

  /** The confirmation hook each action forwards in its status event. */
  function ConfirmationHook(action: Action, cb: Callbacks): ConfirmedHook
  {
    match action
    case AddCpmmLiquidity | AddLiquidity => if cb.onConfirmed then CallerOnConfirmed else NoHook
    case RemoveLiquidity | RemoveCpmmLiquidity => NoHook
    case CreatePool => CreatedPoolHandler
  }

  /**
   * A single-transaction action. Without the SDK instance it returns '' and
   * does nothing. A build that throws rejects the action with nothing
   * reported. A resolved `execute()` publishes the status event, calls
   * `onSent` (which `createPoolAct` forwards inside the event instead) and
   * returns the id; a rejected one calls `onError`, publishes an error toast
   * and returns ''. `onFinally` closes both `execute()` paths.
   */
  function SingleTxRun(action: Action, hasRaydium: bool, cb: Callbacks, execution: Execution): Run
  {
    if !hasRaydium then Run(Returned(""), [])
    else
      match execution
      case BuildThrew => Run(Rejects, [SdkCalled(action)])
      case ExecuteRejected =>
        Run(Returned(""),
            [SdkCalled(action)] + IfPresent(cb.onError, OnError)
            + [ErrorToast(action != CreatePool)] + IfPresent(cb.onFinally, OnFinally))
      case ExecuteResolved(txId, signedTx) =>
        Run(Returned(txId),
            [SdkCalled(action),
             StatusPublished(txId, signedTx, action == CreatePool && cb.onSent, cb.onError, ConfirmationHook(action, cb))]
            + IfPresent(cb.onSent && action != CreatePool, OnSent) + IfPresent(cb.onFinally, OnFinally))
  }

  /**
   * The paths of a single-transaction action: the guard, the SDK call, the
   * success path, the failure path, and `onFinally` on both `execute()`
   * paths.
   */
  lemma SingleTxPaths(action: Action, hasRaydium: bool, cb: Callbacks, execution: Execution)
    ensures !hasRaydium ==> SingleTxRun(action, hasRaydium, cb, execution) == Run(Returned(""), [])
    ensures SdkCalled(action) in SingleTxRun(action, hasRaydium, cb, execution).events <==> hasRaydium
    ensures SingleTxRun(action, hasRaydium, cb, execution).outcome == Rejects <==> hasRaydium && execution.BuildThrew?
    ensures hasRaydium && execution.ExecuteResolved? ==>
      var run := SingleTxRun(action, hasRaydium, cb, execution);
      && run.outcome == Returned(execution.txId)
      && StatusPublished(execution.txId, execution.signedTx, action == CreatePool && cb.onSent,
                         cb.onError, ConfirmationHook(action, cb)) in run.events
      && (Invoked(OnSent) in run.events <==> cb.onSent && action != CreatePool)
      && Invoked(OnError) !in run.events
      && (forall e :: e in run.events ==> !e.ErrorToast?)
    ensures hasRaydium && execution.ExecuteRejected? ==>
      var run := SingleTxRun(action, hasRaydium, cb, execution);
      && run.outcome == Returned("")
      && (forall e :: e in run.events ==> !e.StatusPublished?)
      && Invoked(OnSent) !in run.events
      && (Invoked(OnError) in run.events <==> cb.onError)
      && ErrorToast(action != CreatePool) in run.events
    ensures Invoked(OnFinally) in SingleTxRun(action, hasRaydium, cb, execution).events
        <==> hasRaydium && !execution.BuildThrew? && cb.onFinally
    ensures Invoked(OnConfirmed) !in SingleTxRun(action, hasRaydium, cb, execution).events
  {
  }

  /** On success the status event is published before `onSent`, and `onSent` runs before `onFinally`. */
  lemma SingleTxSuccessOrder(action: Action, cb: Callbacks, txId: string, signedTx: RetryTx.Tx)
    requires action != CreatePool && cb.onSent
    ensures var run := SingleTxRun(action, true, cb, ExecuteResolved(txId, signedTx));
      && Precedes(run.events, StatusPublished(txId, signedTx, false, cb.onError, ConfirmationHook(action, cb)),
                  Invoked(OnSent))
      && (cb.onFinally ==> Precedes(run.events, Invoked(OnSent), Invoked(OnFinally)))
  {
    var run := SingleTxRun(action, true, cb, ExecuteResolved(txId, signedTx));
    assert run.events[1] == StatusPublished(txId, signedTx, false, cb.onError, ConfirmationHook(action, cb));
    assert run.events[2] == Invoked(OnSent);
    if cb.onFinally {
      assert run.events[3] == Invoked(OnFinally);
    }
  }

  /** On failure `onError` runs before the error toast, and the toast before `onFinally`. */
  lemma SingleTxFailureOrder(action: Action, cb: Callbacks)
    requires cb.onError
    ensures var run := SingleTxRun(action, true, cb, ExecuteRejected);
      && Precedes(run.events, Invoked(OnError), ErrorToast(action != CreatePool))
      && (cb.onFinally ==> Precedes(run.events, ErrorToast(action != CreatePool), Invoked(OnFinally)))
  {
    var run := SingleTxRun(action, true, cb, ExecuteRejected);
    assert run.events[1] == Invoked(OnError);
    assert run.events[2] == ErrorToast(action != CreatePool);
    if cb.onFinally {
      assert run.events[3] == Invoked(OnFinally);
    }
  }

  /** `onFinally` runs at most once, and when it runs nothing follows it. */
  lemma SingleTxFinallyOnceAndLast(action: Action, hasRaydium: bool, cb: Callbacks, execution: Execution)
    ensures var run := SingleTxRun(action, hasRaydium, cb, execution);
      && Occurrences(run.events, Invoked(OnFinally)) == (if hasRaydium && !execution.BuildThrew? && cb.onFinally then 1 else 0)
      && (Invoked(OnFinally) in run.events ==> run.events[|run.events| - 1] == Invoked(OnFinally))
  {
    var run := SingleTxRun(action, hasRaydium, cb, execution);
    if hasRaydium && !execution.BuildThrew? {
      var n := |run.events|;
      var body := run.events[..n - |IfPresent(cb.onFinally, OnFinally)|];
      assert run.events == body + IfPresent(cb.onFinally, OnFinally);
      assert Invoked(OnFinally) !in body;
      OccurrencesAbsent(body, Invoked(OnFinally));
      OccurrencesAppend(body, IfPresent(cb.onFinally, OnFinally), Invoked(OnFinally));
    } else {
      OccurrencesAbsent(run.events, Invoked(OnFinally));
    }
  }

  // ---------------------------------------------------------------------
  // migrateToClmmAct
  // ---------------------------------------------------------------------

  function Min(a: int, b: int): int { if a <= b then a else b }
  function Max(a: int, b: int): int { if a <= b then b else a }

  /** The ticks handed to the SDK: the smaller as lower, the larger as upper. */
  function NormaliseTicks(tickLower: int, tickUpper: int): (ticks: (int, int))
    ensures ticks.0 <= ticks.1
    ensures multiset{ticks.0, ticks.1} == multiset{tickLower, tickUpper}
    ensures tickLower <= tickUpper ==> ticks == (tickLower, tickUpper)
  {
    (Min(tickLower, tickUpper), Max(tickLower, tickUpper))
  }

  datatype Title = RemoveLpTitle | MigrateTitle

  /** `getSubTxTitle(idx)` for a run of `txLength` transactions. */
  function SubTxTitle(idx: int, txLength: nat): Title
  {
    if idx == txLength - 1 then MigrateTitle else RemoveLpTitle
  }

  /** The titles of all sub-transactions of a run, in order. */
  function SubTxTitles(txLength: nat): (titles: seq<Title>)
    ensures |titles| == txLength
    ensures forall i :: 0 <= i < txLength ==> (titles[i] == MigrateTitle <==> i == txLength - 1)
    ensures forall i :: 0 <= i < txLength ==> (titles[i] == RemoveLpTitle <==> i != txLength - 1)
  {
    seq(txLength, i requires 0 <= i < txLength => SubTxTitle(i, txLength))
  }

  function CountMigrateTitles(titles: seq<Title>): nat
  {
    if titles == [] then 0
    else (if titles[0] == MigrateTitle then 1 else 0) + CountMigrateTitles(titles[1..])
  }

  lemma {:induction false} NoMigrateTitle(titles: seq<Title>)
    requires forall i :: 0 <= i < |titles| ==> titles[i] == RemoveLpTitle
    ensures CountMigrateTitles(titles) == 0
    decreases |titles|
  {
    if titles != [] {
      NoMigrateTitle(titles[1..]);
    }
  }

  lemma {:induction false} CountMigrateTitlesSnoc(titles: seq<Title>, t: Title)
    ensures CountMigrateTitles(titles + [t]) == CountMigrateTitles(titles) + (if t == MigrateTitle then 1 else 0)
    decreases |titles|
  {
    if titles == [] {
      assert titles + [t] == [t];
    } else {
      assert (titles + [t])[1..] == titles[1..] + [t];
      CountMigrateTitlesSnoc(titles[1..], t);
    }
  }

  /** Exactly one sub-transaction of a non-empty run is titled as the migration: the last one. */
  lemma OnlyLastIsMigrate(txLength: nat)
    ensures CountMigrateTitles(SubTxTitles(txLength)) == (if txLength > 0 then 1 else 0)
    ensures txLength > 0 ==> SubTxTitles(txLength)[txLength - 1] == MigrateTitle
  {
    var titles := SubTxTitles(txLength);
    if txLength > 0 {
      var removals := titles[..txLength - 1];
      assert titles == removals + [MigrateTitle];
      NoMigrateTitle(removals);
      CountMigrateTitlesSnoc(removals, MigrateTitle);
    }
  }

  /** Each status update: first `handleMultiTxRetry`, then the toast update. */
  function UpdateEvents(updates: seq<seq<RetryTx.TxUpdate>>): (events: seq<Event>)
    ensures |events| == 2 * |updates|
    decreases |updates|
  {
    if updates == [] then []
    else [MultiTxRetried(updates[0]), MultiToastUpdated(updates[0])] + UpdateEvents(updates[1..])
  }

  /** The `k`-th update is handed to `handleMultiTxRetry` right before its own toast update. */
  lemma {:induction false} UpdateRetriedBeforeToast(updates: seq<seq<RetryTx.TxUpdate>>, k: nat)
    requires k < |updates|
    ensures UpdateEvents(updates)[2 * k] == MultiTxRetried(updates[k])
    ensures UpdateEvents(updates)[2 * k + 1] == MultiToastUpdated(updates[k])
    decreases k
  {
    if k > 0 {
      UpdateRetriedBeforeToast(updates[1..], k - 1);
    }
  }

  lemma {:induction false} UpdateEventsHaveNoCallbacks(updates: seq<seq<RetryTx.TxUpdate>>, c: Callback)
    ensures Invoked(c) !in UpdateEvents(updates)
    decreases |updates|
  {
    if updates != [] {
      UpdateEventsHaveNoCallbacks(updates[1..], c);
    }
  }

  predicate MigrateGuard(hasRaydium: bool, connected: bool, canSignAll: bool)
  {
    hasRaydium && connected && canSignAll
  }

  /**
   * `migrateToClmmAct`. Without the SDK instance, a connection or a
   * multi-signer it returns ''. Otherwise the SDK receives the normalised
   * ticks; every update of the sequential run goes through
   * `handleMultiTxRetry` before its toast; success returns the first id
   * (undefined when there is none) after a final toast update, failure calls
   * `onError`, shows an error toast and returns ''. The action itself never
   * calls `onFinally`.
   */
  function MigrateRun(hasRaydium: bool, connected: bool, canSignAll: bool, cb: Callbacks,
                      tickLower: int, tickUpper: int,
                      updates: seq<seq<RetryTx.TxUpdate>>, execution: MultiExecution): (run: Run)
    ensures !MigrateGuard(hasRaydium, connected, canSignAll) ==> run == Run(Returned(""), [])
    ensures MigrateGuard(hasRaydium, connected, canSignAll) ==>
      |run.events| > 0 && run.events[0] == MigrationRequested(Min(tickLower, tickUpper), Max(tickLower, tickUpper))
    ensures run.outcome == Rejects <==> MigrateGuard(hasRaydium, connected, canSignAll) && execution.MigrateBuildThrew?
    ensures MigrateGuard(hasRaydium, connected, canSignAll) && execution.MigrateResolved? ==>
      run.outcome == (if execution.txIds != [] then Returned(execution.txIds[0]) else ReturnedUndefined)
    ensures MigrateGuard(hasRaydium, connected, canSignAll) && execution.MigrateRejected? ==>
      run.outcome == Returned("")
  {
    if !MigrateGuard(hasRaydium, connected, canSignAll) then Run(Returned(""), [])
    else
      var ticks := NormaliseTicks(tickLower, tickUpper);
      var requested := [MigrationRequested(ticks.0, ticks.1)];
      match execution
      case MigrateBuildThrew => Run(Rejects, requested)
      case MigrateRejected =>
        Run(Returned(""), requested + UpdateEvents(updates) + IfPresent(cb.onError, OnError) + [ErrorToast(true)])
      case MigrateResolved(txIds) =>
        Run(if txIds != [] then Returned(txIds[0]) else ReturnedUndefined,
            requested + UpdateEvents(updates) + [MultiToastUpdated([])])
  }

  /**
   * Once the build succeeded, the migration's trace starts with the request
   * and then, update by update and in delivery order, hands each one to
   * `handleMultiTxRetry` right before its own toast update.
   */
  lemma MigrateRunDeliversUpdatesInOrder(hasRaydium: bool, connected: bool, canSignAll: bool, cb: Callbacks,
                                         tickLower: int, tickUpper: int,
                                         updates: seq<seq<RetryTx.TxUpdate>>, execution: MultiExecution)
    requires MigrateGuard(hasRaydium, connected, canSignAll) && !execution.MigrateBuildThrew?
    ensures var run := MigrateRun(hasRaydium, connected, canSignAll, cb, tickLower, tickUpper, updates, execution);
      && |run.events| >= 1 + 2 * |updates|
      && forall k :: 0 <= k < |updates| ==>
           run.events[1 + 2 * k] == MultiTxRetried(updates[k]) && run.events[2 + 2 * k] == MultiToastUpdated(updates[k])
  {
    forall k | 0 <= k < |updates| {
      UpdateRetriedBeforeToast(updates, k);
    }
  }

  /**
   * The migration's callbacks belong to the toast handler: the action calls
   * `onError` only on failure and never `onSent`, `onConfirmed` or
   * `onFinally` itself.
   */
  lemma MigrateCallbacks(hasRaydium: bool, connected: bool, canSignAll: bool, cb: Callbacks,
                         tickLower: int, tickUpper: int,
                         updates: seq<seq<RetryTx.TxUpdate>>, execution: MultiExecution)
    ensures var run := MigrateRun(hasRaydium, connected, canSignAll, cb, tickLower, tickUpper, updates, execution);
      && Invoked(OnFinally) !in run.events
      && Invoked(OnSent) !in run.events
      && Invoked(OnConfirmed) !in run.events
      && (Invoked(OnError) in run.events <==>
            MigrateGuard(hasRaydium, connected, canSignAll) && execution.MigrateRejected? && cb.onError)
  {
    UpdateEventsHaveNoCallbacks(updates, OnFinally);
    UpdateEventsHaveNoCallbacks(updates, OnSent);
    UpdateEventsHaveNoCallbacks(updates, OnConfirmed);
    UpdateEventsHaveNoCallbacks(updates, OnError);
  }

  /** The registry after every update of a run has gone through `handleMultiTxRetry`, in order. */
  function RetryAllUpdates(s: RetryTx.Registry, updates: seq<seq<RetryTx.TxUpdate>>, connected: bool): RetryTx.Registry
    decreases |updates|
  {
    if updates == [] then s
    else RetryAllUpdates(RetryTx.MultiTxRetry(s, updates[0], connected), updates[1..], connected)
  }

  lemma {:induction false} RetryAllUpdatesSnoc(s: RetryTx.Registry, updates: seq<seq<RetryTx.TxUpdate>>,
                                               data: seq<RetryTx.TxUpdate>, connected: bool)
    ensures RetryAllUpdates(s, updates + [data], connected)
         == RetryTx.MultiTxRetry(RetryAllUpdates(s, updates, connected), data, connected)
    decreases |updates|
  {
    if updates == [] {
      assert [data][1..] == [];
    } else {
      assert (updates + [data])[1..] == updates[1..] + [data];
      RetryAllUpdatesSnoc(RetryTx.MultiTxRetry(s, updates[0], connected), updates[1..], data, connected);
    }
  }

  lemma {:induction false} RetryAllUpdatesKeepsDone(s: RetryTx.Registry, updates: seq<seq<RetryTx.TxUpdate>>,
                                                    connected: bool, id: RetryTx.TxId)
    requires id in s.record && s.record[id]
    ensures id in RetryAllUpdates(s, updates, connected).record
    ensures RetryAllUpdates(s, updates, connected).record[id]
    decreases |updates|
  {
    if updates != [] {
      RetryTx.MultiTxRetryKeepsDone(s, updates[0], connected, id);
      RetryAllUpdatesKeepsDone(RetryTx.MultiTxRetry(s, updates[0], connected), updates[1..], connected, id);
    }
  }

  /**
   * Once a step of the migration has been reported `success` or `error` in
   * any update, its id is done when the run ends, so its resend loop stops.
   */
  lemma {:induction false} MigrateCancelsSettledSteps(s: RetryTx.Registry, updates: seq<seq<RetryTx.TxUpdate>>,
                                                      connected: bool, k: nat, j: nat)
    requires k < |updates| && j < |updates[k]| && updates[k][j].status != RetryTx.Sent
    ensures updates[k][j].txId in RetryAllUpdates(s, updates, connected).record
    ensures RetryAllUpdates(s, updates, connected).record[updates[k][j].txId]
    decreases k
  {
    var next := RetryTx.MultiTxRetry(s, updates[0], connected);
    if k == 0 {
      RetryTx.MultiTxRetryCancelsTerminal(s, updates[0], connected, j);
      RetryAllUpdatesKeepsDone(next, updates[1..], connected, updates[k][j].txId);
    } else {
      MigrateCancelsSettledSteps(next, updates[1..], connected, k - 1, j);
    }
  }

  // ---------------------------------------------------------------------
  // computePairAmount
  // ---------------------------------------------------------------------

  /** The amounts the SDK quotes for the other side of a deposit. */
  datatype PairAmount = PairAmount(output: string, maxOutput: string, liquidity: nat)

  /**
   * Without the SDK instance the quote is '0', '0', 0; otherwise the pool's
   * program id decides whether the CPMM or the standard AMM quote is used.
   */
  function ComputePairAmount(hasRaydium: bool, poolProgramId: string, cpmmProgramId: string,
                             cpmmQuote: PairAmount, ammQuote: PairAmount): (r: PairAmount)
    ensures !hasRaydium ==> r == PairAmount("0", "0", 0)
    ensures hasRaydium ==> (r == cpmmQuote || r == ammQuote)
    ensures hasRaydium && poolProgramId == cpmmProgramId ==> r == cpmmQuote
    ensures hasRaydium && poolProgramId != cpmmProgramId ==> r == ammQuote
  {
    if !hasRaydium then PairAmount("0", "0", 0)
    else if poolProgramId == cpmmProgramId then cpmmQuote
    else ammQuote
  }

  // ---------------------------------------------------------------------
  // The store
  // ---------------------------------------------------------------------

  /**
   * The liquidity store: `newCreatedPool` is its state; `published` is the
   * trace of everything its actions made observable (status and toast
   * publications, callback invocations), in order.
   */
  class LiquidityStore {
    var newCreatedPool: Option<string>
    ghost var published: seq<Event>

    constructor ()
      ensures newCreatedPool == None && published == []
    {
      newCreatedPool := None;
      published := [];
    }

    /** The shared body of the single-transaction actions. */
    method Settle(action: Action, hasRaydium: bool, cb: Callbacks, execution: Execution) returns (outcome: Outcome)
      modifies this`published
      ensures published == old(published) + SingleTxRun(action, hasRaydium, cb, execution).events
      ensures outcome == SingleTxRun(action, hasRaydium, cb, execution).outcome
    {
      if !hasRaydium {
        return Returned("");
      }
      published := published + [SdkCalled(action)];
      match execution
      case BuildThrew =>
        outcome := Rejects;
      case ExecuteRejected =>
        if cb.onError {
          published := published + [Invoked(OnError)];
        }
        published := published + [ErrorToast(action != CreatePool)];
        if cb.onFinally {
          published := published + [Invoked(OnFinally)];
        }
        outcome := Returned("");
      case ExecuteResolved(txId, signedTx) =>
        published := published
          + [StatusPublished(txId, signedTx, action == CreatePool && cb.onSent, cb.onError, ConfirmationHook(action, cb))];
        if cb.onSent && action != CreatePool {
          published := published + [Invoked(OnSent)];
        }
        if cb.onFinally {
          published := published + [Invoked(OnFinally)];
        }
        outcome := Returned(txId);
    }

    method AddCpmmLiquidityAct(hasRaydium: bool, cb: Callbacks, execution: Execution) returns (outcome: Outcome)
      modifies this`published
      ensures published == old(published) + SingleTxRun(AddCpmmLiquidity, hasRaydium, cb, execution).events
      ensures outcome == SingleTxRun(AddCpmmLiquidity, hasRaydium, cb, execution).outcome
    {
      outcome := Settle(AddCpmmLiquidity, hasRaydium, cb, execution);
    }

    method AddLiquidityAct(hasRaydium: bool, cb: Callbacks, execution: Execution) returns (outcome: Outcome)
      modifies this`published
      ensures published == old(published) + SingleTxRun(AddLiquidity, hasRaydium, cb, execution).events
      ensures outcome == SingleTxRun(AddLiquidity, hasRaydium, cb, execution).outcome
    {
      outcome := Settle(AddLiquidity, hasRaydium, cb, execution);
    }

    method RemoveLiquidityAct(hasRaydium: bool, cb: Callbacks, execution: Execution) returns (outcome: Outcome)
      modifies this`published
      ensures published == old(published) + SingleTxRun(RemoveLiquidity, hasRaydium, cb, execution).events
      ensures outcome == SingleTxRun(RemoveLiquidity, hasRaydium, cb, execution).outcome
    {
      outcome := Settle(RemoveLiquidity, hasRaydium, cb, execution);
    }

    method RemoveCpmmLiquidityAct(hasRaydium: bool, cb: Callbacks, execution: Execution) returns (outcome: Outcome)
      modifies this`published
      ensures published == old(published) + SingleTxRun(RemoveCpmmLiquidity, hasRaydium, cb, execution).events
      ensures outcome == SingleTxRun(RemoveCpmmLiquidity, hasRaydium, cb, execution).outcome
    {
      outcome := Settle(RemoveCpmmLiquidity, hasRaydium, cb, execution);
    }

    method CreatePoolAct(hasRaydium: bool, cb: Callbacks, execution: Execution) returns (outcome: Outcome)
      modifies this`published
      ensures published == old(published) + SingleTxRun(CreatePool, hasRaydium, cb, execution).events
      ensures outcome == SingleTxRun(CreatePool, hasRaydium, cb, execution).outcome
    {
      outcome := Settle(CreatePool, hasRaydium, cb, execution);
    }

    /** `createPoolAct`'s `handleConfirmed`: the caller's `onConfirmed` first, then the new pool is stored. */
    method HandleConfirmed(address: string, hasOnConfirmed: bool)
      modifies this
      ensures newCreatedPool == Some(address)
      ensures published == old(published) + IfPresent(hasOnConfirmed, OnConfirmed) + [NewCreatedPoolSet(address)]
    {
      if hasOnConfirmed {
        published := published + [Invoked(OnConfirmed)];
      }
      newCreatedPool := Some(address);
      published := published + [NewCreatedPoolSet(address)];
    }

    /**
     * The `onTxUpdate` callback over a whole sequential run: each update goes
     * to `handleMultiTxRetry`, then to the toast.
     */
    method DeliverUpdates(updates: seq<seq<RetryTx.TxUpdate>>, connected: bool, retry: RetryTx.RetryService)
      requires retry.Valid()
      modifies this`published, retry
      ensures retry.Valid()
      ensures retry.State() == RetryAllUpdates(old(retry.State()), updates, connected)
      ensures published == old(published) + UpdateEvents(updates)
    {
      var i := 0;
      while i < |updates|
        invariant 0 <= i <= |updates|
        invariant retry.Valid()
        invariant retry.State() == RetryAllUpdates(old(retry.State()), updates[..i], connected)
        invariant published == old(published) + UpdateEvents(updates[..i])
      {
        var data := updates[i];
        RetryAllUpdatesSnoc(old(retry.State()), updates[..i], data, connected);
        UpdateEventsSnoc(updates[..i], data);
        assert updates[..i + 1] == updates[..i] + [data];
        retry.HandleMultiTxRetry(data, connected);
        published := published + [MultiTxRetried(data), MultiToastUpdated(data)];
        i := i + 1;
      }
      assert updates[..i] == updates;
    }

    /**
     * `migrateToClmmAct`, with the per-step updates the sequential `execute()`
     * delivers; each one goes through the shared retry registry.
     */
    method MigrateToClmmAct(hasRaydium: bool, connected: bool, canSignAll: bool, cb: Callbacks,
                            tickLower: int, tickUpper: int,
                            updates: seq<seq<RetryTx.TxUpdate>>, execution: MultiExecution,
                            retry: RetryTx.RetryService)
      returns (outcome: Outcome)
      requires retry.Valid()
      modifies this`published, retry
      ensures retry.Valid()
      ensures published == old(published)
        + MigrateRun(hasRaydium, connected, canSignAll, cb, tickLower, tickUpper, updates, execution).events
      ensures outcome == MigrateRun(hasRaydium, connected, canSignAll, cb, tickLower, tickUpper, updates, execution).outcome
      ensures retry.State() ==
        if MigrateGuard(hasRaydium, connected, canSignAll) && !execution.MigrateBuildThrew?
        then RetryAllUpdates(old(retry.State()), updates, connected)
        else old(retry.State())
    {
      if !hasRaydium || !connected || !canSignAll {
        return Returned("");
      }
      var ticks := NormaliseTicks(tickLower, tickUpper);
      published := published + [MigrationRequested(ticks.0, ticks.1)];
      if execution.MigrateBuildThrew? {
        return Rejects;
      }
      DeliverUpdates(updates, connected, retry);
      match execution
      case MigrateRejected =>
        if cb.onError {
          published := published + [Invoked(OnError)];
        }
        published := published + [ErrorToast(true)];
        outcome := Returned("");
      case MigrateResolved(txIds) =>
        published := published + [MultiToastUpdated([])];
        outcome := if txIds != [] then Returned(txIds[0]) else ReturnedUndefined;
    }
  }

  lemma {:induction false} UpdateEventsSnoc(updates: seq<seq<RetryTx.TxUpdate>>, data: seq<RetryTx.TxUpdate>)
    ensures UpdateEvents(updates + [data]) == UpdateEvents(updates) + [MultiTxRetried(data), MultiToastUpdated(data)]
    decreases |updates|
  {
    if updates == [] {
      assert [data][1..] == [];
    } else {
      assert (updates + [data])[1..] == updates[1..] + [data];
      UpdateEventsSnoc(updates[1..], data);
    }
  }
}
