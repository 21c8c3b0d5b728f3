# Transaction re-broadcast and liquidity action model

A Dafny model of the transaction-delivery core of a Raydium liquidity
front end. It covers three parts and states their behaviour as verified
contracts and lemmas:

- **Re-broadcast registry** (`src/hooks/toast/retryTx.ts`, module `RetryTx`).
  A map `retryRecord` takes each transaction id to a `done` flag.
  - `retryTx` suppresses duplicates. It posts the signed bytes to a relay on
    a best-effort basis. If a connection exists, it registers the id as not
    done and starts a resend loop of at most 60 attempts, 2000 ms apart.
  - Each attempt checks the flag first. If the flag is set, the attempt stops
    the loop without sending. Otherwise it sends the bytes once and throws,
    and the loop goes on.
  - `cancelRetryTx` sets the flag. The flag stays set.
  - `handleMultiTxRetry` sends each `sent` step of a multi-transaction run to
    `retryTx`, and each `success` or `error` step to `cancelRetryTx`.

  The abstract state is the value `Registry`. `RetryService` is the object
  whose methods change the state in the way the step functions describe.
  The resend loop runs one attempt per `AttemptStep`. Any interleaving of
  attempts, registrations and cancellations is an `Op` schedule, and the
  main results (`ResendsBounded`, `CancelIsFinal`, `LoopNeverRestarts`) hold
  for every schedule.
- **CLMM position grouping** (`src/hooks/portfolio/clmm/useClmmBalance.ts`,
  module `ClmmBalance`). The hook keeps the token accounts whose amount is 1
  and derives one position key for each of them. Fetching is enabled only
  under five conditions. Every fetched position is filed under its pool, and
  only the first position of each pool carries a key. A module-level
  `lastRefreshTag` makes the hook refetch only when the tag changes.
- **Liquidity actions** (`src/store/useLiquidityStore.ts`, module
  `LiquidityStore`). These are the guard, success and failure paths of the
  add, remove, create-pool and migrate actions, written as an ordered trace
  of observable events: status published, callbacks invoked, toasts shown.
  The migration also normalises its ticks, titles its sub-transactions and
  passes every status update to the re-broadcast registry.

Decisions made by code outside this model are parameters:

- the outcome of the SDK (the build throws, or `execute()` resolves or
  rejects);
- whether a connection, an SDK instance or a multi-signer exists;
- account decoding and position-key derivation, passed as functions;
- the status updates of a sequential run.

Transport calls and relay posts are recorded in ghost logs.

Three behaviours of the code that the model keeps as written:

- Registry entries are never removed. `cancelRetryTx` even inserts
  `{done: true}` for an id that was never seen. So an id, once registered,
  can never get a second loop.
- Duplicate suppression depends on the connection. Without one, `retryTx`
  does not register the id, and every later call for that id posts to the
  relay again.
- A failed step does not stop the resends of other steps. Only ids that are
  reported `success` or `error` are cancelled.

## Model

| member | source | states |
|---|---|---|
| RetryTx.TransportCall | src/hooks/toast/retryTx.ts:30-32 | a legacy transaction is resent as its raw serialized bytes, any other through `sendTransaction`; both with skipPreflight on and zero transport retries |
| RetryTx.RetryTxStep | src/hooks/toast/retryTx.ts:13-26 | an id already recorded (done or not) leaves everything unchanged; otherwise one relay post happens; without a connection the record and the loops stay exactly as they were; with one the id is recorded as not done and a loop with 60 attempts, 2000 ms interval and 2000 ms sleep starts; no transport call is made |
| RetryTx.CancelStep | src/hooks/toast/retryTx.ts:46-49 | the id is done afterwards, even if it was never registered; every other id keeps its entry; loops, sends and relay posts are untouched |
| RetryTx.AttemptStep | src/hooks/toast/retryTx.ts:27-43 | an attempt reports success exactly when its id is done, and then ends the loop without sending; when the id is recorded as not done it makes exactly one transport call for the loop's transaction, while a missing record entry makes the attempt fail before sending; no attempt touches the record; a throwing attempt ends the loop exactly when it was the 60th, and otherwise keeps the loop with one more attempt counted; only the attempted loop can end, others are untouched |
| RetryTx.MultiTxRetry | src/hooks/toast/retryTx.ts:51-65 | routing a status list never sends, never stops a loop and never removes a recorded id |
| RetryTx.RetryTxKeepsConsistent | src/hooks/toast/retryTx.ts:15-26 | registration keeps the registry invariant: every loop is registered, runs the 60 x 2000 ms configuration, has sent exactly as many times as it has attempted, and no id was sent more than 60 times |
| RetryTx.AttemptKeepsConsistent | src/hooks/toast/retryTx.ts:27-40 | one attempt keeps the registry invariant, including the 60-send ceiling |
| RetryTx.MultiTxRetryKeepsConsistent | src/hooks/toast/retryTx.ts:58-64 | routing a status list keeps the registry invariant |
| RetryTx.ApplyKeepsConsistent | src/hooks/toast/retryTx.ts:13-65 | every operation keeps the registry invariant |
| RetryTx.RunKeepsConsistent | src/hooks/toast/retryTx.ts:13-65 | every schedule of operations keeps the registry invariant |
| RetryTx.ResendsBounded | src/hooks/toast/retryTx.ts:15-40 | from the empty registry, under any interleaving, no id is sent more than 60 times, and only registered ids are ever sent |
| RetryTx.MultiTxRetryKeepsDone | src/hooks/toast/retryTx.ts:58-64 | a done id stays done through any status list |
| RetryTx.ApplyKeepsDone | src/hooks/toast/retryTx.ts:15-49 | no operation clears a done flag or sends a done id |
| RetryTx.DoneStaysSilent | src/hooks/toast/retryTx.ts:29 | under any schedule, a done id stays done and gets no more transport calls |
| RetryTx.CancelIsFinal | src/hooks/toast/retryTx.ts:46-49 | after `cancelRetryTx(id)` and any later schedule, the id is done, its send count is frozen, and `retryTx(id)` is a no-op |
| RetryTx.MultiTxRetryStartsNoLoopFor | src/hooks/toast/retryTx.ts:58-64 | a status list starts no loop for an id that is already recorded |
| RetryTx.LoopNeverRestarts | src/hooks/toast/retryTx.ts:15 | a recorded id whose loop is not running never gets a loop again, under any schedule |
| RetryTx.RetryTxIdempotent | src/hooks/toast/retryTx.ts:15 | with a connection, a second `retryTx` for the same id changes nothing: there is one loop per id |
| RetryTx.DisconnectedRetryRepeats | src/hooks/toast/retryTx.ts:17-23 | without a connection the id is not registered, so a second call posts to the relay again |
| RetryTx.AttemptsWithoutLoop | src/hooks/toast/retryTx.ts:27 | attempts for an id with no running loop change nothing |
| RetryTx.CeilingReached | src/hooks/toast/retryTx.ts:35-40 | a loop that is never cancelled sends on each remaining attempt, then ends after a total of 60 sends for its id |
| RetryTx.UncancelledSendsExactlyRetryCount | src/hooks/toast/retryTx.ts:24-40 | a fresh id submitted with a connection and never cancelled is sent exactly 60 times, however many further attempts are scheduled |
| RetryTx.MultiTxRetrySnoc | src/hooks/toast/retryTx.ts:58-64 | the entries are handled strictly in list order: one more entry means one more routing step at the end |
| RetryTx.MultiTxRetryFrame | src/hooks/toast/retryTx.ts:51-65 | an id that appears in no entry keeps its record entry and its loop |
| RetryTx.MultiTxRetryCancelsTerminal | src/hooks/toast/retryTx.ts:63 | every id reported `success` or `error` anywhere in the list is done afterwards |
| RetryTx.MultiTxRetryRegistersSent | src/hooks/toast/retryTx.ts:59-60 | with a connection, every id reported `sent` is recorded afterwards |
| RetryTx.RetryService.constructor | src/hooks/toast/retryTx.ts:6-11 | the registry starts empty and consistent |
| RetryTx.RetryService.RetryTx | src/hooks/toast/retryTx.ts:13-44 | the object's new state is `RetryTxStep` of the old state, and the invariant is kept |
| RetryTx.RetryService.CancelRetryTx | src/hooks/toast/retryTx.ts:46-49 | the object's new state is `CancelStep` of the old state |
| RetryTx.RetryService.Attempt | src/hooks/toast/retryTx.ts:28-34 | the object's new state and the returned result are those of `AttemptStep` |
| RetryTx.RetryService.HandleMultiTxRetry | src/hooks/toast/retryTx.ts:51-65 | the loop over the entries leaves the state `MultiTxRetry` of the old state, and the invariant is kept |
| ClmmBalance.BalanceMints | src/hooks/portfolio/clmm/useClmmBalance.ts:51 | the result holds exactly the accounts whose amount is 1, each as many times as in the input |
| ClmmBalance.BalanceMintsAppend | src/hooks/portfolio/clmm/useClmmBalance.ts:51 | the filter distributes over concatenation, so kept accounts keep their original order |
| ClmmBalance.AllPositionKey | src/hooks/portfolio/clmm/useClmmBalance.ts:96-99 | one derived key per NFT account, same length and order |
| ClmmBalance.FetchKey | src/hooks/portfolio/clmm/useClmmBalance.ts:101-102 | the request key is the key list exactly when the store is loaded, a program id and a connection exist, and both the raw accounts and the keys are non-empty; otherwise it is null |
| ClmmBalance.ClmmProgramId | src/hooks/portfolio/clmm/useClmmBalance.ts:44 | a supplied non-empty program id wins; otherwise the configured one is used; the result is empty only when both are |
| ClmmBalance.NeedFetchIffSomePositionNft | src/hooks/portfolio/clmm/useClmmBalance.ts:44-101 | with the program id resolved as `programId`, falling back to `CLMM_PROGRAM_ID` and the keys derived from the accounts, fetching is enabled exactly when the store is loaded, some program id and a connection exist, and some account holds amount 1 |
| ClmmBalance.FiledUnder | src/hooks/portfolio/clmm/useClmmBalance.ts:111-122 | the indices filed under a pool are ascending, and are exactly those whose non-null response decodes to that pool |
| ClmmBalance.PoolList | src/hooks/portfolio/clmm/useClmmBalance.ts:115-122 | a pool's list has one decoded position per filed index, in index order; only the first carries the key at its index |
| ClmmBalance.GroupedStep | src/hooks/portfolio/clmm/useClmmBalance.ts:111-123 | one `forEach` step (skip a null response, open a pool's list with a keyed position, or append an unkeyed one) extends the grouping by one response |
| ClmmBalance.BalanceData | src/hooks/portfolio/clmm/useClmmBalance.ts:109-125 | undefined data gives an empty map; otherwise a pool is in the map exactly when some non-null response decodes to it, and its list is that pool's `PoolList` |
| ClmmBalance.ResponseFiledOnce | src/hooks/portfolio/clmm/useClmmBalance.ts:112-114 | a non-null response is filed under its own decoded pool and no other; a null response is filed nowhere |
| ClmmBalance.Refetches | src/hooks/portfolio/clmm/useClmmBalance.ts:127-131 | there are never more refetches than effect runs, and each one is for a tag that was seen |
| ClmmBalance.RefetchesOnlyOnChange | src/hooks/portfolio/clmm/useClmmBalance.ts:128 | the first refetch is for a tag different from the stored one, and two consecutive refetches are never for the same tag |
| ClmmBalance.SameTagRefetchesAtMostOnce | src/hooks/portfolio/clmm/useClmmBalance.ts:127-131 | repeated runs with one tag trigger at most one refetch, and none if that tag is already stored |
| ClmmBalance.RefetchesSnoc | src/hooks/portfolio/clmm/useClmmBalance.ts:127-131 | one more effect run adds exactly the refetch that run alone makes from the tag stored by the earlier runs |
| ClmmBalance.RefreshGuard.constructor | src/hooks/portfolio/clmm/useClmmBalance.ts:23 | the guard starts from the store's initial tag with no refetch and an empty history, and its invariant holds |
| ClmmBalance.RefreshGuard.OnRefreshTag | src/hooks/portfolio/clmm/useClmmBalance.ts:127-131 | the stored tag becomes the new tag, and `mutate` is called once exactly when the tag changed; the tag joins the history, and the invariant is kept: the refetch log is always `Refetches` of the initial tag over the whole history, so `RefetchesOnlyOnChange` and `SameTagRefetchesAtMostOnce` hold of the guard's own log |
| LiquidityStore.SingleTxPaths | src/store/useLiquidityStore.ts:114-161 | without the SDK instance: '' and no event. The SDK is called exactly when the instance exists, and the action rejects exactly when the build throws. On success the id is returned and the status event carries that id and transaction, `onError` and the action's confirmation hook; `onSent` is called unless the action is `createPoolAct`; there is no `onError` call and no toast. On failure '' is returned, no status event is published and `onSent` is not called; `onError` is called if supplied, and the error toast is shown. `onFinally` runs exactly on the two `execute()` paths. `onConfirmed` is never called directly |
| LiquidityStore.SingleTxSuccessOrder | src/store/useLiquidityStore.ts:143-153 | the status event precedes `onSent`, which precedes `onFinally` |
| LiquidityStore.SingleTxFailureOrder | src/store/useLiquidityStore.ts:155-160 | `onError` precedes the error toast, which precedes `onFinally` |
| LiquidityStore.SingleTxFinallyOnceAndLast | src/store/useLiquidityStore.ts:142-160 | `onFinally` runs once when supplied and `execute()` ran, otherwise never, and nothing follows it |
| LiquidityStore.NormaliseTicks | src/store/useLiquidityStore.ts:350-354 | the ticks passed on are ordered, are a permutation of the two inputs, and already-ordered ticks are kept |
| LiquidityStore.SubTxTitles | src/store/useLiquidityStore.ts:377 | one title per sub-transaction: the migration title exactly at the last index, the removal title at every other index |
| LiquidityStore.OnlyLastIsMigrate | src/store/useLiquidityStore.ts:377 | in a non-empty run exactly one sub-transaction, the last, gets the migration title; every other one gets the removal title |
| LiquidityStore.UpdateRetriedBeforeToast | src/store/useLiquidityStore.ts:381-391 | the k-th status update goes to `handleMultiTxRetry` immediately before its own toast update |
| LiquidityStore.MigrateRun | src/store/useLiquidityStore.ts:343-409 | without the SDK instance, a connection or a multi-signer: '' and no event. Otherwise the SDK first receives min/max ticks, and the action rejects exactly when the build throws. Success returns the first id, or undefined if there is none; failure returns '' |
| LiquidityStore.MigrateRunDeliversUpdatesInOrder | src/store/useLiquidityStore.ts:379-392 | once the build succeeded, the migration's trace holds, after the request, the k-th update handed to `handleMultiTxRetry` at position 1 + 2k and its toast update right after it, for every update in delivery order |
| LiquidityStore.MigrateCallbacks | src/store/useLiquidityStore.ts:370-408 | the migration never calls `onFinally`, `onSent` or `onConfirmed` itself, and calls `onError` exactly on failure when it is supplied |
| LiquidityStore.RetryAllUpdatesSnoc | src/store/useLiquidityStore.ts:381-382 | the updates reach the registry in delivery order |
| LiquidityStore.RetryAllUpdatesKeepsDone | src/store/useLiquidityStore.ts:382 | a done id stays done through all updates of a run |
| LiquidityStore.MigrateCancelsSettledSteps | src/store/useLiquidityStore.ts:379-392 | once any update reports a step `success` or `error`, that step's id is done at the end of the run, so its resends stop |
| LiquidityStore.ComputePairAmount | src/store/useLiquidityStore.ts:411-434 | without the SDK instance the result is '0', '0', 0; otherwise it is the CPMM quote for a pool of the CPMM program and the standard AMM quote for any other pool |
| LiquidityStore.LiquidityStore.Settle | src/store/useLiquidityStore.ts:142-160 | the events published and the outcome are those of `SingleTxRun` |
| LiquidityStore.LiquidityStore.AddCpmmLiquidityAct | src/store/useLiquidityStore.ts:114-161 | publishes exactly the `SingleTxRun` trace of the CPMM add action and settles with its outcome |
| LiquidityStore.LiquidityStore.AddLiquidityAct | src/store/useLiquidityStore.ts:163-209 | publishes exactly the `SingleTxRun` trace of the AMM add action and settles with its outcome |
| LiquidityStore.LiquidityStore.RemoveLiquidityAct | src/store/useLiquidityStore.ts:211-247 | publishes exactly the `SingleTxRun` trace of the AMM remove action, which forwards no confirmation hook |
| LiquidityStore.LiquidityStore.RemoveCpmmLiquidityAct | src/store/useLiquidityStore.ts:249-286 | publishes exactly the `SingleTxRun` trace of the CPMM remove action, which forwards no confirmation hook |
| LiquidityStore.LiquidityStore.CreatePoolAct | src/store/useLiquidityStore.ts:288-341 | publishes exactly the `SingleTxRun` trace of pool creation: `onSent` is forwarded in the event, `handleConfirmed` is the hook, and the error toast carries no meta |
| LiquidityStore.LiquidityStore.HandleConfirmed | src/store/useLiquidityStore.ts:317-320 | the caller's `onConfirmed` runs first, then `newCreatedPool` is set to the created address |
| LiquidityStore.LiquidityStore.DeliverUpdates | src/store/useLiquidityStore.ts:379-392 | every status update of the run passes through `handleMultiTxRetry` on the shared registry, in delivery order, and is published right before its own toast update |
| LiquidityStore.LiquidityStore.MigrateToClmmAct | src/store/useLiquidityStore.ts:343-409 | publishes exactly the `MigrateRun` trace and settles with its outcome; the shared registry ends as every update routed through `handleMultiTxRetry` in order, and is unchanged when the guard fails or the build throws |

## Left out

- src/features/Clmm/components/ChartPriceLabel.tsx is pure UI rendering and is not modelled.
- The relay post (axios) and src/api/validateTxData.ts are network I/O. The post is only recorded in the `relayed` log, and its outcome never affects control flow, as in the source.
- The `retry`, `cancelRetry` and `idToIntervalRecord` helpers are not part of this model; their bodies are not available. The loop is modelled as at most `retryCount` attempts that stop when an attempt returns true. Interval and sleep appear only as configuration constants; no time passes in the model.
- RetryTx.CancelStep: does not model the effect of `cancelRetry` on the helper's timer. The loop stays in `loops` until its next attempt sees the done flag and stops without sending, so every send-related result is proved without relying on `cancelRetry`.
- Asynchronous interleaving is modelled as arbitrary sequential `Op` schedules. An attempt whose transport call is still in flight when the id is cancelled is not modelled separately.
- `retryTx` reads the connection from the app store on each call. The model passes it as a boolean and treats the connection captured by a running loop as always usable.
- SDK builders, `execute()`, `computePairAmount` internals, `TickUtils`, `PositionUtils`, `PositionInfoLayout.decode` and `getPdaPersonalPositionAddress` are library code. They appear only as outcomes or as function parameters.
- Decimal, `BN` and `Percent` amount arithmetic, `getPriceAndAmount`, `getTxMeta`, `formatLocaleStr`, `getMintSymbol`, the compute-budget and ephemeral-signer lookups, and the pool start time are not modelled. A status event records the id, the transaction and the forwarded callbacks. An error toast records only whether it carries the action's meta.
- The toast helpers (`getDefaultToastData`, `transformProcessData`, `handleMultiTxToast`) are opaque: a toast update is recorded with the status list it was given. The handler that receives the migration's callbacks is not modelled.
- The per-step status updates of the sequential `execute()` are a parameter. The SDK's ordering of steps is not modelled. The trace places every update before the promise settles; nothing in `migrateToClmmAct` itself prevents `onTxUpdate` from firing after `execute()` settles, and such late updates are not modelled.
- The conversions and lookups that run before the SDK is entered (`new Decimal` and `new BN` of the amounts, `getComputeBudgetConfig`, `getEphemeralSigners`) are not modelled separately: a throw from any of them counts as a build throw, and the trace still records the SDK event (`SdkCalled`, `MigrationRequested`) at its head.
- Callbacks are assumed to return normally. An `onSent` that throws inside `.then` would reach `.catch`; this is not modelled.
- `resetComputeStateAct` calls `set({})`, which changes no state; it is not modelled.
- `lastRefreshTag` is module-level, so every mounted instance of the hook shares it: after a tag change only the first instance whose effect runs calls its own `mutate`, and the others see the tag already stored. `RefreshGuard` models the one shared variable, and its `refetches` log does not record which instance's `mutate` ran.
- ClmmBalance.BalanceData: does not capture the key insertion order of the JavaScript `Map` it returns, because a Dafny map is unordered. The order of positions within each pool is captured.
- SWR fetching, caching, deduplication, `keepPreviousData`, loading flags and React memoisation are not modelled. The fetch result is a parameter. Keys past the end of the current key list, possible when stale data is kept, come out as an absent key.
- Token amounts are natural numbers; `amount.eq(new BN(1))` is equality with 1.
