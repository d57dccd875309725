# useAsync: a verified model of the asynchronous request-lifecycle controller

This project models `useAsync` from `src/utils/use-async.ts`, the controller that a
screen uses to follow one asynchronous request. It has four parts:

- **The record `{stat, data, error}`.** `stat` is one of `idle`, `loading`, `error` and `success`.
- **The reducer.** It shallow-merges a partial action onto the record.
- **`safeDispatch`.** It drops every write once the owning component is unmounted.
- **The operations `setData`, `setError`, `run` and the stored `retry`, and the derived flags `isIdle`, `isLoading`, `isError` and `isSuccess`.**

The model has three layers.

- `AsyncState` (`async_state.dfy`) holds the pure parts. These are the record, partial actions,
  the reducer `Merge`, the liveness gate `SafeDispatch`, the merges that produce the effective
  initial record and configuration, and the flags.
- `AsyncMachine` (`async_machine.dfy`) describes the whole controller as a transition system.
  Its state is the record, the mount flag, the stored retry recipe, the started-but-unsettled
  promises (named by tickets) and `throwOnError`. Each call and each settlement is an event,
  and settlements may come in any order. Lemmas over single steps and over whole event
  sequences state what the source promises.
- `UseAsync` (`use_async.dfy`) holds the class `AsyncController`. Its fields are the reducer's
  record, the retry cell, the mount ref, the configured flag, and the tickets the model adds
  for the promises `run` has returned. Each method is proved to take exactly the step that
  `AsyncMachine.Step` describes, so the lemmas about the machine hold of the class.

Where the record's expected meaning and the code differ, the code is followed:

- **Loading keeps old data and error.** The loading dispatch names only `stat`, and the reducer
  merges, so the previous `data` and `error` stay in the record while loading.
  `AsyncMachine.LoadingKeepsStaleData` exhibits this. The stronger invariant `Exclusive` (idle
  and loading hold neither data nor error) is not kept. What the controller's own writes do
  keep is `Coherent`: a success holds data and no error, and an error holds an error and no data (a written
  `null` counts as present; see "Left out").
- **The initial record is not checked.** The caller's record is merged over the defaults, so
  it can be inconsistent (`AsyncState.InitialStateUnchecked`).
- **The retry cell is written outside `safeDispatch`.** It is a plain React state cell. The model
  does not gate it: after teardown a valid `Run` still replaces the recipe. React would discard
  that update (see "Left out").
- **A truthy but non-callable `then` passes the guard.** The guard at line 54 only checks that
  `then` is truthy. Calling it at line 64 then throws a TypeError, after the retry has been
  replaced and `loading` dispatched. No handler was attached and no promise is returned, so the
  record stays in `loading` (`AsyncMachine.RunBadThen`).

## Model

| member | source | states |
|---|---|---|
| `AsyncState.Merge` | src/utils/use-async.ts:28 | each field the action names takes the action's value; every field it does not name keeps its old value |
| `AsyncState.SafeDispatch` | src/utils/use-async.ts:19-23 | the gate: the reducer runs only while the owner is alive (its laws: `DeadDispatchIsNoOp`, `AsyncMachine.Step`) |
| `AsyncState.LoadingAction` | src/utils/use-async.ts:63 | the loading action names `stat` only |
| `AsyncState.SuccessAction` | src/utils/use-async.ts:39-43 | the `setData` action names all three fields: `success`, the data, a null error |
| `AsyncState.ErrorAction` | src/utils/use-async.ts:45-49 | the `setError` action names all three fields: `error`, the error, null data |
| `AsyncState.DefaultInitialState` | src/utils/use-async.ts:9-13 | the default record: `idle`, null data, null error |
| `AsyncState.DefaultConfig` | src/utils/use-async.ts:15-17 | the default configuration: `throwOnError` off |
| `AsyncState.DeadDispatchIsNoOp` | src/utils/use-async.ts:19-23 | when the owner is not alive, a dispatch leaves the record unchanged |
| `AsyncState.MergeWhole` | src/utils/use-async.ts:28 | an action naming all three fields replaces the record, whatever it held |
| `AsyncState.MergeEmpty` | src/utils/use-async.ts:28 | an action naming no field changes nothing |
| `AsyncState.MergeTwice` | src/utils/use-async.ts:28 | two dispatches in a row equal one dispatch of the merged action |
| `AsyncState.MergeIdempotent` | src/utils/use-async.ts:28 | dispatching the same action twice equals dispatching it once |
| `AsyncState.InitialState` | src/utils/use-async.ts:9-13 | with no caller state the record starts `idle` with null data and error; otherwise the caller's fields are merged over those defaults |
| `AsyncState.InitialStateIsCallers` | src/utils/use-async.ts:29-32 | a complete caller record is taken as given |
| `AsyncState.InitialStateUnchecked` | src/utils/use-async.ts:29-32 | the caller's record is not validated: a `success` without data, or an `idle` holding data, passes through |
| `AsyncState.DefaultInitialStateExclusive` | src/utils/use-async.ts:9-13 | the default initial record holds neither data nor error |
| `AsyncState.EffectiveConfig` | src/utils/use-async.ts:15-17 | `throwOnError` is on exactly when the caller passes `true`; with no config it is the default `false` |
| `AsyncState.FlagsOf` | src/utils/use-async.ts:86-89 | each flag is true exactly when `stat` has its value, and exactly one flag is true |
| `AsyncState.ControllerActionsCoherent` | src/utils/use-async.ts:39-49 | the loading, success and error actions each yield a coherent record from any record |
| `AsyncMachine.Init` | src/utils/use-async.ts:25-37 | a new controller is alive, has a no-op retry and no pending promise, and holds the effective initial record and flag |
| `AsyncMachine.StartRun` | src/utils/use-async.ts:52-64 | a promise is started exactly for a thenable; a falsy or `then`-less value leaves the controller untouched; liveness, config and pending promises are kept |
| `AsyncMachine.SettleRun` | src/utils/use-async.ts:64-79 | the settled promise is no longer pending; the reply is a rejection exactly for a rejected promise with `throwOnError` on; retry and liveness are kept |
| `AsyncMachine.Step` | src/utils/use-async.ts:19-81 | no event changes the configuration; the owner is alive after a step exactly when it was alive and the event is not a teardown; a dead owner's record is never changed |
| `AsyncMachine.StepValid` | src/utils/use-async.ts:52-64 | every step keeps the pending tickets below the next ticket, and a started promise gets a fresh ticket |
| `AsyncMachine.DeadStep` | src/utils/use-async.ts:19-23 | once the owner is gone, no call or settlement changes the record, and the owner stays gone |
| `AsyncMachine.StepCoherent` | src/utils/use-async.ts:39-79 | every call and settlement keeps a coherent record coherent |
| `AsyncMachine.SetDataStep` | src/utils/use-async.ts:39-43 | `setData(d)` gives `success`, data `d`, null error when alive, and changes nothing else |
| `AsyncMachine.SetErrorStep` | src/utils/use-async.ts:45-49 | `setError(e)` gives `error`, error `e`, null data when alive, and changes nothing else |
| `AsyncMachine.RunRejectsNonThenable` | src/utils/use-async.ts:54-56 | `run` on a falsy or `then`-less value throws, and the record, retry and pending promises are untouched, alive or not |
| `AsyncMachine.RunStartsLoading` | src/utils/use-async.ts:57-63 | gives the whole next controller for a promise: its recipe becomes the retry and a fresh ticket is pending; when alive the record becomes `loading` with the old data and error kept; nothing else changes |
| `AsyncMachine.RunBadThen` | src/utils/use-async.ts:54-64 | a value whose `then` is truthy but not callable passes the guard: the retry is replaced and, when alive, `loading` is set before `run` throws a TypeError; no promise becomes pending |
| `AsyncMachine.SettleStep` | src/utils/use-async.ts:64-79 | gives the whole next controller: the ticket leaves the pending set and a live record becomes the settled one; fulfilment resolves with the data; rejection resolves with the error if `throwOnError` is off, else rejects with it; nothing else changes |
| `AsyncMachine.SettledState` | src/utils/use-async.ts:64-72 | a live fulfilment leaves `success` with the data, a live rejection `error` with the reason; both coherent |
| `AsyncMachine.RetryWithoutRecipe` | src/utils/use-async.ts:37 | calling the stored retry when the last `run` had no recipe changes nothing and starts no promise |
| `AsyncMachine.RetryReplaysRecipe` | src/utils/use-async.ts:57-62 | with a recipe, the retry is a new `run` on what the recipe returns with the same recipe, which stays stored |
| `AsyncMachine.NoWritesAfterTeardown` | src/utils/use-async.ts:19-23 | from a torn-down owner, no sequence of calls and settlements changes the record |
| `AsyncMachine.TeardownFreezesState` | src/utils/use-async.ts:19-23 | the final record equals the record at teardown, however late pending promises settle |
| `AsyncMachine.CoherentThroughout` | src/utils/use-async.ts:39-79 | a coherent record stays coherent through any sequence of events |
| `AsyncMachine.LastSettlementWins` | src/utils/use-async.ts:64-72 | of two promises settling one after the other, the later settlement decides the record, whatever order they were started in |
| `AsyncMachine.LoadingKeepsStaleData` | src/utils/use-async.ts:63 | after `setData(d)` a new `run` is `loading` with data `d` still in the record |
| `UseAsync.AsyncController.constructor` | src/utils/use-async.ts:25-37 | the object starts as the controller of `AsyncMachine.Init` |
| `UseAsync.AsyncController.Flags` | src/utils/use-async.ts:86-89 | exactly one of the four flags holds; `isLoading` is true exactly in `loading` |
| `UseAsync.AsyncController.SafeDispatch` | src/utils/use-async.ts:19-23 | alive, it overwrites the named fields and keeps the rest; otherwise it does nothing |
| `UseAsync.AsyncController.SetData` | src/utils/use-async.ts:39-43 | makes the `setData` step of the machine |
| `UseAsync.AsyncController.SetError` | src/utils/use-async.ts:45-49 | makes the `setError` step of the machine |
| `UseAsync.AsyncController.Run` | src/utils/use-async.ts:52-64 | makes the `run` step: the guard, the new retry, the loading dispatch, then a TypeError or a new pending promise |
| `UseAsync.AsyncController.Settle` | src/utils/use-async.ts:64-79 | makes the settlement step: the success or error dispatch, and the reply chosen by `throwOnError` |
| `UseAsync.AsyncController.Retry` | src/utils/use-async.ts:57-62 | makes the retry step: nothing without a recipe, a new `run` with it |
| `UseAsync.AsyncController.Teardown` | src/utils/use-async.ts:20-22 | the mount flag becomes false and nothing else changes |
| `UseAsync.LateSettlementAfterTeardown` | src/utils/use-async.ts:19-23 | a promise that settles after teardown, and a later `setError`, leave the `loading` record as it was |

## Left out

- React mechanics (`useReducer`, `useState`, `useCallback`, re-rendering, closure identity): replaced by fields and methods. The configuration is fixed when the controller is created; a different `initialConfig` on a later render is not modelled.
- `useMountRef` comes from `src/utils/index.ts`, which is not part of this model. It is modelled as the field `alive`: true at creation, set false once by `Teardown`.
- React discards a state update on an unmounted component. The model does not capture that for the retry cell: after teardown a valid `run` still replaces the stored recipe. The record itself is gated exactly as `safeDispatch` gates it.
- Real promises and the event loop: a started promise is a ticket, and its settlement is an explicit `Settle` event that may come in any order. There is no cancellation, as in the source.
- The retry closure drops the promise that its inner `run` returns. The model still reports that promise's ticket so that its settlement can be fed in later.
- The recipe is an opaque value. What it returns on a call is a parameter of `Retry`.
- AsyncMachine.RunBadThen: covers only a `then` that is not callable. A callable `then` whose result has no callable `catch` is not modelled. Line 64 calls that `then` with the fulfilment handler, which may run `setData` at once or later, before or after line 70 throws a TypeError. The model has no step for a handler running without a promise to settle.
- JavaScript values: the argument of `run` is modelled only by which branch it takes: rejected by the guard, a truthy but non-callable `then`, or a promise. `null` is `None`. A `null` or `undefined` passed as data to `setData`, or as a rejection reason, is not told apart from a present value. A `throwOnError: undefined` behaves like `false`, which is also how the source treats it.
- The `console.log` at src/utils/use-async.ts:74: a debug print with no effect on behaviour.
- src/utils/project.ts: thin wrappers over an external query library and an HTTP client. The optimistic add/edit/delete logic lives in `use-optimistic-options`, which is not part of this model.
- src/screens/project-list/index.tsx and src/index.tsx: rendering and application start-up.
