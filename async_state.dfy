/**
 * The state record of the asynchronous request-lifecycle controller, the reducer
 * that updates it, the liveness gate in front of the reducer, the merges that
 * produce the effective initial state and configuration, and the derived flags
 * (src/utils/use-async.ts).
 */
module AsyncState {
  import opened Wrappers

  /** The lifecycle status, the field `stat` of the source's record. */
  datatype Status = Idle | Loading | Error | Success

  /** The record `{stat, data, error}`; `None` stands for `null`. */
  datatype State<D, E> = State(stat: Status, data: Option<D>, error: Option<E>)

  /**
   * A `Partial<State<D>>`: a field is `None` when the action does not name it,
   * and `Some(v)` when it names it with value `v` (which may itself be `null`).
   */
  datatype Action<D, E> = Action(stat: Option<Status>, data: Option<Option<D>>, error: Option<Option<E>>)

  /** The value a spread `{...current, ...given}` leaves in one field. */
  function Override<T>(current: T, given: Option<T>): T
  {
    if given.Some? then given.value else current
  }

  /**
   * The reducer `(state, action) => ({...state, ...action})`: every field the
   * action names takes the action's value, every other field keeps its value.
   */
  function Merge<D, E>(s: State<D, E>, a: Action<D, E>): (r: State<D, E>)
    ensures a.stat.Some? ==> r.stat == a.stat.value
    ensures a.stat.None? ==> r.stat == s.stat
    ensures a.data.Some? ==> r.data == a.data.value
    ensures a.data.None? ==> r.data == s.data
    ensures a.error.Some? ==> r.error == a.error.value
    ensures a.error.None? ==> r.error == s.error
  {
    State(Override(s.stat, a.stat), Override(s.data, a.data), Override(s.error, a.error))
  }

  /** The action that names every field of `s`, with the value `s` gives it. */
  function Whole<D, E>(s: State<D, E>): Action<D, E>
  {
    Action(Some(s.stat), Some(s.data), Some(s.error))
  }

  /** The action that names no field. */
  function Empty<D, E>(): Action<D, E>
  {
    Action(None, None, None)
  }

  /** `{ stat: 'loading' }`: names the status only. */
  function LoadingAction<D, E>(): Action<D, E>
  {
    Action(Some(Loading), None, None)
  }

  /** The action of `setData(d)`: `{ data, stat: 'success', error: null }`. */
  function SuccessAction<D, E>(d: D): Action<D, E>
  {
    Whole(State(Success, Some(d), None))
  }

  /** The action of `setError(e)`: `{ error, stat: 'error', data: null }`. */
  function ErrorAction<D, E>(e: E): Action<D, E>
  {
    Whole(State(Error, None, Some(e)))
  }

  /** The gate of `useSafeDispatch`: the reducer runs only while the owner is alive. */
  function SafeDispatch<D, E>(alive: bool, s: State<D, E>, a: Action<D, E>): State<D, E>
  {
    if alive then Merge(s, a) else s
  }

  /** While the owner is not alive, any dispatch leaves the state as it was. */
  lemma DeadDispatchIsNoOp<D, E>(s: State<D, E>, a: Action<D, E>)
    ensures SafeDispatch(false, s, a) == s
  {
  }

  /** An action that names every field replaces the whole state, whatever it was. */
  lemma MergeWhole<D, E>(s: State<D, E>, t: State<D, E>)
    ensures Merge(s, Whole(t)) == t
  {
  }

  /** The action that names nothing changes nothing. */
  lemma MergeEmpty<D, E>(s: State<D, E>)
    ensures Merge(s, Empty()) == s
  {
  }

  /** The later of two actions wins on each field; a field neither names is untouched. */
  function Then<D, E>(a: Action<D, E>, b: Action<D, E>): Action<D, E>
  {
    Action(if b.stat.Some? then b.stat else a.stat,
           if b.data.Some? then b.data else a.data,
           if b.error.Some? then b.error else a.error)
  }

  /** Two dispatches in a row amount to one dispatch of the two actions merged. */
  lemma MergeTwice<D, E>(s: State<D, E>, a: Action<D, E>, b: Action<D, E>)
    ensures Merge(Merge(s, a), b) == Merge(s, Then(a, b))
  {
  }

  /** Dispatching the same action twice is the same as dispatching it once. */
  lemma MergeIdempotent<D, E>(s: State<D, E>, a: Action<D, E>)
    ensures Merge(Merge(s, a), a) == Merge(s, a)
  {
  }

  /** `defaultInitialState`. */
  function DefaultInitialState<D, E>(): State<D, E>
  {
    State(Idle, None, None)
  }

  /**
   * `{...defaultInitialState, ...initialState}`: the caller's fields override the
   * defaults, and the defaults fill every field the caller leaves out.
   */
  function InitialState<D, E>(initialState: Option<Action<D, E>>): (s: State<D, E>)
    ensures initialState.None? ==> s == State(Idle, None, None)
    ensures initialState.Some? ==> s == Merge(DefaultInitialState(), initialState.value)
  {
    match initialState
    case None => DefaultInitialState()
    case Some(given) => Merge(DefaultInitialState(), given)
  }

  /** A full record passed by the caller is taken as it is, without any check. */
  lemma InitialStateIsCallers<D, E>(t: State<D, E>)
    ensures InitialState(Some(Whole(t))) == t
  {
  }

  /** The configuration the controller reads: `{ throwOnError }`. */
  datatype Config = Config(throwOnError: bool)

  /** `defaultConfig`. */
  function DefaultConfig(): Config
  {
    Config(false)
  }

  /** What the caller may pass as `initialConfig`: the flag, or nothing. */
  datatype ConfigOverride = ConfigOverride(throwOnError: Option<bool>)

  /** `{...defaultConfig, ...initialConfig}`. */
  function EffectiveConfig(initialConfig: Option<ConfigOverride>): (c: Config)
    ensures c.throwOnError <==>
              initialConfig.Some? && initialConfig.value.throwOnError == Some(true)
    ensures initialConfig.None? ==> c == DefaultConfig()
  {
    match initialConfig
    case None => DefaultConfig()
    case Some(given) => Config(Override(DefaultConfig().throwOnError, given.throwOnError))
  }

  /** The four derived booleans of the hook's result. */
  datatype Flags = Flags(isIdle: bool, isLoading: bool, isError: bool, isSuccess: bool)

  function Count(b: bool): nat { if b then 1 else 0 }

  predicate ExactlyOne(f: Flags)
  {
    Count(f.isIdle) + Count(f.isLoading) + Count(f.isError) + Count(f.isSuccess) == 1
  }

  /** `isIdle`, `isLoading`, `isError`, `isSuccess`: each tests the status; exactly one holds. */
  function FlagsOf<D, E>(s: State<D, E>): (f: Flags)
    ensures f.isIdle <==> s.stat == Idle
    ensures f.isLoading <==> s.stat == Loading
    ensures f.isError <==> s.stat == Error
    ensures f.isSuccess <==> s.stat == Success
    ensures ExactlyOne(f)
  {
    Flags(s.stat == Idle, s.stat == Loading, s.stat == Error, s.stat == Success)
  }

  /**
   * The part of the record's intended invariant that the controller's own writes
   * keep: a success carries data and no error, an error carries an error and no data
   * (a written `null` counts as present: the model does not tell it apart).
   */
  predicate Coherent<D, E>(s: State<D, E>)
  {
    && (s.stat == Success ==> s.data.Some? && s.error.None?)
    && (s.stat == Error ==> s.error.Some? && s.data.None?)
  }

  /**
   * The stronger invariant one might expect of the record: idle and loading carry
   * neither data nor error. The controller does not keep it (see
   * AsyncMachine.LoadingKeepsStaleData).
   */
  predicate Exclusive<D, E>(s: State<D, E>)
  {
    && Coherent(s)
    && (s.stat in {Idle, Loading} ==> s.data.None? && s.error.None?)
  }

  /** Each of the three actions the controller dispatches yields a coherent record, from any record. */
  lemma ControllerActionsCoherent<D, E>(s: State<D, E>, d: D, e: E)
    ensures Coherent(Merge(s, LoadingAction()))
    ensures Coherent(Merge(s, SuccessAction(d)))
    ensures Coherent(Merge(s, ErrorAction(e)))
  {
  }

  /**
   * The caller's initial record is not checked: a success without data passes
   * through as it is, and so does an idle record that already holds data.
   */
  lemma InitialStateUnchecked<D, E>(d: D)
    ensures !Coherent(InitialState<D, E>(Some(Action(Some(Success), None, None))))
    ensures !Exclusive(InitialState<D, E>(Some(Action(None, Some(Some(d)), None))))
  {
  }

  /** The default initial record satisfies even the stronger invariant. */
  lemma DefaultInitialStateExclusive<D, E>()
    ensures Exclusive(InitialState<D, E>(None))
  {
  }
}
