/**
 * The whole controller of src/utils/use-async.ts as a pure transition system:
 * its record, the owner's liveness flag, the stored retry, the promises that
 * `run` has started and not yet settled, and the configuration. Every call a
 * caller can make, and every settlement of a started promise, is an event;
 * settlements may arrive in any order, which is how the model covers the
 * interleavings of the event loop without modelling concurrency.
 */
module AsyncMachine {
  import opened Wrappers
  import opened AsyncState

  /**
   * What `run` is handed. The guard `!promise || !promise.then` rejects a falsy
   * value and a value without `then`. A value whose `then` is truthy passes it;
   * either it is a promise (`Thenable`), or its `then` is not callable, so
   * calling it throws a TypeError before any handler is attached (`BadThen`).
   * A callable `then` whose result has no callable `catch` is not modelled.
   */
  datatype RunArg = Falsy | NoThen | BadThen | Thenable

  /** How a started promise settles. */
  datatype Outcome<D, E> = Fulfilled(value: D) | Rejected(reason: E)

  /** What a call gives back to its caller. */
  datatype Reply<D, E> =
    | Done                      // nothing: setData, setError, teardown, a retry with no recipe
    | InvalidArgument           // `run` threw at its guard
    | TypeError                 // `run` threw while chaining the handlers
    | Started(ticket: nat)      // `run` returned a pending promise, named by the ticket
    | ResolvedWith(value: D)    // that promise resolved with the data
    | ResolvedWithError(error: E)  // that promise resolved with the error (throwOnError off)
    | RejectedWith(error: E)    // that promise rejected with the error (throwOnError on)

  /**
   * The controller: the record, the mount flag, the recipe the stored retry
   * replays (`None`: the stored retry does nothing), the tickets of the promises
   * started and not yet settled, the next ticket, and the configured flag.
   */
  datatype Machine<D, E, R> = Machine(
    state: State<D, E>,
    alive: bool,
    retry: Option<R>,
    pending: set<nat>,
    nextTicket: nat,
    throwOnError: bool)

  /**
   * The calls: `setData`, `setError`, `run(promise, {retry})` (the recipe is
   * `None` when no `runConfig.retry` is given), the settlement of a started
   * promise, a call of the stored `retry` (with what the recipe returns this
   * time), and the owner's teardown.
   */
  datatype Event<D, E, R> =
    | SetData(data: D)
    | SetError(error: E)
    | Run(arg: RunArg, recipe: Option<R>)
    | Settle(ticket: nat, outcome: Outcome<D, E>)
    | Retry(produced: RunArg)
    | Teardown

  datatype Transition<D, E, R> = Transition(next: Machine<D, E, R>, reply: Reply<D, E>)

  /** Tickets already handed out are below the next one. */
  predicate Valid<D, E, R>(m: Machine<D, E, R>)
  {
    forall t :: t in m.pending ==> t < m.nextTicket
  }

  /** Only a started, unsettled promise can settle. */
  predicate Enabled<D, E, R>(m: Machine<D, E, R>, ev: Event<D, E, R>)
  {
    ev.Settle? ==> ev.ticket in m.pending
  }

  /** `useAsync(initialState, initialConfig)` on its first render. */
  function Init<D, E, R>(initialState: Option<Action<D, E>>, initialConfig: Option<ConfigOverride>): (m: Machine<D, E, R>)
    ensures Valid(m) && m.alive && m.retry.None? && m.pending == {}
    ensures m.state == InitialState(initialState)
    ensures m.throwOnError == EffectiveConfig(initialConfig).throwOnError
  {
    Machine(InitialState(initialState), true, None, {}, 0, EffectiveConfig(initialConfig).throwOnError)
  }

  function Dispatch<D, E, R>(m: Machine<D, E, R>, a: Action<D, E>): Machine<D, E, R>
  {
    m.(state := SafeDispatch(m.alive, m.state, a))
  }

  /**
   * `run(promise, runConfig)` up to its first suspension: the guard, the new
   * stored retry, the loading dispatch, and the pending promise it returns.
   */
  function StartRun<D, E, R>(m: Machine<D, E, R>, arg: RunArg, recipe: Option<R>): (r: Transition<D, E, R>)
    ensures r.reply.Started? <==> arg == Thenable
    ensures arg in {Falsy, NoThen} ==> r.next == m
    ensures r.next.alive == m.alive && r.next.throwOnError == m.throwOnError
    ensures m.pending <= r.next.pending
  {
    var m' := Dispatch(m.(retry := recipe), LoadingAction());
    match arg
    case Falsy => Transition(m, InvalidArgument)
    case NoThen => Transition(m, InvalidArgument)
    case BadThen => Transition(m', TypeError)
    case Thenable =>
      Transition(m'.(pending := m.pending + {m.nextTicket}, nextTicket := m.nextTicket + 1),
                 Started(m.nextTicket))
  }

  /** The `.then` and `.catch` handlers of a started promise. */
  function SettleRun<D, E, R>(m: Machine<D, E, R>, ticket: nat, outcome: Outcome<D, E>): (r: Transition<D, E, R>)
    ensures r.next.pending == m.pending - {ticket}
    ensures r.reply.RejectedWith? <==> outcome.Rejected? && m.throwOnError
    ensures r.next.retry == m.retry && r.next.alive == m.alive
  {
    var m' := m.(pending := m.pending - {ticket});
    match outcome
    case Fulfilled(d) =>
      Transition(Dispatch(m', SuccessAction(d)), ResolvedWith(d))
    case Rejected(e) =>
      Transition(Dispatch(m', ErrorAction(e)),
                 if m.throwOnError then RejectedWith(e) else ResolvedWithError(e))
  }

  function Step<D, E, R>(m: Machine<D, E, R>, ev: Event<D, E, R>): (r: Transition<D, E, R>)
    requires Enabled(m, ev)
    ensures r.next.throwOnError == m.throwOnError
    ensures r.next.alive <==> m.alive && !ev.Teardown?
    ensures !m.alive ==> r.next.state == m.state
  {
    match ev
    case SetData(d) => Transition(Dispatch(m, SuccessAction(d)), Done)
    case SetError(e) => Transition(Dispatch(m, ErrorAction(e)), Done)
    case Run(arg, recipe) => StartRun(m, arg, recipe)
    case Settle(ticket, outcome) => SettleRun(m, ticket, outcome)
    case Retry(produced) =>
      if m.retry.None? then Transition(m, Done) else StartRun(m, produced, m.retry)
    case Teardown => Transition(m.(alive := false), Done)
  }

  /** The events can happen one after another from `m`. */
  predicate Feasible<D, E, R>(m: Machine<D, E, R>, evs: seq<Event<D, E, R>>)
    decreases |evs|
  {
    evs == [] || (Enabled(m, evs[0]) && Feasible(Step(m, evs[0]).next, evs[1..]))
  }

  /** The controller after the events. */
  function Final<D, E, R>(m: Machine<D, E, R>, evs: seq<Event<D, E, R>>): Machine<D, E, R>
    requires Feasible(m, evs)
    decreases |evs|
  {
    if evs == [] then m else Final(Step(m, evs[0]).next, evs[1..])
  }

  // ---------------------------------------------------------------- single steps

  /** Every step keeps the tickets below the next one, and a new ticket was not pending before. */
  lemma StepValid<D, E, R>(m: Machine<D, E, R>, ev: Event<D, E, R>)
    requires Valid(m) && Enabled(m, ev)
    ensures Valid(Step(m, ev).next)
    ensures Step(m, ev).reply.Started? ==> Step(m, ev).reply.ticket !in m.pending
  {
  }

  /** Once the owner is gone, no step changes the record, and the owner stays gone. */
  lemma DeadStep<D, E, R>(m: Machine<D, E, R>, ev: Event<D, E, R>)
    requires !m.alive && Enabled(m, ev)
    ensures Step(m, ev).next.state == m.state
    ensures !Step(m, ev).next.alive
  {
  }

  /** Every step keeps a coherent record coherent. */
  lemma StepCoherent<D, E, R>(m: Machine<D, E, R>, ev: Event<D, E, R>)
    requires Coherent(m.state) && Enabled(m, ev)
    ensures Coherent(Step(m, ev).next.state)
  {
  }

  /** `setData(d)`: a live owner sees `success` with the data and no error; nothing else changes. */
  lemma SetDataStep<D, E, R>(m: Machine<D, E, R>, d: D)
    ensures Step(m, SetData(d)).reply == Done
    ensures Step(m, SetData(d)).next ==
              m.(state := if m.alive then State(Success, Some(d), None) else m.state)
  {
  }

  /** `setError(e)`: a live owner sees `error` with the error and no data; nothing else changes. */
  lemma SetErrorStep<D, E, R>(m: Machine<D, E, R>, e: E)
    ensures Step(m, SetError(e)).reply == Done
    ensures Step(m, SetError(e)).next ==
              m.(state := if m.alive then State(Error, None, Some(e)) else m.state)
  {
  }

  /**
   * `run` on a falsy or `then`-less value throws before doing anything: the
   * record, the stored retry and the pending promises are untouched, alive or not.
   */
  lemma RunRejectsNonThenable<D, E, R>(m: Machine<D, E, R>, arg: RunArg, recipe: Option<R>)
    requires arg == Falsy || arg == NoThen
    ensures Step(m, Run(arg, recipe)) == Transition(m, InvalidArgument)
  {
  }

  /**
   * A valid `run` replaces the stored retry, starts one fresh pending promise,
   * and (if alive) sets the status to loading while the previous data and error
   * stay in the record.
   */
  lemma RunStartsLoading<D, E, R>(m: Machine<D, E, R>, recipe: Option<R>)
    requires Valid(m)
    ensures m.nextTicket !in m.pending
    ensures Step(m, Run(Thenable, recipe)) ==
              Transition(m.(state := if m.alive then State(Loading, m.state.data, m.state.error) else m.state,
                            retry := recipe,
                            pending := m.pending + {m.nextTicket},
                            nextTicket := m.nextTicket + 1),
                         Started(m.nextTicket))
  {
  }

  /**
   * A value whose `then` is truthy but not callable passes the guard, so it
   * still replaces the stored retry and (if alive) sets loading before `run`
   * throws; no handler was attached and no promise is returned, so nothing is
   * pending and no settlement will leave loading.
   */
  lemma RunBadThen<D, E, R>(m: Machine<D, E, R>, recipe: Option<R>)
    ensures Step(m, Run(BadThen, recipe)) ==
              Transition(m.(state := if m.alive then State(Loading, m.state.data, m.state.error) else m.state,
                            retry := recipe),
                         TypeError)
  {
  }

  /**
   * A fulfilment resolves the promise with the data and (if alive) leaves the
   * record in `success`; a rejection resolves it with the error when
   * `throwOnError` is off and rejects it with the error when it is on, and (if
   * alive) leaves the record in `error`. Either way the promise is no longer pending.
   */
  lemma SettleStep<D, E, R>(m: Machine<D, E, R>, ticket: nat, outcome: Outcome<D, E>)
    requires ticket in m.pending
    ensures Step(m, Settle(ticket, outcome)) ==
              Transition(m.(state := if m.alive then SettledState(outcome) else m.state,
                            pending := m.pending - {ticket}),
                         match outcome
                         case Fulfilled(d) => ResolvedWith(d)
                         case Rejected(e) => if m.throwOnError then RejectedWith(e) else ResolvedWithError(e))
  {
  }

  /** The record a live settlement leaves behind. */
  function SettledState<D, E>(outcome: Outcome<D, E>): (s: State<D, E>)
    ensures Coherent(s)
    ensures outcome.Fulfilled? ==> s.stat == Success && s.data == Some(outcome.value)
    ensures outcome.Rejected? ==> s.stat == Error && s.error == Some(outcome.reason)
  {
    match outcome
    case Fulfilled(d) => State(Success, Some(d), None)
    case Rejected(e) => State(Error, None, Some(e))
  }

  /** Calling the stored retry when the last `run` had no recipe does nothing at all. */
  lemma RetryWithoutRecipe<D, E, R>(m: Machine<D, E, R>, produced: RunArg)
    requires m.retry.None?
    ensures Step(m, Retry(produced)) == Transition(m, Done)
  {
  }

  /**
   * Calling the stored retry when the last `run` had a recipe is a new `run` on
   * what the recipe returns, with the same recipe, which therefore stays stored.
   */
  lemma RetryReplaysRecipe<D, E, R>(m: Machine<D, E, R>, produced: RunArg)
    requires m.retry.Some?
    ensures Step(m, Retry(produced)) == Step(m, Run(produced, m.retry))
    ensures Step(m, Retry(produced)).next.retry == m.retry
  {
  }

  // ---------------------------------------------------------------- sequences of events

  /** Running `xs ++ ys` is running `xs` and then `ys`. */
  lemma {:induction false} FinalAppend<D, E, R>(m: Machine<D, E, R>, xs: seq<Event<D, E, R>>, ys: seq<Event<D, E, R>>)
    requires Feasible(m, xs + ys)
    ensures Feasible(m, xs)
    ensures Feasible(Final(m, xs), ys)
    ensures Final(m, xs + ys) == Final(Final(m, xs), ys)
    decreases |xs|
  {
    if xs == [] {
      assert xs + ys == ys;
    } else {
      assert (xs + ys)[0] == xs[0];
      assert (xs + ys)[1..] == xs[1..] + ys;
      FinalAppend(Step(m, xs[0]).next, xs[1..], ys);
    }
  }

  /** Once the owner is gone, no sequence of calls and settlements changes the record. */
  lemma {:induction false} NoWritesAfterTeardown<D, E, R>(m: Machine<D, E, R>, evs: seq<Event<D, E, R>>)
    requires !m.alive && Feasible(m, evs)
    ensures Final(m, evs).state == m.state
    ensures !Final(m, evs).alive
    decreases |evs|
  {
    if evs != [] {
      DeadStep(m, evs[0]);
      NoWritesAfterTeardown(Step(m, evs[0]).next, evs[1..]);
    }
  }

  /**
   * Whatever happens after a teardown, the record ends as it was at the
   * teardown, however late the pending promises settle.
   */
  lemma TeardownFreezesState<D, E, R>(m: Machine<D, E, R>, before: seq<Event<D, E, R>>, after: seq<Event<D, E, R>>)
    requires Feasible(m, before + [Teardown] + after)
    ensures Feasible(m, before + [Teardown])
    ensures Final(m, before + [Teardown] + after).state == Final(m, before + [Teardown]).state
  {
    FinalAppend(m, before + [Teardown], after);
    FinalAppend(m, before, [Teardown]);
    var m1 := Final(m, before);
    var tail: seq<Event<D, E, R>> := [Teardown];
    assert tail[1..] == [];
    assert Final(m1, [Teardown]) == Final(Step(m1, Teardown).next, []);
    NoWritesAfterTeardown(Final(m, before + [Teardown]), after);
  }

  /** A coherent record stays coherent through any sequence of events. */
  lemma {:induction false} CoherentThroughout<D, E, R>(m: Machine<D, E, R>, evs: seq<Event<D, E, R>>)
    requires Coherent(m.state) && Feasible(m, evs)
    ensures Coherent(Final(m, evs).state)
    decreases |evs|
  {
    if evs != [] {
      StepCoherent(m, evs[0]);
      CoherentThroughout(Step(m, evs[0]).next, evs[1..]);
    }
  }

  /** The tickets stay below the next one through any sequence of events. */
  lemma {:induction false} ValidThroughout<D, E, R>(m: Machine<D, E, R>, evs: seq<Event<D, E, R>>)
    requires Valid(m) && Feasible(m, evs)
    ensures Valid(Final(m, evs))
    decreases |evs|
  {
    if evs != [] {
      StepValid(m, evs[0]);
      ValidThroughout(Step(m, evs[0]).next, evs[1..]);
    }
  }

  /**
   * Two promises settling one after the other, in whichever order they were
   * started: the later settlement decides the record, the earlier is overwritten.
   */
  lemma LastSettlementWins<D, E, R>(m: Machine<D, E, R>, t1: nat, o1: Outcome<D, E>, t2: nat, o2: Outcome<D, E>)
    requires m.alive && t1 in m.pending && t2 in m.pending && t1 != t2
    ensures Feasible(m, [Settle(t1, o1), Settle(t2, o2)])
    ensures Final(m, [Settle(t1, o1), Settle(t2, o2)]).state == SettledState(o2)
  {
    var m1 := Step(m, Settle(t1, o1)).next;
    assert t2 in m1.pending;
    var evs := [Settle(t1, o1), Settle(t2, o2)];
    assert evs[1..] == [Settle(t2, o2)];
    assert evs[1..][1..] == [];
    assert Final(m, evs) == Final(m1, evs[1..]);
    assert Final(m1, evs[1..]) == Final(Step(m1, Settle(t2, o2)).next, []);
  }

  /**
   * The record does not keep the stronger invariant `Exclusive`: after `setData(d)`
   * a new `run` is loading while the old data is still in the record.
   */
  lemma LoadingKeepsStaleData<D, E, R>(d: D)
    ensures var evs: seq<Event<D, E, R>> := [SetData(d), Run(Thenable, None)];
            && Feasible(Init<D, E, R>(None, None), evs)
            && Final(Init<D, E, R>(None, None), evs).state == State(Loading, Some(d), None)
            && !Exclusive(Final(Init<D, E, R>(None, None), evs).state)
  {
    var m0 := Init<D, E, R>(None, None);
    var evs: seq<Event<D, E, R>> := [SetData(d), Run(Thenable, None)];
    var m1 := Step(m0, evs[0]).next;
    assert evs[1..] == [Run(Thenable, None)];
    assert evs[1..][1..] == [];
    assert Final(m0, evs) == Final(m1, evs[1..]);
  }
}
