/**
 * The hook `useAsync` of src/utils/use-async.ts as an object: the record that
 * `useReducer` holds becomes three fields, the mount ref one boolean, the
 * `retry` state cell the recipe it replays, and the promises `run` has
 * returned a set of tickets. Each method is proved to make exactly the step
 * AsyncMachine.Step describes, so every property proved there holds of it.
 */
module UseAsync {
  import opened Wrappers
  import opened AsyncState
  import M = AsyncMachine

  class AsyncController<D, E, R> {
    var stat: Status
    var data: Option<D>
    var error: Option<E>
    /** The mount ref of the owning component: true from creation until teardown. */
    var alive: bool
    /** The recipe the stored `retry` replays; `None` when it does nothing. */
    var retryRecipe: Option<R>
    var pending: set<nat>
    var nextTicket: nat
    const throwOnError: bool

    function Record(): State<D, E>
      reads this
    {
      State(stat, data, error)
    }

    function Snapshot(): M.Machine<D, E, R>
      reads this
    {
      M.Machine(Record(), alive, retryRecipe, pending, nextTicket, throwOnError)
    }

    /** The first render: the effective initial record and configuration, alive, no retry. */
    constructor (initialState: Option<Action<D, E>>, initialConfig: Option<ConfigOverride>)
      ensures Snapshot() == M.Init(initialState, initialConfig)
    {
      var s := InitialState(initialState);
      stat, data, error := s.stat, s.data, s.error;
      alive := true;
      retryRecipe := None;
      pending := {};
      nextTicket := 0;
      throwOnError := EffectiveConfig(initialConfig).throwOnError;
    }

    /** The derived `isIdle`, `isLoading`, `isError`, `isSuccess`. */
    function Flags(): (f: AsyncState.Flags)
      reads this
      ensures ExactlyOne(f)
      ensures f.isLoading <==> stat == Loading
    {
      FlagsOf(Record())
    }

    /**
     * `safeDispatch(action)`: while alive, each field the action names is
     * overwritten and the others stay; after teardown nothing happens.
     */
    method SafeDispatch(a: Action<D, E>)
      modifies `stat, `data, `error
      ensures Record() == AsyncState.SafeDispatch(old(alive), old(Record()), a)
    {
      if alive {
        if a.stat.Some? { stat := a.stat.value; }
        if a.data.Some? { data := a.data.value; }
        if a.error.Some? { error := a.error.value; }
      }
    }

    method SetData(d: D)
      modifies `stat, `data, `error
      ensures Snapshot() == M.Step(old(Snapshot()), M.SetData(d)).next
    {
      SafeDispatch(SuccessAction(d));
    }

    method SetError(e: E)
      modifies `stat, `data, `error
      ensures Snapshot() == M.Step(old(Snapshot()), M.SetError(e)).next
    {
      SafeDispatch(ErrorAction(e));
    }

    /**
     * `run(promise, runConfig)` up to its first suspension: throws on a falsy or
     * `then`-less value; otherwise stores the retry and dispatches loading, then
     * throws if the handlers cannot be chained, or returns the ticket of the
     * promise it hands back.
     */
    method Run(arg: M.RunArg, recipe: Option<R>) returns (reply: M.Reply<D, E>)
      modifies this
      ensures M.Transition(Snapshot(), reply) == M.Step(old(Snapshot()), M.Run(arg, recipe))
    {
      if arg == M.Falsy || arg == M.NoThen {
        return M.InvalidArgument;
      }
      retryRecipe := recipe;
      SafeDispatch(LoadingAction());
      if arg == M.BadThen {
        return M.TypeError;
      }
      reply := M.Started(nextTicket);
      pending := pending + {nextTicket};
      nextTicket := nextTicket + 1;
    }

    /** The handlers of the promise `run` returned under `ticket`, when it settles. */
    method Settle(ticket: nat, outcome: M.Outcome<D, E>) returns (reply: M.Reply<D, E>)
      requires ticket in pending
      modifies this
      ensures M.Transition(Snapshot(), reply) == M.Step(old(Snapshot()), M.Settle(ticket, outcome))
    {
      pending := pending - {ticket};
      match outcome
      case Fulfilled(d) =>
        SetData(d);
        reply := M.ResolvedWith(d);
      case Rejected(e) =>
        SetError(e);
        if throwOnError {
          reply := M.RejectedWith(e);
        } else {
          reply := M.ResolvedWithError(e);
        }
    }

    /** The stored `retry()`: `produced` is what the recipe returns on this call. */
    method Retry(produced: M.RunArg) returns (reply: M.Reply<D, E>)
      modifies this
      ensures M.Transition(Snapshot(), reply) == M.Step(old(Snapshot()), M.Retry(produced))
    {
      if retryRecipe.Some? {
        reply := Run(produced, retryRecipe);
      } else {
        reply := M.Done;
      }
    }

    /** The owner unmounts; the mount ref stays false from then on. */
    method Teardown()
      modifies `alive
      ensures Snapshot() == M.Step(old(Snapshot()), M.Teardown).next
    {
      alive := false;
    }
  }

  /**
   * A caller's view: after teardown neither late settlements nor new calls
   * change the record the controller exposes.
   */
  method LateSettlementAfterTeardown<D, E, R>(d: D, e: E) returns (c: AsyncController<D, E, R>)
    ensures c.Record() == State(Loading, None, None)
    ensures !c.alive && c.pending == {}
  {
    c := new AsyncController(None, None);
    var started := c.Run(M.Thenable, None);
    c.Teardown();
    var settled := c.Settle(0, M.Fulfilled(d));
    c.SetError(e);
  }
}
