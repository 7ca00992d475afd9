/**
 * React's `useReducer` hook as the pages use it: a state record, a pure
 * reducer `(state, action) -> state` that may throw, and `dispatch`, which
 * replaces the state with the reducer's result. A throwing reducer takes the
 * component down; after that no dispatch has any effect.
 */
module ReducerStore {
  import opened JsValues

  /** The outcome of dispatching `actions` in order from `s`: the first throw stops the run. */
  function Run<S, A>(reduce: (S, A) -> Result<S>, s: S, actions: seq<A>): (r: Result<S>)
    ensures actions == [] ==> r == Ok(s)
    ensures |actions| == 1 ==> r == reduce(s, actions[0])
    decreases |actions|
  {
    if actions == [] then Ok(s)
    else
      match reduce(s, actions[0])
      case Thrown(e) => Thrown(e)
      case Ok(next) => Run(reduce, next, actions[1..])
  }

  /** Continuing an outcome with more actions; a thrown outcome stays thrown. */
  function Continue<S, A>(reduce: (S, A) -> Result<S>, current: Result<S>, actions: seq<A>): (r: Result<S>)
    ensures current.Thrown? ==> r == current
  {
    match current
    case Thrown(e) => Thrown(e)
    case Ok(s) => Run(reduce, s, actions)
  }

  /** Dispatching `a` and then `b` is dispatching `a + b`. */
  lemma {:induction false} RunAppend<S, A>(reduce: (S, A) -> Result<S>, s: S, a: seq<A>, b: seq<A>)
    ensures Run(reduce, s, a + b) == Continue(reduce, Run(reduce, s, a), b)
    decreases |a|
  {
    if a != [] {
      assert (a + b)[0] == a[0];
      assert (a + b)[1..] == a[1..] + b;
      match reduce(s, a[0])
      case Thrown(e) =>
      case Ok(next) => RunAppend(reduce, next, a[1..], b);
    } else {
      assert a + b == b;
    }
  }

  /** A component's reducer state: `const [state, dispatch] = useReducer(reducer, initialState)`. */
  class Store<S, A> {
    const reduce: (S, A) -> Result<S>
    /** The current state, or the error the reducer threw. */
    var current: Result<S>

    constructor (reduce: (S, A) -> Result<S>, initial: S)
      ensures this.reduce == reduce && current == Ok(initial)
    {
      this.reduce := reduce;
      current := Ok(initial);
    }

    /** `dispatch(action)`. */
    method Dispatch(action: A)
      modifies this
      ensures current == Continue(reduce, old(current), [action])
    {
      match current
      case Thrown(_) =>
      case Ok(s) => current := reduce(s, action);
    }

    /** The dispatches that an event handler, effect or timer callback issues, in order. */
    method DispatchAll(actions: seq<A>)
      modifies this
      ensures current == Continue(reduce, old(current), actions)
    {
      var i := 0;
      while i < |actions|
        invariant 0 <= i <= |actions|
        invariant current == Continue(reduce, old(current), actions[..i])
      {
        Dispatch(actions[i]);
        assert actions[..i + 1] == actions[..i] + [actions[i]];
        if old(current).Ok? {
          RunAppend(reduce, old(current).value, actions[..i], [actions[i]]);
        }
        i := i + 1;
      }
      assert actions[..i] == actions;
    }
  }
}
