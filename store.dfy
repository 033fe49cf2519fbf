/**
 * `createStore(reducer)`: holds the current state and the registered
 * listeners. Listeners are opaque handles; what calling one does is outside
 * the model, so the store keeps a log of the calls it makes, oldest first.
 */
module Stores {
  import opened Wrappers
  import opened Sequences

  /** A registered callback, compared by identity as `l !== listener` does. */
  type Listener = nat

  /**
   * `listeners.filter(l => l !== listener)`: removes every registration of
   * `listener` and keeps the others, in order and with their multiplicity.
   */
  function Without(listeners: seq<Listener>, listener: Listener): (r: seq<Listener>)
    ensures listener !in r
    ensures forall l :: l != listener ==> multiset(r)[l] == multiset(listeners)[l]
    ensures IsSubsequence(r, listeners)
  {
    var keep := (l: Listener) => l != listener;
    FilterIsSubsequence(listeners, keep);
    Filter(listeners, keep)
  }

  /** Unsubscribing again after the first time changes nothing. */
  lemma WithoutIdempotent(listeners: seq<Listener>, listener: Listener)
    ensures Without(Without(listeners, listener), listener) == Without(listeners, listener)
  {
    var once := Without(listeners, listener);
    FilterKeepsAll(once, (l: Listener) => l != listener);
  }

  class Store<S, A> {
    const reducer: (Option<S>, A) -> S
    /** `let state;`: absent until the first dispatch. */
    var state: Option<S>
    /** `let listeners = [];` in subscription order. */
    var listeners: seq<Listener>
    /**
     * Every listener call made so far, oldest first, each with the state
     * that `getState()` returns during that call.
     */
    var calls: seq<(Listener, Option<S>)>

    /** `createStore(reducer)`, which ends with `dispatch({})`; `init` is that empty action. */
    constructor (reducer: (Option<S>, A) -> S, init: A)
      ensures this.reducer == reducer
      ensures state == Some(reducer(None, init))
      ensures listeners == [] && calls == []
    {
      this.reducer := reducer;
      state := None;
      listeners := [];
      calls := [];
      new;
      Dispatch(init);
    }

    /** `getState()` */
    method GetState() returns (s: Option<S>)
      ensures s == state
    {
      s := state;
    }

    /**
     * `dispatch(action)`: the next state is the reducer applied to the
     * current one; only then is every registered listener called, once
     * each, in subscription order, so each call sees the new state.
     */
    method Dispatch(action: A)
      modifies this
      ensures state == Some(reducer(old(state), action))
      ensures listeners == old(listeners)
      ensures |calls| == |old(calls)| + |old(listeners)|
      ensures calls[..|old(calls)|] == old(calls)
      ensures forall i :: |old(calls)| <= i < |calls| ==> calls[i] == (old(listeners)[i - |old(calls)|], state)
    {
      state := Some(reducer(state, action));
      var i := 0;
      while i < |listeners|
        invariant 0 <= i <= |listeners|
        invariant listeners == old(listeners)
        invariant state == Some(reducer(old(state), action))
        invariant |calls| == |old(calls)| + i
        invariant calls[..|old(calls)|] == old(calls)
        invariant forall j :: |old(calls)| <= j < |calls| ==> calls[j] == (listeners[j - |old(calls)|], state)
      {
        calls := calls + [(listeners[i], state)];
        i := i + 1;
      }
    }

    /** `subscribe(listener)`: registers `listener` after every earlier one. */
    method Subscribe(listener: Listener)
      modifies this
      ensures listeners == old(listeners) + [listener]
      ensures state == old(state) && calls == old(calls)
    {
      listeners := listeners + [listener];
    }

    /** The function `subscribe(listener)` returns: drops every registration of `listener`. */
    method Unsubscribe(listener: Listener)
      modifies this
      ensures listeners == Without(old(listeners), listener)
      ensures state == old(state) && calls == old(calls)
    {
      listeners := Without(listeners, listener);
    }
  }
}
