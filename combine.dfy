/**
 * `combineReducers(reducers)`: builds one reducer over an object whose
 * fields are owned by separate reducers. The result folds over the keys of
 * `reducers`, running each field's reducer on that field of the previous
 * state, for every action.
 */
module Combine {
  import opened Wrappers

  /** A reducer: previous state (absent the first time) and action to next state. */
  type Reducer<!S, -A> = (Option<S>, A) -> S

  /** `state[key]`: the field, or absent when the object has no such field. */
  function Field<K, S>(state: map<K, S>, key: K): (r: Option<S>)
    ensures key in state ==> r == Some(state[key])
    ensures key !in state ==> r == None
  {
    if key in state then Some(state[key]) else None
  }

  /**
   * The `reduce` over `keys`: each step stores into `next` the value that
   * the key's reducer computes from the key's field of `state`.
   */
  function FoldKeys<K(!new), S, A>(keys: seq<K>, reducers: map<K, Reducer<S, A>>, state: map<K, S>,
                             action: A, next: map<K, S>): (r: map<K, S>)
    requires forall k :: k in keys ==> k in reducers
    ensures forall k :: k in r <==> k in next || k in keys
    ensures forall k :: k in keys ==> r[k] == reducers[k](Field(state, k), action)
    ensures forall k :: k in next && k !in keys ==> r[k] == next[k]
    decreases |keys|
  {
    if keys == [] then next
    else
      var k := keys[0];
      FoldKeys(keys[1..], reducers, state, action, next[k := reducers[k](Field(state, k), action)])
  }

  /**
   * `combineReducers(reducers)(state = {}, action)`, where `keys` lists
   * `Object.keys(reducers)`. The result has exactly the reducers' keys, and
   * each field is its own reducer applied to the same field of the previous
   * state: no field's value depends on another field.
   */
  function CombineReducers<K(!new), S, A>(keys: seq<K>, reducers: map<K, Reducer<S, A>>,
                                    state: Option<map<K, S>>, action: A): (r: map<K, S>)
    requires forall k :: k in keys <==> k in reducers
    ensures r.Keys == reducers.Keys
    ensures forall k :: k in reducers ==> r[k] == reducers[k](Field(state.GetOr(map[]), k), action)
  {
    FoldKeys(keys, reducers, state.GetOr(map[]), action, map[])
  }

  /**
   * Slice independence: two previous states that agree on one field give
   * combined results that agree on that field, whatever the other fields hold.
   */
  lemma FieldDependsOnlyOnItsSlice<K(!new), S, A>(keys: seq<K>, reducers: map<K, Reducer<S, A>>,
                                            s1: map<K, S>, s2: map<K, S>, action: A, key: K)
    requires forall k :: k in keys <==> k in reducers
    requires key in reducers
    requires Field(s1, key) == Field(s2, key)
    ensures CombineReducers(keys, reducers, Some(s1), action)[key]
         == CombineReducers(keys, reducers, Some(s2), action)[key]
  {
  }
}
