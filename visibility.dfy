/**
 * `getVisibleTodos(todos, filter)`: the items shown under a filter. The
 * program's switch has no default case, so an unknown filter yields
 * `undefined`, here `None`.
 */
module Visibility {
  import opened Wrappers
  import opened Reducers
  import opened Sequences

  /** True for the three filter names the selector knows. */
  predicate KnownFilter(filter: string) {
    filter == ShowAll || filter == ShowCompleted || filter == ShowActive
  }

  /** `t => t.completed` */
  predicate IsCompleted(t: Todo) { t.completed }

  /** `t => !t.completed` */
  predicate IsActive(t: Todo) { !t.completed }

  function GetVisibleTodos(todos: seq<Todo>, filter: string): (r: Option<seq<Todo>>)
    ensures r.Some? <==> KnownFilter(filter)
    ensures filter == ShowAll ==> r == Some(todos)
    ensures filter == ShowCompleted ==>
      r.Some? && forall t :: t in r.value <==> t in todos && t.completed
    ensures filter == ShowActive ==>
      r.Some? && forall t :: t in r.value <==> t in todos && !t.completed
  {
    if filter == ShowAll then Some(todos)
    else if filter == ShowCompleted then Some(Filter(todos, IsCompleted))
    else if filter == ShowActive then Some(Filter(todos, IsActive))
    else None
  }

  /**
   * The completed and the active views keep the list's order and together
   * hold every item exactly as often as the list does.
   */
  lemma CompletedAndActivePartition(todos: seq<Todo>)
    ensures GetVisibleTodos(todos, ShowCompleted).Some? && GetVisibleTodos(todos, ShowActive).Some?
    ensures IsSubsequence(GetVisibleTodos(todos, ShowCompleted).value, todos)
    ensures IsSubsequence(GetVisibleTodos(todos, ShowActive).value, todos)
    ensures |GetVisibleTodos(todos, ShowCompleted).value| + |GetVisibleTodos(todos, ShowActive).value| == |todos|
    ensures multiset(GetVisibleTodos(todos, ShowCompleted).value) + multiset(GetVisibleTodos(todos, ShowActive).value)
         == multiset(todos)
  {
    FilterIsSubsequence(todos, IsCompleted);
    FilterIsSubsequence(todos, IsActive);
    FilterPartition(todos, IsCompleted, IsActive);
  }
}
