/**
 * The three field reducers of the to-do application: `todo` for one item,
 * `todos` for the list and `visibilityFilter` for the selected filter.
 * Each is a pure function from (previous state, action) to the next state;
 * an absent previous state (`undefined` in the program) is `None`.
 */
module Reducers {
  import opened Wrappers

  /** A to-do item `{id, text, completed}`. */
  datatype Todo = Todo(id: int, text: string, completed: bool)

  /**
   * An action. The program dispatches objects tagged by a `type` string;
   * `Other` stands for every object whose `type` no reducer handles,
   * the empty action `{}` included.
   */
  datatype Action =
    | AddTodo(id: int, text: string)            // {type: 'ADD_TODO', id, text}
    | ToggleTodo(id: int)                       // {type: 'TOGGLE_TODO', id}
    | SetVisibilityFilter(filter: string)       // {type: 'SET_VISIBILITY_FILTER', filter}
    | Other

  const ShowAll: string := "SHOW_ALL"
  const ShowCompleted: string := "SHOW_COMPLETED"
  const ShowActive: string := "SHOW_ACTIVE"

  /**
   * `todo(state, action)`. Adding ignores the previous item; toggling reads
   * `state.id`, which throws for an absent item, so a toggle needs an item.
   */
  function ItemReducer(state: Option<Todo>, action: Action): (r: Option<Todo>)
    requires action.ToggleTodo? ==> state.Some?
    ensures action.AddTodo? ==> r == Some(Todo(action.id, action.text, false))
    ensures action.ToggleTodo? ==>
      r.Some? && r.value.id == state.value.id && r.value.text == state.value.text &&
      r.value.completed == (if state.value.id == action.id then !state.value.completed else state.value.completed)
    ensures action.ToggleTodo? && state.value.id != action.id ==> r == state
    ensures !action.AddTodo? && !action.ToggleTodo? ==> r == state
    ensures state.Some? ==> r.Some?
  {
    match action
    case AddTodo(id, text) => Some(Todo(id, text, false))
    case ToggleTodo(id) =>
      if state.value.id != id then state
      else Some(state.value.(completed := !state.value.completed))
    case _ => state
  }

  /** `state.map(t => todo(t, action))`. */
  function MapItems(s: seq<Todo>, action: Action): (r: seq<Todo>)
    ensures |r| == |s|
    ensures forall i :: 0 <= i < |s| ==> ItemReducer(Some(s[i]), action) == Some(r[i])
  {
    if s == [] then []
    else [ItemReducer(Some(s[0]), action).value] + MapItems(s[1..], action)
  }

  /**
   * `todos(state = [], action)`. Adding appends one new item at the end;
   * toggling flips `completed` of the items with the action's id and
   * keeps every other item; any other action returns the list as it was.
   */
  function TodosReducer(state: Option<seq<Todo>>, action: Action): (r: seq<Todo>)
    ensures action.AddTodo? ==>
      |r| == |state.GetOr([])| + 1 &&
      r[..|r| - 1] == state.GetOr([]) &&
      r[|r| - 1] == Todo(action.id, action.text, false)
    ensures action.ToggleTodo? ==>
      var s := state.GetOr([]);
      |r| == |s| &&
      forall i :: 0 <= i < |s| ==>
        r[i].id == s[i].id && r[i].text == s[i].text &&
        r[i].completed == (if s[i].id == action.id then !s[i].completed else s[i].completed)
    ensures !action.AddTodo? && !action.ToggleTodo? ==> r == state.GetOr([])
  {
    var s := state.GetOr([]);
    match action
    case AddTodo(_, _) => s + [ItemReducer(None, action).value]
    case ToggleTodo(_) => MapItems(s, action)
    case _ => s
  }

  /** `visibilityFilter(state = 'SHOW_ALL', action)`: the filter is stored as given, unchecked. */
  function VisibilityFilterReducer(state: Option<string>, action: Action): (r: string)
    ensures action.SetVisibilityFilter? ==> r == action.filter
    ensures !action.SetVisibilityFilter? ==> r == state.GetOr(ShowAll)
  {
    match action
    case SetVisibilityFilter(filter) => filter
    case _ => state.GetOr(ShowAll)
  }

  /** True when some item of `s` carries `id`. */
  ghost predicate HasId(s: seq<Todo>, id: int) {
    exists i :: 0 <= i < |s| && s[i].id == id
  }

  /** No two items of `s` share an id. */
  ghost predicate UniqueIds(s: seq<Todo>) {
    forall i, j :: 0 <= i < j < |s| ==> s[i].id != s[j].id
  }

  /** Toggling an id that no item carries returns the list unchanged. */
  lemma ToggleAbsentIdIsNoOp(s: seq<Todo>, id: int)
    requires !HasId(s, id)
    ensures TodosReducer(Some(s), ToggleTodo(id)) == s
  {
    var r := TodosReducer(Some(s), ToggleTodo(id));
    forall i | 0 <= i < |s| ensures r[i] == s[i] {
      assert s[i].id != id;
    }
  }

  /** Toggling the same id twice restores the original list. */
  lemma ToggleInvolution(s: seq<Todo>, id: int)
    ensures TodosReducer(Some(TodosReducer(Some(s), ToggleTodo(id))), ToggleTodo(id)) == s
  {
    var once := TodosReducer(Some(s), ToggleTodo(id));
    var twice := TodosReducer(Some(once), ToggleTodo(id));
    forall i | 0 <= i < |s| ensures twice[i] == s[i] {
      assert once[i].id == s[i].id;
    }
  }

  /** An action no reducer handles leaves the item, the list and the filter as they were. */
  lemma UnhandledActionIsNoOp(item: Option<Todo>, s: seq<Todo>, filter: string)
    ensures ItemReducer(item, Other) == item
    ensures TodosReducer(Some(s), Other) == s
    ensures VisibilityFilterReducer(Some(filter), Other) == filter
  {
  }

  /**
   * Ids stay unique when every added id is fresh: a toggle keeps every id
   * in place and an add appends an id the list does not yet carry.
   */
  lemma TodosKeepIdsUnique(s: seq<Todo>, action: Action)
    requires UniqueIds(s)
    requires action.AddTodo? ==> !HasId(s, action.id)
    ensures UniqueIds(TodosReducer(Some(s), action))
  {
    var r := TodosReducer(Some(s), action);
    if action.AddTodo? {
      forall i, j | 0 <= i < j < |r| ensures r[i].id != r[j].id {
        assert r[i] == s[i];
        if j == |s| {
          assert !(s[i].id == action.id);
        } else {
          assert r[j] == s[j];
        }
      }
    }
  }
}
