/**
 * The root reducer `todoApp = combineReducers({todos, visibilityFilter})`
 * over the application state `{todos, visibilityFilter}`.
 */
module App {
  import opened Wrappers
  import opened Reducers
  import Combine

  /** The state tree held by the store. */
  datatype AppState = AppState(todos: seq<Todo>, visibilityFilter: string)

  /** `state.todos`, absent when there is no previous state. */
  function TodosOf(state: Option<AppState>): (r: Option<seq<Todo>>)
    ensures state.Some? ==> r == Some(state.value.todos)
    ensures state.None? ==> r == None
  {
    if state.Some? then Some(state.value.todos) else None
  }

  /** `state.visibilityFilter`, absent when there is no previous state. */
  function FilterOf(state: Option<AppState>): (r: Option<string>)
    ensures state.Some? ==> r == Some(state.value.visibilityFilter)
    ensures state.None? ==> r == None
  {
    if state.Some? then Some(state.value.visibilityFilter) else None
  }

  /**
   * `todoApp(state, action)`: each field is computed by its own reducer from
   * its own field, so an action that only one reducer handles leaves the
   * other field as it was (or at its default, when there is no state).
   */
  function TodoApp(state: Option<AppState>, action: Action): (r: AppState)
    ensures action.AddTodo? ==> |r.todos| == |TodosOf(state).GetOr([])| + 1
    ensures action.ToggleTodo? ==> |r.todos| == |TodosOf(state).GetOr([])|
    ensures !action.AddTodo? && !action.ToggleTodo? ==> r.todos == TodosOf(state).GetOr([])
    ensures action.SetVisibilityFilter? ==> r.visibilityFilter == action.filter
    ensures !action.SetVisibilityFilter? ==> r.visibilityFilter == FilterOf(state).GetOr(ShowAll)
  {
    AppState(TodosReducer(TodosOf(state), action), VisibilityFilterReducer(FilterOf(state), action))
  }

  /** The state the store starts in: no items, every item shown. */
  lemma InitialState()
    ensures TodoApp(None, Other) == AppState([], "SHOW_ALL")
  {
  }

  /** Adding or toggling an item never changes the visibility filter. */
  lemma ItemActionsKeepFilter(state: AppState, action: Action)
    requires action.AddTodo? || action.ToggleTodo?
    ensures TodoApp(Some(state), action).visibilityFilter == state.visibilityFilter
  {
  }

  /** Setting the filter never changes the items. */
  lemma FilterActionKeepsTodos(state: AppState, filter: string)
    ensures TodoApp(Some(state), SetVisibilityFilter(filter)).todos == state.todos
    ensures TodoApp(Some(state), SetVisibilityFilter(filter)).visibilityFilter == filter
  {
  }

  /** The root reducer keeps item ids unique as long as every added id is fresh. */
  lemma TodoAppKeepsIdsUnique(state: AppState, action: Action)
    requires UniqueIds(state.todos)
    requires action.AddTodo? ==> !HasId(state.todos, action.id)
    ensures UniqueIds(TodoApp(Some(state), action).todos)
  {
    TodosKeepIdsUnique(state.todos, action);
  }

  // The state tree as the program's plain object: one field per key.

  /** A field value of the state object: the item list or the filter. */
  datatype Slot = TodosSlot(todos: seq<Todo>) | FilterSlot(filter: string)

  const TodosKey: string := "todos"
  const FilterKey: string := "visibilityFilter"

  /** `Object.keys({todos, visibilityFilter})`. */
  const AppKeys: seq<string> := [TodosKey, FilterKey]

  /** The `todos` reducer on its field of the state object. */
  function TodosField(slot: Option<Slot>, action: Action): (r: Slot) {
    TodosSlot(TodosReducer(if slot.Some? && slot.value.TodosSlot? then Some(slot.value.todos) else None, action))
  }

  /** The `visibilityFilter` reducer on its field of the state object. */
  function FilterField(slot: Option<Slot>, action: Action): (r: Slot) {
    FilterSlot(VisibilityFilterReducer(if slot.Some? && slot.value.FilterSlot? then Some(slot.value.filter) else None, action))
  }

  /** The object `{todos, visibilityFilter}` passed to `combineReducers`. */
  const AppReducers: map<string, Combine.Reducer<Slot, Action>> :=
    map[TodosKey := TodosField, FilterKey := FilterField]

  /** The state tree as an object keyed by field name. */
  function AsObject(state: AppState): (r: map<string, Slot>) {
    map[TodosKey := TodosSlot(state.todos), FilterKey := FilterSlot(state.visibilityFilter)]
  }

  /** The field reducers, run on the fields of the state object, agree with the typed reducers. */
  lemma FieldReducersAgree(state: Option<AppState>, action: Action)
    ensures TodosField(if state.Some? then Some(TodosSlot(state.value.todos)) else None, action)
         == TodosSlot(TodoApp(state, action).todos)
    ensures FilterField(if state.Some? then Some(FilterSlot(state.value.visibilityFilter)) else None, action)
         == FilterSlot(TodoApp(state, action).visibilityFilter)
  {
  }

  /** Combining the two field reducers builds the object with one entry per field. */
  lemma CombinedObject(obj: Option<map<string, Slot>>, action: Action)
    ensures Combine.CombineReducers(AppKeys, AppReducers, obj, action)
         == map[TodosKey := TodosField(Combine.Field(obj.GetOr(map[]), TodosKey), action),
                FilterKey := FilterField(Combine.Field(obj.GetOr(map[]), FilterKey), action)]
  {
    var base := obj.GetOr(map[]);
    var r := Combine.CombineReducers(AppKeys, AppReducers, obj, action);
    assert AppReducers[TodosKey] == TodosField && AppReducers[FilterKey] == FilterField;
    assert r.Keys == AppReducers.Keys == {TodosKey, FilterKey};
    assert r[TodosKey] == TodosField(Combine.Field(base, TodosKey), action);
    assert r[FilterKey] == FilterField(Combine.Field(base, FilterKey), action);
  }

  /**
   * `TodoApp` is `combineReducers({todos, visibilityFilter})`: for every
   * previous state, absent or not, and every action, the generic combination
   * of the two field reducers yields the same state tree.
   */
  lemma TodoAppIsCombined(state: Option<AppState>, action: Action)
    ensures Combine.CombineReducers(AppKeys, AppReducers, if state.Some? then Some(AsObject(state.value)) else None, action)
         == AsObject(TodoApp(state, action))
  {
    var obj: Option<map<string, Slot>> := if state.Some? then Some(AsObject(state.value)) else None;
    var base := obj.GetOr(map[]);
    CombinedObject(obj, action);
    assert Combine.Field(base, TodosKey) == if state.Some? then Some(TodosSlot(state.value.todos)) else None;
    assert Combine.Field(base, FilterKey) == if state.Some? then Some(FilterSlot(state.value.visibilityFilter)) else None;
    FieldReducersAgree(state, action);
  }
}
