# To-do list state model

A Dafny model of the state-transition core of a small to-do list
application written against a unidirectional state container. The
application's state is `{todos, visibilityFilter}`; views dispatch actions
(`ADD_TODO`, `TOGGLE_TODO`, `SET_VISIBILITY_FILTER`) to a store, whose root
reducer `todoApp` hands every action to the `todos` reducer (which
delegates per-item work to `todo`) and to the `visibilityFilter` reducer,
each on its own field of the state. A selector, `getVisibleTodos`, picks
the items shown under the current filter.

Modules, one per component of `dist/main.js`:

- `Wrappers` (`wrappers.dfy`): `Option`, standing for a value that may be
  `undefined`; `GetOr` is a JavaScript default parameter.
- `Sequences` (`sequences.dfy`): `Filter`, the model of `Array.prototype.filter`,
  with its order (`IsSubsequence`) and partition lemmas.
- `Reducers` (`reducers.dfy`): `Todo`, `Action`, and the three field reducers
  `todo`, `todos`, `visibilityFilter` as `ItemReducer`, `TodosReducer`,
  `VisibilityFilterReducer`. `Other` is every action no reducer handles,
  the empty action `{}` included.
- `Combine` (`combine.dfy`): the generic `combineReducers`, following the
  program's own implementation (a `reduce` over `Object.keys(reducers)`).
- `App` (`app.dfy`): `AppState` and the root reducer `TodoApp`, with the
  proof that it is exactly `combineReducers({todos, visibilityFilter})`.
- `Visibility` (`visibility.dfy`): `GetVisibleTodos`; an unknown filter
  gives `None` (the program returns `undefined`).
- `Stores` (`store.dfy`): the class `Store`, after the program's own
  `createStore`: one state, an ordered listener list, `Dispatch`,
  `Subscribe`, `Unsubscribe`. Listeners are opaque handles; the store keeps
  a log `calls` of the listener calls it makes, each with the state that
  `getState()` returns during that call.
- `Scenario` (`scenario.dfy`): the program's two reducer tests
  (dist/main.js:414-473) and its console walkthrough (dist/main.js:332-373),
  which dispatches two `ADD_TODO`s, a `TOGGLE_TODO` and a
  `SET_VISIBILITY_FILTER` and logs the state after each. The model's
  version (`AddTwoItems`, `Walkthrough`) also subscribes a render callback,
  as the live code does at dist/main.js:242, and adds a check of its own:
  the `SHOW_COMPLETED` view of the final state. `SubscribeThree` and
  `UnsubscribeScenario` check subscription and unsubscription with three
  listeners.

In dist/main.js the action tags are `ADD_TODO`, `TOGGLE_TODO` and
`SET_VISIBILITY_FILTER`; the filter reducer stores any string it is given
(line 51), not only the three names `getVisibleTodos` knows; listeners are
an ordered list that may hold the same listener twice (line 701), and
unsubscribing removes every copy of it (line 703).

## Model

| member | source | states |
|---|---|---|
| Reducers.ItemReducer | dist/main.js:8-27 | adding builds `{id, text, completed: false}` whatever the prior item; toggling keeps `id` and `text` and negates `completed` exactly when the ids match, returning the item itself otherwise; any other action returns the prior item; toggling needs a prior item (the code reads `state.id`) |
| Reducers.MapItems | dist/main.js:37-39 | `state.map(t => todo(t, action))`: same length, and each position holds `todo` applied to the item at that position |
| Reducers.TodosReducer | dist/main.js:29-43 | an absent list is `[]`; adding returns the old list, unchanged and in order, with exactly one item `{id, text, completed: false}` appended at the end; toggling keeps length, order, ids and texts and negates `completed` exactly on items with the action's id; any other action returns the list unchanged |
| Reducers.ToggleAbsentIdIsNoOp | dist/main.js:16-39 | toggling an id that no item carries returns the list unchanged |
| Reducers.ToggleInvolution | dist/main.js:16-39 | toggling the same id twice returns the original list |
| Reducers.UnhandledActionIsNoOp | dist/main.js:8-55 | an unhandled action (including `{}`) leaves the item, the list and the filter unchanged |
| Reducers.TodosKeepIdsUnique | dist/main.js:29-43 | if ids are unique and an added id is fresh, ids stay unique after any action |
| Reducers.VisibilityFilterReducer | dist/main.js:45-55 | an absent filter is `'SHOW_ALL'`; `SET_VISIBILITY_FILTER` returns `action.filter` exactly, with no validation; any other action returns the previous filter |
| Combine.Field | dist/main.js:305 | `state[key]` is the field when the object has it and absent otherwise |
| Combine.FoldKeys | dist/main.js:302-311 | the fold stores, for every key visited, that key's reducer applied to that key's field of the previous state, and keeps the other entries already built |
| Combine.CombineReducers | dist/main.js:300-313 | the combined state has exactly the reducers' keys, and every field is its own reducer run on its own field of the previous state (absent state is `{}`), for every action |
| Combine.FieldDependsOnlyOnItsSlice | dist/main.js:300-313 | two previous states that agree on a field give results that agree on that field, whatever the other fields hold |
| App.TodoApp | dist/main.js:57-60 | the root reducer: adding grows the list by one and toggling keeps its length; every action other than add and toggle leaves the list as it was (`[]` when absent); `SET_VISIBILITY_FILTER` stores its filter and every other action leaves the filter as it was (`'SHOW_ALL'` when absent) |
| App.TodoAppIsCombined | dist/main.js:57-60 | for every previous state (absent or not) and action, `TodoApp` equals `combineReducers({todos, visibilityFilter})` as the program implements it |
| App.InitialState | dist/main.js:57-62 | the first state, from no prior state and an unhandled action, is `{todos: [], visibilityFilter: 'SHOW_ALL'}` |
| App.ItemActionsKeepFilter | dist/main.js:57-60 | `ADD_TODO` and `TOGGLE_TODO` never change `visibilityFilter` |
| App.FilterActionKeepsTodos | dist/main.js:57-60 | `SET_VISIBILITY_FILTER` never changes `todos` and stores its filter |
| App.TodoAppKeepsIdsUnique | dist/main.js:57-60 | the root reducer keeps item ids unique when added ids are fresh |
| Sequences.Filter | dist/main.js:182-188 | `filter` keeps exactly the elements that satisfy the predicate, each as often as in the input, and never grows the sequence |
| Sequences.FilterIsSubsequence | dist/main.js:182-188 | `filter` keeps the original order |
| Sequences.FilterPartition | dist/main.js:182-188 | filtering by a predicate and by its negation together give back every element, as often as in the input |
| Visibility.GetVisibleTodos | dist/main.js:174-190 | a result exists exactly for the three known filters; `SHOW_ALL` returns the list itself; `SHOW_COMPLETED` holds exactly the completed items; `SHOW_ACTIVE` exactly the active ones |
| Visibility.CompletedAndActivePartition | dist/main.js:178-188 | the completed and active views keep the list's order, and together have the list's length and hold every item as often as the list does |
| Stores.Without | dist/main.js:703 | unsubscribing removes every registration of the listener and keeps every other one, in order and with its multiplicity |
| Stores.WithoutIdempotent | dist/main.js:702-704 | calling the unsubscribe function again changes nothing |
| Stores.Store.constructor | dist/main.js:689-710 | a new store has no listeners and the state `reducer(undefined, init)` from its initial `dispatch({})` |
| Stores.Store.GetState | dist/main.js:693 | returns the current state |
| Stores.Store.Dispatch | dist/main.js:695-698 | the state becomes `reducer(oldState, action)`; then each registered listener is called exactly once, in subscription order, and every call sees the new state (the log keeps each call with the state at that moment); earlier log entries and the listener list are unchanged |
| Stores.Store.Subscribe | dist/main.js:700-701 | appends the listener after every earlier one; state and call log unchanged |
| Stores.Store.Unsubscribe | dist/main.js:702-704 | the listener list becomes `Without(listeners, listener)`; state and call log unchanged |
| Scenario.StepAddFirst | dist/main.js:338-343 | the walkthrough's first `ADD_TODO` turns the empty state into one active item |
| Scenario.StepAddSecond | dist/main.js:347-353 | the second `ADD_TODO` appends the second item after the first |
| Scenario.StepToggleFirst | dist/main.js:357-362 | `TOGGLE_TODO` of id 0 completes the first item and keeps the second |
| Scenario.CompletedView | dist/main.js:181-184 | with one completed and one active item, `SHOW_COMPLETED` shows exactly the completed one |
| Scenario.AddTwoItems | dist/main.js:332-353 | after the walkthrough's two `ADD_TODO` dispatches the store holds the two items in order under `SHOW_ALL`; with the render callback of line 242 subscribed (not part of the walkthrough), it was called once per dispatch, each time seeing that dispatch's new state |
| Scenario.Walkthrough | dist/main.js:332-373 | the four dispatches of the walkthrough end in the first item completed, the second active and the filter `SHOW_COMPLETED`; the subscribed render callback was called four times and saw the state after each dispatch; the added check: the completed view of the final state is exactly the first item |
| Scenario.SubscribeThree | dist/main.js:695-701 | after three subscriptions, one dispatch calls the three listeners once each, in subscription order, each seeing the new state |
| Scenario.UnsubscribeScenario | dist/main.js:700-704 | after unsubscribing the second of three distinct listeners, the next dispatch calls only the first and the third, in that order |
| Scenario.UnsubscribeMiddle | dist/main.js:702-704 | unsubscribing the middle of three distinct listeners leaves the outer two in order |
| Scenario.TestAddTodo | dist/main.js:414-435 | adding `{id: 0, text: 'Learn Redux'}` to `[]` gives the single new item |
| Scenario.TestToggleTodo | dist/main.js:437-473 | toggling id 1 in the two-item list completes the second item and keeps the first |

## Left out

- The view components (`FilterLink`, `Footer`, `Todo`, `TodoList`, `AddTodo`, `TodoApp`), `render`, `ReactDOM.render` and `store.subscribe(render)`: they render markup and are outside the state logic.
- The state library's own `createStore` and `combineReducers`, which the live code imports: their source is not part of this model. The model follows the program's own versions (dist/main.js:300-313, 689-710). The library differs in ways not modelled: it returns the previous state object when no field changed, throws when a reducer returns `undefined`, warns about unexpected keys, and uses its own private initial action (here, like `{}`, an `Other` action).
- The `nextTodoId++` counter in the view callbacks: id generation is view-side; `TodosKeepIdsUnique` states freshness of added ids as a precondition instead.
- The `deepFreeze`/`expect` harness and the `console.log` scripts: they are I/O and test plumbing; their expected values appear in `Scenario`.
- The commented-out counter exercises and click-listener demos: dead code unrelated to the to-do app.
- webpack.config.js: build configuration with no logic.
- Reference identity: where the code returns the same object (`return state`), the model returns an equal value; identity-based shortcuts are not modelled.
- Dynamic typing: an `ADD_TODO` action without `id` or `text`, a non-string filter, or a non-boolean `completed` cannot be written in the model's types.
- Reducers.ItemReducer: toggling an absent item throws a `TypeError` in the code; the model makes a present item a precondition of toggling instead of modelling the exception (the list reducer only ever passes present items).
- Stores.Store.Unsubscribe: `subscribe` returns an unsubscribe closure; the model has a method taking the listener, with the same effect as calling that closure.
- Stores.Store.Dispatch: what a listener does when called is not modelled (it is an opaque handle); in particular a listener that dispatches, subscribes or unsubscribes while being notified is outside the model.
