/** The program's own test cases and its console walkthrough, stated over the model. */
module Scenario {
  import opened Wrappers
  import opened Reducers
  import opened App
  import opened Visibility
  import opened Sequences
  import opened Stores

  /** `testAddTodo`: adding to the empty list gives the one new item. */
  lemma TestAddTodo()
    ensures TodosReducer(Some([]), AddTodo(0, "Learn Redux")) == [Todo(0, "Learn Redux", false)]
  {
  }

  /** `testToggleTodo`: toggling id 1 completes the second item only. */
  lemma TestToggleTodo()
    ensures TodosReducer(Some([Todo(0, "Learn Redux", false), Todo(1, "Go shopping", false)]), ToggleTodo(1))
         == [Todo(0, "Learn Redux", false), Todo(1, "Go shopping", true)]
  {
    var r := TodosReducer(Some([Todo(0, "Learn Redux", false), Todo(1, "Go shopping", false)]), ToggleTodo(1));
    assert r[0] == Todo(0, "Learn Redux", false);
    assert r[1] == Todo(1, "Go shopping", true);
  }

  /** The first `ADD_TODO` appends to the empty list. */
  lemma StepAddFirst(text: string)
    ensures TodoApp(Some(AppState([], ShowAll)), AddTodo(0, text)) == AppState([Todo(0, text, false)], ShowAll)
  {
  }

  /** The second `ADD_TODO` appends after the first item. */
  lemma StepAddSecond(first: Todo, text: string)
    ensures TodoApp(Some(AppState([first], ShowAll)), AddTodo(1, text))
         == AppState([first, Todo(1, text, false)], ShowAll)
  {
    var r := TodoApp(Some(AppState([first], ShowAll)), AddTodo(1, text)).todos;
    assert r[..1] == [first] && r[1] == Todo(1, text, false);
    assert r == [first, Todo(1, text, false)];
  }

  /** `TOGGLE_TODO` of id 0 completes the first item only. */
  lemma StepToggleFirst(first: string, second: string)
    ensures TodoApp(Some(AppState([Todo(0, first, false), Todo(1, second, false)], ShowAll)), ToggleTodo(0))
         == AppState([Todo(0, first, true), Todo(1, second, false)], ShowAll)
  {
    var r := TodoApp(Some(AppState([Todo(0, first, false), Todo(1, second, false)], ShowAll)), ToggleTodo(0)).todos;
    assert r[0] == Todo(0, first, true) && r[1] == Todo(1, second, false);
    assert r == [Todo(0, first, true), Todo(1, second, false)];
  }

  /** A log that grew by exactly one entry is the old log followed by that entry. */
  lemma GrewByOne<T>(log: seq<T>, before: seq<T>, entry: T)
    requires |log| == |before| + 1 && log[..|before|] == before && log[|before|] == entry
    ensures log == before + [entry]
  {
    assert log == log[..|before|] + [log[|before|]];
  }

  /**
   * The first half of the walkthrough, with the render callback the live
   * code subscribes: create the store, subscribe `render` and add two
   * items. Each call of `render` sees the state its dispatch produced.
   */
  method AddTwoItems(first: string, second: string, render: Listener) returns (store: Store<AppState, Action>)
    ensures fresh(store) && store.reducer == TodoApp && store.listeners == [render]
    ensures store.state == Some(AppState([Todo(0, first, false), Todo(1, second, false)], ShowAll))
    ensures store.calls == [(render, Some(AppState([Todo(0, first, false)], ShowAll))), (render, store.state)]
  {
    store := new Store<AppState, Action>(TodoApp, Other);
    InitialState();
    assert store.state == Some(AppState([], ShowAll));
    store.Subscribe(render);

    store.Dispatch(AddTodo(0, first));
    StepAddFirst(first);
    var learn := Todo(0, first, false);
    assert store.state == Some(AppState([learn], ShowAll));
    GrewByOne(store.calls, [], (render, store.state));
    ghost var once := store.calls;

    store.Dispatch(AddTodo(1, second));
    StepAddSecond(learn, second);
    GrewByOne(store.calls, once, (render, store.state));
  }

  /**
   * The walkthrough (with "Learn Redux" and "Go shopping" as the two texts
   * in the program), with the live render callback subscribed: add two
   * items, toggle the first, select `SHOW_COMPLETED`. `log` is the render
   * calls with the state each one sees; `visible` is the completed view
   * of the final state.
   */
  method Walkthrough(first: string, second: string, render: Listener)
    returns (log: seq<(Listener, Option<AppState>)>, visible: Option<seq<Todo>>)
    ensures |log| == 4 && forall i :: 0 <= i < 4 ==> log[i].0 == render
    ensures log[0].1 == Some(AppState([Todo(0, first, false)], ShowAll))
    ensures log[1].1 == Some(AppState([Todo(0, first, false), Todo(1, second, false)], ShowAll))
    ensures log[2].1 == Some(AppState([Todo(0, first, true), Todo(1, second, false)], ShowAll))
    ensures log[3].1 == Some(AppState([Todo(0, first, true), Todo(1, second, false)], ShowCompleted))
    ensures visible == Some([Todo(0, first, true)])
  {
    var store := AddTwoItems(first, second, render);
    var shop := Todo(1, second, false);
    ghost var before := store.calls;

    store.Dispatch(ToggleTodo(0));
    StepToggleFirst(first, second);
    var done := Todo(0, first, true);
    assert store.state == Some(AppState([done, shop], ShowAll));
    GrewByOne(store.calls, before, (render, store.state));
    ghost var thrice := store.calls;

    store.Dispatch(SetVisibilityFilter(ShowCompleted));
    var st := store.GetState();
    assert st == Some(AppState([done, shop], ShowCompleted));
    GrewByOne(store.calls, thrice, (render, st));
    log := store.calls;

    CompletedView(done, shop);
    visible := GetVisibleTodos(st.value.todos, st.value.visibilityFilter);
  }

  /**
   * Three subscriptions and one dispatch: each listener is called once,
   * in subscription order, and each sees the dispatched state.
   */
  method SubscribeThree(a: Listener, b: Listener, c: Listener) returns (store: Store<AppState, Action>)
    ensures fresh(store) && store.reducer == TodoApp && store.listeners == [a, b, c]
    ensures store.state == Some(AppState([], ShowAll))
    ensures store.calls == [(a, store.state), (b, store.state), (c, store.state)]
  {
    store := new Store<AppState, Action>(TodoApp, Other);
    InitialState();
    store.Subscribe(a);
    store.Subscribe(b);
    store.Subscribe(c);
    assert store.listeners == [a, b, c];
    store.Dispatch(Other);
    assert store.state == Some(AppState([], ShowAll));
    assert store.calls[0] == (a, store.state) && store.calls[1] == (b, store.state) && store.calls[2] == (c, store.state);
  }

  /**
   * After three subscriptions and a dispatch, the second listener
   * unsubscribes: the next dispatch calls only the first and the third, in
   * that order. `notified` is the calls that dispatch makes.
   */
  method UnsubscribeScenario(a: Listener, b: Listener, c: Listener)
    returns (notified: seq<(Listener, Option<AppState>)>)
    requires a != b && c != b
    ensures notified == [(a, Some(AppState([], ShowAll))), (c, Some(AppState([], ShowAll)))]
  {
    var store := SubscribeThree(a, b, c);
    store.Unsubscribe(b);
    UnsubscribeMiddle(a, b, c);
    assert store.listeners == [a, c];
    store.Dispatch(Other);
    assert store.state == Some(AppState([], ShowAll));
    notified := store.calls[3..];
    assert |notified| == 2;
    assert notified[0] == store.calls[3] == (a, store.state);
    assert notified[1] == store.calls[4] == (c, store.state);
  }

  /** Unsubscribing the middle one of three distinct registrations keeps the outer two in order. */
  lemma UnsubscribeMiddle(a: Listener, b: Listener, c: Listener)
    requires a != b && c != b
    ensures Without([a, b, c], b) == [a, c]
  {
    var keep := (l: Listener) => l != b;
    assert [a, b, c][1..] == [b, c] && [b, c][1..] == [c] && [c][1..] == [];
    assert Filter([c], keep) == [c];
    assert Filter([b, c], keep) == [c];
    assert Filter([a, b, c], keep) == [a, c];
  }

  /** The walkthrough's last view: only the completed item is shown. */
  lemma CompletedView(done: Todo, shop: Todo)
    requires done.completed && !shop.completed
    ensures GetVisibleTodos([done, shop], ShowCompleted) == Some([done])
  {
    var visible := GetVisibleTodos([done, shop], ShowCompleted).value;
    CompletedAndActivePartition([done, shop]);
    assert |visible| == 1 by {
      assert done in visible && shop !in visible;
      assert multiset([done, shop])[shop] == 1;
    }
    assert visible[0] == done;
    assert visible == [done];
  }
}
