/** Key-by-key runs of the handlers from the state AppState::init gives, against a service whose calls may
    fail at any point. Each key goes to the handler that the focus at that moment selects. */
module Scenarios {
  import opened Schema
  import opened Input
  import Nav
  import Edit
  import State
  import Store
  import Handle
  import Render
  import DateText

  function Press(code: KeyCode): KeyEvent {
    KeyEvent(code, false)
  }

  /** On an empty list, Tab selects index 0, which is past the end; a second Tab computes len() - 1 on an
      empty list and panics */
  method EmptyListTabTwice(now: DateTime) returns (first: Handle.Outcome, cursor: Option<nat>, second: Handle.Outcome)
    ensures first == Handle.Done && cursor == Some(0)
    ensures second == Handle.Panicked
  {
    var app := new State.AppState.Init();
    var list := new State.TodoList([]);
    var db := new Store.Db([], 1, now);
    assert Render.HandlerFor(app.focusedWidget) == Render.ListHandler;
    first := Handle.ListEvents(Press(Tab), app, list, db);
    cursor := list.selected;
    second := Handle.ListEvents(Press(Tab), app, list, db);
  }

  /** With nothing selected, X still calls delete_todo, with no id: it only alerts, the table is unchanged,
      and the list is then reloaded */
  method DeleteWithoutSelection(db: Store.Db) returns (r: Handle.Outcome)
    requires db.Valid()
    modifies db`rows, db`log
    ensures db.Valid() && r != Handle.Panicked && db.rows == old(db.rows)
    ensures db.log == old(db.log) + [Store.DeleteCall(None), Store.FetchTodosCall(State.DefaultOffset, State.DefaultLimit)]
  {
    var app := new State.AppState.Init();
    var list := new State.TodoList([]);
    r := Handle.ListEvents(Press(Char('X')), app, list, db);
  }

  /** k in list mode: the focus moves up and nothing else changes */
  method ListUp(app: State.AppState, list: State.TodoList, db: Store.Db)
    requires db.Valid()
    modifies app, list, db`rows, db`log
    ensures db.Valid() && db.rows == old(db.rows) && db.log == old(db.log)
    ensures app.View() == old(app.View()).(focusedWidget := Nav.Up(old(app.focusedWidget)))
  {
    var _ := Handle.ListEvents(Press(Char('k')), app, list, db);
  }

  /** One character typed into the search box */
  method SearchType(app: State.AppState, db: Store.Db, c: char)
    modifies app, db`log
    ensures db.log == old(db.log)
    ensures app.View() == old(app.View()).(searchString := old(app.searchString) + [c])
  {
    var _ := Handle.SearchEvents(Press(Char(c)), app, db);
  }

  /** Search: k moves the focus from the list up to the search box, "milk" is typed, and Enter calls the
      search exactly once; the search text is kept */
  method SearchMilk(db: Store.Db) returns (r: Handle.Outcome, app: State.AppState)
    requires db.Valid()
    modifies db`rows, db`log
    ensures db.rows == old(db.rows)
    ensures db.log == old(db.log) + [Store.SearchCall("milk")]
    ensures app.searchString == "milk" && app.focusedWidget == Nav.Search
    ensures r == Handle.Done ==> app.mainContentShown == Nav.SearchResults
                                  && app.searchResults == Store.Matching(db.rows, "milk")
    ensures r == Handle.Failed ==> app.mainContentShown == Nav.Daylist && app.searchResults == []
  {
    app := new State.AppState.Init();
    var list := new State.TodoList([]);
    ListUp(app, list, db);
    assert Render.HandlerFor(app.focusedWidget) == Render.SearchHandler;
    SearchType(app, db, 'm');
    SearchType(app, db, 'i');
    SearchType(app, db, 'l');
    SearchType(app, db, 'k');
    assert app.searchString == "milk";
    r := Handle.SearchEvents(Press(Enter), app, db);
  }

  /** One character key in edit mode: it goes into the form and nowhere else */
  method TypeKey(app: State.AppState, list: State.TodoList, db: Store.Db, c: char)
    requires db.Valid()
    modifies app, app.edit, list, db`rows, db`nextId, db`log
    ensures db.Valid() && db.rows == old(db.rows) && db.nextId == old(db.nextId)
    ensures app.View() == old(app.View())
    ensures list.todos == old(list.todos) && list.selected == old(list.selected)
    ensures app.edit.Value() == Edit.TypeChar(old(app.edit.Value()), c)
  {
    var _ := Handle.EditEvents(Press(Char(c)), app, list, db);
  }

  /** Enter in edit mode before the last field: the pointer moves on and the list is reloaded */
  method EnterKey(app: State.AppState, list: State.TodoList, db: Store.Db) returns (r: Handle.Outcome)
    requires db.Valid() && app.edit.selection != Edit.Priority
    modifies app, app.edit, list, db`rows, db`nextId, db`log
    ensures db.Valid() && db.rows == old(db.rows) && db.nextId == old(db.nextId)
    ensures r != Handle.Panicked && app.View() == old(app.View())
    ensures app.edit.Value() == old(app.edit.Value()).(selection := Edit.Advance(old(app.edit.selection)).value)
    ensures r == Handle.Done ==> list.todos == db.rows && list.selected == None
  {
    r := Handle.EditEvents(Press(Enter), app, list, db);
  }

  /** Four character keys in edit mode */
  method TypeFour(app: State.AppState, list: State.TodoList, db: Store.Db, c0: char, c1: char, c2: char, c3: char)
    requires db.Valid()
    modifies app, app.edit, list, db`rows, db`nextId, db`log
    ensures db.Valid() && db.rows == old(db.rows) && db.nextId == old(db.nextId)
    ensures app.View() == old(app.View())
    ensures list.todos == old(list.todos) && list.selected == old(list.selected)
    ensures app.edit.Value() == Edit.TypeChar(Edit.TypeChar(Edit.TypeChar(Edit.TypeChar(old(app.edit.Value()), c0), c1), c2), c3)
  {
    TypeKey(app, list, db, c0);
    TypeKey(app, list, db, c1);
    TypeKey(app, list, db, c2);
    TypeKey(app, list, db, c3);
  }

  /** "Buy milk" typed into the Name field of a fresh form; nothing else changes */
  method TypeBuyMilk(app: State.AppState, list: State.TodoList, db: Store.Db)
    requires db.Valid() && app.edit.Value() == Edit.Blank()
    modifies app, app.edit, list, db`rows, db`nextId, db`log
    ensures db.Valid() && db.rows == old(db.rows) && db.nextId == old(db.nextId)
    ensures app.View() == old(app.View())
    ensures list.todos == old(list.todos) && list.selected == old(list.selected)
    ensures app.edit.Value() == Edit.Buffer(Edit.Name, "Buy milk", "", "", "", Edit.DefaultPriority)
  {
    TypeFour(app, list, db, 'B', 'u', 'y', ' ');
    TypeFour(app, list, db, 'm', 'i', 'l', 'k');
  }

  /** Enter on Priority: the record built from the form goes to create_todo, the form is reset, and on
      success the view goes home and the list is reloaded */
  method SubmitKey(app: State.AppState, list: State.TodoList, db: Store.Db) returns (r: Handle.Outcome)
    requires db.Valid() && app.edit.selection == Edit.Priority
    modifies app, app.edit, list, db`rows, db`nextId, db`log
    ensures db.Valid() && r != Handle.Panicked && app.edit.Value() == Edit.Blank()
    ensures r == Handle.Done ==>
              db.rows == old(db.rows) + [Store.Stored(Edit.Record(old(app.edit.Value())), old(db.nextId), db.now)]
              && app.View() == old(app.View()).(mainContentShown := Nav.Daylist, focusedWidget := Nav.Main)
              && list.todos == db.rows && list.selected == None
  {
    r := Handle.EditEvents(Press(Enter), app, list, db);
  }

  /** n or e in list mode opens the edit form and changes nothing else */
  method OpenForm(app: State.AppState, list: State.TodoList, db: Store.Db, open: char)
    requires db.Valid() && open in {'n', 'e'}
    modifies app, list, db`rows, db`log
    ensures db.Valid() && db.rows == old(db.rows)
    ensures app.focusedWidget == Nav.Widget.EditTodo && app.running == old(app.running)
  {
    var _ := Handle.ListEvents(Press(Char(open)), app, list, db);
  }

  /** Enter on each of the first four fields: the pointer walks to Priority, each Enter reloading the list */
  method EnterToPriority(app: State.AppState, list: State.TodoList, db: Store.Db) returns (r: Handle.Outcome)
    requires db.Valid() && app.edit.selection == Edit.Name
    modifies app, app.edit, list, db`rows, db`nextId, db`log
    ensures db.Valid() && db.rows == old(db.rows) && db.nextId == old(db.nextId)
    ensures r != Handle.Panicked && app.View() == old(app.View())
    ensures r == Handle.Done ==> app.edit.Value() == old(app.edit.Value()).(selection := Edit.Priority)
                                  && list.todos == db.rows && list.selected == None
  {
    r := EnterKey(app, list, db);
    if r != Handle.Done { return; }
    r := EnterKey(app, list, db);
    if r != Handle.Done { return; }
    r := EnterKey(app, list, db);
    if r != Handle.Done { return; }
    r := EnterKey(app, list, db);
  }

  /** The create flow: n (or e) opens the form, "Buy milk" is typed, four Enters reach Priority, 3 is typed,
      and Enter submits. Every Enter reloads the list. If all calls succeed, one row is inserted with that
      title, priority 3, no dates and an empty description that is present; e inserts it the same way */
  method CreateBuyMilk(db: Store.Db, open: char) returns (r: Handle.Outcome, app: State.AppState, list: State.TodoList)
    requires db.Valid() && open in {'n', 'e'}
    modifies db`rows, db`nextId, db`log
    ensures db.Valid() && r != Handle.Panicked
    ensures r == Handle.Done ==>
              db.rows == old(db.rows) + [Store.Stored(Todo(0, "Buy milk", Some(""), None, 0, None, None, None, 3, None),
                                                      old(db.nextId), db.now)]
              && app.focusedWidget == Nav.Main && app.mainContentShown == Nav.Daylist
              && app.edit.Value() == Edit.Blank()
              && list.todos == db.rows && list.selected == None
  {
    app := new State.AppState.Init();
    list := new State.TodoList([]);
    OpenForm(app, list, db, open);
    assert Render.HandlerFor(app.focusedWidget) == Render.EditHandler;
    TypeBuyMilk(app, list, db);
    r := EnterToPriority(app, list, db);
    if r != Handle.Done { return; }
    TypeKey(app, list, db, '3');
    assert app.edit.Value() == Edit.Buffer(Edit.Priority, "Buy milk", "", "", "", 3);
    DateText.MalformedIsNone();
    r := SubmitKey(app, list, db);
  }
}
