/** The four key handlers (src/controller/handle.rs). Each one mutates the application state, the list the
    main area shows and the edit form in place, and calls the data service in a fixed order. A call that
    fails ends the handler at that point with the effects made so far kept (the `?` operator). The two
    operations of TodoList that can panic (the usize underflow in next/previous, the index in
    get_selected_id) are checked first, and a handler that would panic ends with `Panicked` instead. */
module Handle {
  import opened Schema
  import opened Input
  import Nav
  import Edit
  import State
  import Store

  /** How a handler ends: normally, with a service error returned through `?`, or with a panic */
  datatype Outcome = Done | Failed | Panicked

  // ------------------------------------------------------------------- keys

  /** The arrow keys, which move the focus in every mode */
  function ArrowKey(code: KeyCode): (r: Option<Nav.Arrow>)
    ensures r.Some? <==> code.Up? || code.Down? || code.Left? || code.Right?
    ensures code.Up? ==> r == Some(Nav.ArrowUp)
    ensures code.Down? ==> r == Some(Nav.ArrowDown)
    ensures code.Left? ==> r == Some(Nav.ArrowLeft)
    ensures code.Right? ==> r == Some(Nav.ArrowRight)
  {
    match code
    case Up => Some(Nav.ArrowUp)
    case Down => Some(Nav.ArrowDown)
    case Left => Some(Nav.ArrowLeft)
    case Right => Some(Nav.ArrowRight)
    case _ => None
  }

  /** The vim letters k, j, h and l, which move the focus in list mode and on the other panels */
  function VimKey(code: KeyCode): (r: Option<Nav.Arrow>)
    ensures r.Some? <==> code in {Char('k'), Char('j'), Char('h'), Char('l')}
    ensures r.Some? ==> !QuitKey(code) && ArrowKey(code).None?
  {
    match code
    case Char('k') => Some(Nav.ArrowUp)
    case Char('j') => Some(Nav.ArrowDown)
    case Char('h') => Some(Nav.ArrowLeft)
    case Char('l') => Some(Nav.ArrowRight)
    case _ => None
  }

  /** q and Q, which quit from the list and the other panels */
  predicate QuitKey(code: KeyCode) {
    code == Char('q') || code == Char('Q')
  }

  /** Each vim letter moves the focus the way the arrow key in the same direction does */
  lemma VimMatchesArrows()
    ensures VimKey(Char('k')) == ArrowKey(Up) && VimKey(Char('j')) == ArrowKey(Down)
    ensures VimKey(Char('h')) == ArrowKey(Left) && VimKey(Char('l')) == ArrowKey(Right)
  {
  }

  /** Whatever key moves the focus, the focus never lands on the edit form */
  lemma {:induction false} NavigationKeysNeverOpenForm(w: Nav.Widget, codes: seq<KeyCode>)
    requires forall i :: 0 <= i < |codes| ==> ArrowKey(codes[i]).Some? || VimKey(codes[i]).Some?
    requires codes != [] || Nav.Navigable(w)
    ensures Nav.Navigable(FocusAfter(w, codes))
    decreases |codes|
  {
    if codes != [] {
      var next := Nav.Move(w, KeyArrow(codes[0]));
      NavigationKeysNeverOpenForm(next, codes[1..]);
    }
  }

  /** The direction of an arrow or vim key (Up for any other key) */
  function KeyArrow(code: KeyCode): Nav.Arrow {
    if ArrowKey(code).Some? then ArrowKey(code).value
    else if VimKey(code).Some? then VimKey(code).value
    else Nav.ArrowUp
  }

  /** The focus after a run of navigation keys */
  function FocusAfter(w: Nav.Widget, codes: seq<KeyCode>): Nav.Widget
    decreases |codes|
  {
    if codes == [] then w else FocusAfter(Nav.Move(w, KeyArrow(codes[0])), codes[1..])
  }

  // ------------------------------------------------------- what a key changes

  /** Everything a handler can change, as values: the application state, the edit form, the list and its
      cursor, and the service's table, id counter, clock and call log */
  datatype World = World(view: State.AppView, form: Edit.Buffer, todos: seq<Todo>, selected: Option<nat>,
                         rows: seq<Todo>, nextId: int, now: DateTime, log: seq<Store.Call>)

  ghost function Snapshot(app: State.AppState, list: State.TodoList, db: Store.Db): World
    reads app, app.edit, list, db
  {
    World(app.View(), app.edit.Value(), list.todos, list.selected, db.rows, db.nextId, db.now, db.log)
  }

  /** The list and its cursor are as they were */
  predicate ListKept(w: World, w2: World) {
    w2.todos == w.todos && w2.selected == w.selected
  }

  /** The outcome of reloading the list from a fetch: the whole table with no cursor, or the list as it was */
  predicate Reloaded(w: World, w2: World, r: Outcome) {
    (r == Done ==> w2.todos == w2.rows && w2.selected == None)
    && (r == Failed ==> ListKept(w, w2))
  }

  /** The fetch that reloads the list, with the offset and limit of the application state */
  function Fetch(v: State.AppView): Store.Call {
    Store.FetchTodosCall(v.todoItemsOffset, v.todoItemsLimit)
  }

  /** One call that changes the table to `changed`, then the reload. A call that can fail may instead end
      the handler with the table and the list as they were. */
  predicate CallThenReload(w: World, w2: World, r: Outcome, call: Store.Call, canFail: bool, changed: seq<Todo>) {
    r != Panicked
    && ((canFail && r == Failed && w2.log == w.log + [call] && w2.rows == w.rows && ListKept(w, w2))
        || (w2.log == w.log + [call, Fetch(w2.view)] && w2.rows == changed && Reloaded(w, w2, r)))
  }

  /** d (toggle) or X (delete) in list mode: get_selected_id panics on a cursor past the end; otherwise the
      call goes out with the selected id, or with none, in which case it only alerts and cannot fail */
  predicate SelectedCallThenReload(w: World, w2: World, r: Outcome, delete: bool) {
    if !State.CursorValid(w.selected, |w.todos|) then
      r == Panicked && w2.log == w.log && w2.rows == w.rows && ListKept(w, w2)
    else
      var id := State.SelectedId(w.todos, w.selected);
      if delete then CallThenReload(w, w2, r, Store.DeleteCall(id), id.Some?, Store.DeleteEffect(w.rows, id))
      else CallThenReload(w, w2, r, Store.ToggleCall(id), id.Some?, Store.ToggleEffect(w.rows, id))
  }

  /** Tab (next) and Shift-Tab (previous): the cursor moves, or the underflow on an empty list panics */
  predicate CursorStep(shift: bool, w: World, w2: World, r: Outcome) {
    w2.log == w.log && w2.rows == w.rows && w2.todos == w.todos
    && (shift ==>
          if State.PreviousDefined(w.selected, |w.todos|)
          then r == Done && w2.selected == Some(State.PreviousIndex(w.selected, |w.todos|))
          else r == Panicked && w2.selected == w.selected)
    && (!shift ==>
          if State.NextDefined(w.selected, |w.todos|)
          then r == Done && w2.selected == Some(State.NextIndex(w.selected, |w.todos|))
          else r == Panicked && w2.selected == w.selected)
  }

  /** The key touched neither the list nor the service, and the handler ended normally */
  predicate Quiet(w: World, w2: World, r: Outcome) {
    r == Done && w2.log == w.log && w2.rows == w.rows && ListKept(w, w2)
  }

  /** What search_events does with a key: the view before and after, the call log before and after, and the
      table it searches */
  predicate SearchStep(key: KeyEvent, v: State.AppView, v2: State.AppView, log: seq<Store.Call>,
                       log2: seq<Store.Call>, rows: seq<Todo>, r: Outcome) {
    r != Panicked
    && (!key.code.Enter? ==> r == Done && log2 == log)
    && match key.code
       case Esc => v2 == v.(focusedWidget := Nav.Main, mainContentShown := Nav.Daylist)
       case Char(c) => v2 == v.(searchString := v.searchString + [c])
       case Backspace => v2 == v.(searchString := Edit.Pop(v.searchString))
       case Enter =>
         log2 == log + [Store.SearchCall(v.searchString)]
         && (r == Done ==>
               v2 == v.(searchResults := Store.Matching(rows, v.searchString), mainContentShown := Nav.SearchResults))
         && (r == Failed ==> v2 == v)
       case Up | Down | Left | Right =>
         v2 == v.(focusedWidget := Nav.Move(v.focusedWidget, ArrowKey(key.code).value))
       case _ => v2 == v
  }

  /** What default_events does with a key: quit on q, Q or Esc, or move the focus */
  predicate DefaultStep(key: KeyEvent, v: State.AppView, v2: State.AppView) {
    match key.code
    case Char('q') | Char('Q') | Esc => v2 == v.(running := false)
    case Char('k') | Char('j') | Char('h') | Char('l') | Up | Down | Left | Right =>
      v2 == v.(focusedWidget := Nav.Move(v.focusedWidget, KeyArrow(key.code)))
    case _ => v2 == v
  }

  /** What list_events does with a key; the form, the id counter and the clock are never touched */
  predicate ListStep(key: KeyEvent, w: World, w2: World, r: Outcome) {
    w2.form == w.form && w2.nextId == w.nextId && w2.now == w.now
    && match key.code
       case Char('q') | Char('Q') => Quiet(w, w2, r) && w2.view == w.view.(running := false)
       case Esc => Quiet(w, w2, r) && w2.view == w.view.(mainContentShown := Nav.Daylist)
       case Char('L') =>
         w2.view == w.view && r != Panicked && w2.rows == w.rows && w2.log == w.log + [Fetch(w2.view)]
         && Reloaded(w, w2, r)
       case Char('n') =>
         Quiet(w, w2, r) && w2.view == w.view.(editAction := Edit.Create,
           focusedWidget := Nav.Widget.EditTodo, mainContentShown := Nav.Content.EditTodo)
       case Char('e') =>
         Quiet(w, w2, r) && w2.view == w.view.(editAction := Edit.Update,
           focusedWidget := Nav.Widget.EditTodo, mainContentShown := Nav.Content.EditTodo)
       case Tab => w2.view == w.view && CursorStep(key.shift, w, w2, r)
       case Char('d') => w2.view == w.view && SelectedCallThenReload(w, w2, r, false)
       case Char('X') => w2.view == w.view && SelectedCallThenReload(w, w2, r, true)
       case Char('k') | Char('j') | Char('h') | Char('l') | Up | Down | Left | Right =>
         Quiet(w, w2, r) && w2.view == w.view.(focusedWidget := Nav.Move(w.view.focusedWidget, KeyArrow(key.code)))
       case _ => r == Done && w2 == w
  }

  /** What edit_events does with a key; the clock is never touched and nothing panics */
  predicate EditStep(key: KeyEvent, w: World, w2: World, r: Outcome) {
    w2.now == w.now && r != Panicked
    && (!key.code.Enter? ==> Quiet(w, w2, r) && w2.nextId == w.nextId)
    && match key.code
       case Esc =>
         w2.view == w.view.(mainContentShown := Nav.Daylist, focusedWidget := Nav.Main)
         && w2.form == Edit.Cleared(w.form)
       case Backspace => w2.view == w.view && w2.form == Edit.Erase(w.form)
       case Char(c) => w2.view == w.view && w2.form == Edit.TypeChar(w.form, c)
       case Up | Down | Left | Right =>
         w2.view == w.view.(focusedWidget := Nav.Move(w.view.focusedWidget, ArrowKey(key.code).value))
         && w2.form == w.form
       case Enter =>
         if w.form.selection != Edit.Priority then
           // before the last field: the pointer moves on, then the list is reloaded
           w2.view == w.view && w2.form == w.form.(selection := Edit.Advance(w.form.selection).value)
           && w2.rows == w.rows && w2.nextId == w.nextId
           && w2.log == w.log + [Fetch(w2.view)] && Reloaded(w, w2, r)
         else
           // on Priority: the form is reset before the insert; for either action the record goes to create_todo
           var t := Edit.Record(w.form);
           w2.form == Edit.Blank()
           && ((r == Failed && w2.log == w.log + [Store.CreateCall(t)] && w2.rows == w.rows
                && w2.nextId == w.nextId && w2.view == w.view && ListKept(w, w2))
               || (w2.log == w.log + [Store.CreateCall(t), Fetch(w2.view)]
                   && w2.rows == w.rows + [Store.Stored(t, w.nextId, w.now)] && w2.nextId == w.nextId + 1
                   && w2.view == w.view.(mainContentShown := Nav.Daylist, focusedWidget := Nav.Main)
                   && Reloaded(w, w2, r)))
       case _ => w2.view == w.view && w2.form == w.form
  }

  // ------------------------------------------------------------ the reload

  /** The reload after a change: a fetch with the state's offset and limit, then `set_todos`; on success
      the list holds the whole table and the cursor is cleared; on failure the list is as it was */
  method Reload(app: State.AppState, list: State.TodoList, db: Store.Db) returns (r: Outcome)
    modifies list, db`log
    ensures r != Panicked
    ensures db.log == old(db.log) + [Fetch(app.View())]
    ensures r == Done ==> list.todos == db.rows && list.selected == None
    ensures r == Failed ==> list.todos == old(list.todos) && list.selected == old(list.selected)
  {
    var fetched := db.FetchTodos(app.todoItemsOffset, app.todoItemsLimit);
    if fetched.Err? {
      return Failed;
    }
    list.SetTodos(fetched.value);
    return Done;
  }

  // ------------------------------------------------------------ search mode

  /** search_events: typing into the search box, submitting the search, leaving, or moving the focus */
  method SearchEvents(key: KeyEvent, app: State.AppState, db: Store.Db) returns (r: Outcome)
    modifies app, db`log
    ensures SearchStep(key, old(app.View()), app.View(), old(db.log), db.log, db.rows, r)
  {
    r := Done;
    match key.code {
      case Esc =>
        app.focusedWidget := Nav.Main;
        app.mainContentShown := Nav.Daylist;
      case Char(c) =>
        app.searchString := app.searchString + [c];
      case Backspace =>
        app.searchString := Edit.Pop(app.searchString);
      case Enter =>
        var found := db.Search(app.searchString);
        if found.Err? {
          return Failed;
        }
        app.searchResults := found.value;
        app.mainContentShown := Nav.SearchResults;
      case Up =>
        app.focusedWidget := Nav.Up(app.focusedWidget);
      case Down =>
        app.focusedWidget := Nav.Down(app.focusedWidget);
      case Left =>
        app.focusedWidget := Nav.Left(app.focusedWidget);
      case Right =>
        app.focusedWidget := Nav.Right(app.focusedWidget);
      case _ =>
    }
  }

  // ----------------------------------------------------- the other panels

  /** default_events: quit, or move the focus with the arrows and the vim letters; nothing calls the service */
  method DefaultEvents(key: KeyEvent, app: State.AppState)
    modifies app
    ensures DefaultStep(key, old(app.View()), app.View())
  {
    match key.code {
      case Char('q') => app.Exit();
      case Char('Q') => app.Exit();
      case Esc => app.Exit();
      case Char('k') => app.focusedWidget := Nav.Up(app.focusedWidget);
      case Char('j') => app.focusedWidget := Nav.Down(app.focusedWidget);
      case Char('h') => app.focusedWidget := Nav.Left(app.focusedWidget);
      case Char('l') => app.focusedWidget := Nav.Right(app.focusedWidget);
      case Up => app.focusedWidget := Nav.Up(app.focusedWidget);
      case Down => app.focusedWidget := Nav.Down(app.focusedWidget);
      case Left => app.focusedWidget := Nav.Left(app.focusedWidget);
      case Right => app.focusedWidget := Nav.Right(app.focusedWidget);
      case _ =>
    }
  }

  // -------------------------------------------------------------- list mode

  /** Tab and Shift-Tab in list mode: the cursor moves by next() or previous(), which underflow on an empty
      list with a cursor set (at index 0 for previous()) */
  method MoveCursor(shift: bool, list: State.TodoList) returns (r: Outcome)
    modifies list`selected
    ensures r != Failed
    ensures shift ==>
              if old(list.CanPrevious())
              then r == Done && list.selected == Some(State.PreviousIndex(old(list.selected), |list.todos|))
              else r == Panicked && list.selected == old(list.selected)
    ensures !shift ==>
              if old(list.CanNext())
              then r == Done && list.selected == Some(State.NextIndex(old(list.selected), |list.todos|))
              else r == Panicked && list.selected == old(list.selected)
  {
    if shift {
      if !list.CanPrevious() {
        return Panicked;
      }
      list.Previous();
    } else {
      if !list.CanNext() {
        return Panicked;
      }
      list.Next();
    }
    return Done;
  }

  /** d (toggle) or X (delete) in list mode: the call with the selected id (with none it only alerts), then
      the reload; get_selected_id panics on a cursor past the end */
  method ChangeSelected(delete: bool, app: State.AppState, list: State.TodoList, db: Store.Db) returns (r: Outcome)
    requires db.Valid()
    modifies list, db`rows, db`log
    ensures db.Valid()
    ensures SelectedCallThenReload(old(Snapshot(app, list, db)), Snapshot(app, list, db), r, delete)
  {
    if !list.CanGetSelectedId() {
      return Panicked;
    }
    var ok;
    if delete {
      ok := db.DeleteTodo(list.GetSelectedId());
    } else {
      ok := db.ToggleTodoStatus(list.GetSelectedId());
    }
    if !ok {
      return Failed;
    }
    r := Reload(app, list, db);
  }

  /** q, Q, Esc, n and e in list mode: quit, go home, or open the edit form to create or to update */
  method ListModeKey(key: KeyEvent, app: State.AppState, list: State.TodoList, db: Store.Db) returns (r: Outcome)
    requires key.code in {Char('q'), Char('Q'), Esc, Char('n'), Char('e')}
    modifies app
    ensures ListStep(key, old(Snapshot(app, list, db)), Snapshot(app, list, db), r)
  {
    r := Done;
    match key.code {
      case Char('q') => app.Exit();
      case Char('Q') => app.Exit();
      case Esc => app.mainContentShown := Nav.Daylist;
      case Char('n') =>
        app.editAction := Edit.Create;
        app.focusedWidget := Nav.Widget.EditTodo;
        app.mainContentShown := Nav.Content.EditTodo;
      case Char('e') =>
        app.editAction := Edit.Update;
        app.focusedWidget := Nav.Widget.EditTodo;
        app.mainContentShown := Nav.Content.EditTodo;
    }
  }

  /** The other keys of list_events that touch neither the list nor the service: the arrows and the vim
      letters move the focus, and any key list mode does not bind changes nothing */
  method ListFocusKey(key: KeyEvent, app: State.AppState, list: State.TodoList, db: Store.Db) returns (r: Outcome)
    requires key.code !in {Char('q'), Char('Q'), Esc, Char('n'), Char('e'), Char('L'), Tab, Char('d'), Char('X')}
    modifies app`focusedWidget
    ensures ListStep(key, old(Snapshot(app, list, db)), Snapshot(app, list, db), r)
  {
    r := Done;
    match key.code {
      case Char('k') => app.focusedWidget := Nav.Up(app.focusedWidget);
      case Char('j') => app.focusedWidget := Nav.Down(app.focusedWidget);
      case Char('h') => app.focusedWidget := Nav.Left(app.focusedWidget);
      case Char('l') => app.focusedWidget := Nav.Right(app.focusedWidget);
      case Up => app.focusedWidget := Nav.Up(app.focusedWidget);
      case Down => app.focusedWidget := Nav.Down(app.focusedWidget);
      case Left => app.focusedWidget := Nav.Left(app.focusedWidget);
      case Right => app.focusedWidget := Nav.Right(app.focusedWidget);
      case _ =>
    }
  }

  /** list_events: quit, go home, reload, open the edit form, move the cursor, complete or delete the
      selected record, or move the focus */
  method ListEvents(key: KeyEvent, app: State.AppState, list: State.TodoList, db: Store.Db) returns (r: Outcome)
    requires db.Valid()
    modifies app, list, db`rows, db`log
    ensures db.Valid()
    ensures ListStep(key, old(Snapshot(app, list, db)), Snapshot(app, list, db), r)
  {
    match key.code {
      case Char('L') => r := Reload(app, list, db);
      case Tab => r := MoveCursor(key.shift, list);
      case Char('d') => r := ChangeSelected(false, app, list, db);
      case Char('X') => r := ChangeSelected(true, app, list, db);
      case Char('q') | Char('Q') | Esc | Char('n') | Char('e') => r := ListModeKey(key, app, list, db);
      case _ => r := ListFocusKey(key, app, list, db);
    }
  }

  // -------------------------------------------------------------- edit mode

  /** Backspace on the form: pops the current text field, or sets priority 0 */
  method EraseField(e: Edit.EditTodo)
    modifies e
    ensures e.Value() == Edit.Erase(old(e.Value()))
  {
    match e.selection {
      case Name => e.name := Edit.Pop(e.name);
      case Description => e.description := Edit.Pop(e.description);
      case DateDue => e.dateDue := Edit.Pop(e.dateDue);
      case ReminderDate => e.reminderDate := Edit.Pop(e.reminderDate);
      case Priority => e.priority := 0;
    }
  }

  /** A character on the form: appended to the current text field, or read as a priority */
  method TypeIntoField(e: Edit.EditTodo, c: char)
    modifies e
    ensures e.Value() == Edit.TypeChar(old(e.Value()), c)
  {
    match e.selection {
      case Name => e.name := e.name + [c];
      case Description => e.description := e.description + [c];
      case DateDue => e.dateDue := e.dateDue + [c];
      case ReminderDate => e.reminderDate := e.reminderDate + [c];
      case Priority => e.priority := Edit.PriorityKey(c);
    }
  }

  /** Esc on the form: home to the list, and the texts and priority cleared in place (the pointer stays) */
  method ClearForm(app: State.AppState)
    modifies app, app.edit
    ensures app.View() == old(app.View()).(mainContentShown := Nav.Daylist, focusedWidget := Nav.Main)
    ensures app.edit.Value() == Edit.Cleared(old(app.edit.Value()))
  {
    app.mainContentShown := Nav.Daylist;
    app.focusedWidget := Nav.Main;
    app.edit.name := [];
    app.edit.description := [];
    app.edit.dateDue := [];
    app.edit.reminderDate := [];
    app.edit.priority := Edit.DefaultPriority;
  }

  /** Enter on the form, up to the reload: the pointer moves on, or on Priority the record built for either
      action is handed to create_todo (after the form has been reset) and the view goes home */
  method AdvanceOrSubmit(app: State.AppState, db: Store.Db) returns (ok: bool)
    requires db.Valid()
    modifies app, app.edit, db`rows, db`nextId, db`log
    ensures db.Valid()
    ensures old(app.edit.selection) != Edit.Priority ==>
              ok && app.View() == old(app.View()) && db.log == old(db.log) && db.rows == old(db.rows)
              && db.nextId == old(db.nextId)
              && app.edit.Value() == old(app.edit.Value()).(selection := Edit.Advance(old(app.edit.selection)).value)
    ensures old(app.edit.selection) == Edit.Priority ==>
              var t := Edit.Record(old(app.edit.Value()));
              app.edit.Value() == Edit.Blank()
              && db.log == old(db.log) + [Store.CreateCall(t)]
              && (!ok ==> db.rows == old(db.rows) && app.View() == old(app.View()))
              && (!ok ==> db.nextId == old(db.nextId))
              && (ok ==> db.rows == old(db.rows) + [Store.Stored(t, old(db.nextId), db.now)]
                         && db.nextId == old(db.nextId) + 1
                         && app.View() == old(app.View()).(mainContentShown := Nav.Daylist, focusedWidget := Nav.Main))
  {
    var e := app.edit;
    match e.selection {
      case Name => e.selection := Edit.Description;
      case Description => e.selection := Edit.DateDue;
      case DateDue => e.selection := Edit.ReminderDate;
      case ReminderDate => e.selection := Edit.Priority;
      case Priority =>
        var t: Todo;
        match app.editAction {
          case Create => t := e.NewTodo();
          case Update => t := e.UpdateTodo();
        }
        ok := db.CreateTodo(t);
        if !ok {
          return;
        }
        app.mainContentShown := Nav.Daylist;
        app.focusedWidget := Nav.Main;
    }
    ok := true;
  }

  /** The keys of edit_events other than Enter: they change only the view and the form */
  method EditFormKey(key: KeyEvent, app: State.AppState, list: State.TodoList, db: Store.Db) returns (r: Outcome)
    requires !key.code.Enter?
    modifies app, app.edit
    ensures EditStep(key, old(Snapshot(app, list, db)), Snapshot(app, list, db), r)
  {
    r := Done;
    match key.code {
      case Esc => ClearForm(app);
      case Backspace => EraseField(app.edit);
      case Char(c) => TypeIntoField(app.edit, c);
      case Up => app.focusedWidget := Nav.Up(app.focusedWidget);
      case Down => app.focusedWidget := Nav.Down(app.focusedWidget);
      case Left => app.focusedWidget := Nav.Left(app.focusedWidget);
      case Right => app.focusedWidget := Nav.Right(app.focusedWidget);
      case _ =>
    }
  }

  /** edit_events: clear the form, edit the current field, advance or submit with Enter (then reload the
      list), or move the focus */
  method EditEvents(key: KeyEvent, app: State.AppState, list: State.TodoList, db: Store.Db) returns (r: Outcome)
    requires db.Valid()
    modifies app, app.edit, list, db`rows, db`nextId, db`log
    ensures db.Valid()
    ensures EditStep(key, old(Snapshot(app, list, db)), Snapshot(app, list, db), r)
  {
    if !key.code.Enter? {
      r := EditFormKey(key, app, list, db);
      return;
    }
    var ok := AdvanceOrSubmit(app, db);
    if !ok {
      return Failed;
    }
    r := Reload(app, list, db);
  }
}
