/** The controller part of the run loop (src/view/render.rs): the exit check at the top of each iteration,
    the bounds update, key events routed to a handler chosen by focus, the mouse-down hit test, and the
    choice of keybind row and highlighted panel in show_focused_widget. Drawing is not part of this model. */
module Render {
  import opened Input
  import Nav
  import State
  import Store
  import Handle
  import Edit

  // -------------------------------------------------------------- routing

  /** The four key handlers */
  datatype Handler = SearchHandler | ListHandler | EditHandler | DefaultHandler

  /** The handler a key event goes to: search mode, list mode and edit mode by their regions, and the
      default handler for the calendar, the upcoming list and the projects */
  function HandlerFor(w: Nav.Widget): (h: Handler)
    ensures h == SearchHandler <==> w == Nav.Search
    ensures h == ListHandler <==> w == Nav.Main
    ensures h == EditHandler <==> w == Nav.Widget.EditTodo
    ensures h == DefaultHandler <==> w in {Nav.Calendar, Nav.Upcoming, Nav.Projects}
  {
    match w
    case Search => SearchHandler
    case Main => ListHandler
    case EditTodo => EditHandler
    case _ => DefaultHandler
  }

  // ----------------------------------------------------------- hit testing

  /** Whether a cell lies in the half-open rectangle [x, x + width) by [y, y + height); only a rectangle of
      positive width and height has such a cell, at or after its corner */
  predicate Within(b: State.Rect, column: int, row: int)
    ensures Within(b, column, row) ==> b.width > 0 && b.height > 0 && b.x <= column && b.y <= row
  {
    b.x <= column < b.x + b.width && b.y <= row < b.y + b.height
  }

  /** The focus after a mouse event: a button press in the main area focuses the list, one in the search box
      focuses search, and every other event keeps the focus. The main area is tested second and so wins. */
  function ClickFocus(focus: Nav.Widget, kind: MouseKind, column: int, row: int,
                      search: State.Rect, main: State.Rect): (w: Nav.Widget)
    ensures kind != MouseDown ==> w == focus
    ensures kind == MouseDown && Within(main, column, row) ==> w == Nav.Main
    ensures kind == MouseDown && Within(search, column, row) && !Within(main, column, row) ==> w == Nav.Search
    ensures !Within(search, column, row) && !Within(main, column, row) ==> w == focus
  {
    if kind != MouseDown then focus
    else
      var afterSearch := if Within(search, column, row) then Nav.Search else focus;
      if Within(main, column, row) then Nav.Main else afterSearch
  }

  /** An empty rectangle, such as the bounds before the first update, is never hit */
  lemma EmptyRectIsNeverHit(b: State.Rect, column: int, row: int)
    requires b.width == 0 || b.height == 0
    ensures !Within(b, column, row)
  {
  }

  /** Two rectangles stacked one above the other share no cell: the shared edge row belongs to the lower one */
  lemma StackedRectsAreDisjoint(upper: State.Rect, lower: State.Rect, column: int, row: int)
    requires upper.y + upper.height == lower.y
    ensures !(Within(upper, column, row) && Within(lower, column, row))
    ensures Within(lower, column, lower.y) ==> !Within(upper, column, lower.y)
  {
  }

  /** A click never opens the edit form; only a focus already on it can stay there */
  lemma ClickNeverOpensForm(focus: Nav.Widget, kind: MouseKind, column: int, row: int,
                            search: State.Rect, main: State.Rect)
    ensures ClickFocus(focus, kind, column, row, search, main) == Nav.Widget.EditTodo ==> focus == Nav.Widget.EditTodo
  {
  }

  /** A click in the search box leaves the edit form, so typed characters go to the search string from then on */
  lemma ClickLeavesForm(kind: MouseKind, column: int, row: int, search: State.Rect, main: State.Rect)
    requires kind == MouseDown && Within(search, column, row)
    ensures HandlerFor(ClickFocus(Nav.Widget.EditTodo, kind, column, row, search, main)) in {SearchHandler, ListHandler}
  {
  }

  // ------------------------------------------------------- keybind display

  const DefaultKeybinds: seq<string> := ["q|Quit", "Esc|Home", "n|New", "e|Edit", "d|Complete todo",
                                         "X|Delete todo", "L|List todos", "Tab|Navigate Todos"]
  const SearchKeybinds: seq<string> := ["Esc|Home", "d|Complete todo", "e|Edit", "X|Delete todo",
                                        "Tab|Navigate Todos", "Enter|Search!"]
  const CalendarKeybinds: seq<string> := ["q|Quit", "Esc|Home", "n|New", "Tab|Navigate Todos",
                                          "Arrows|Navigate Calendar"]
  const UpcomingKeybinds: seq<string> := ["q|Quit", "Esc|Home", "n|New", "e|Edit", "d|Complete todo",
                                          "X|Delete todo", "L|List todos", "Tab|Navigate Todos"]
  const ProjectsKeybinds: seq<string> := ["q|Quit", "Esc|Home", "n|New", "X|Delete", "e|Edit",
                                          "Tab|Navigate Projects"]

  /** The keybind row for a focus: the upcoming list's row is the default row under another name, and
      only the search box leaves out "q|Quit" */
  function Keybinds(w: Nav.Widget): (r: seq<string>)
    ensures r == DefaultKeybinds <==> w in {Nav.Main, Nav.Widget.EditTodo, Nav.Upcoming}
    ensures w == Nav.Search ==> r == SearchKeybinds
    ensures w == Nav.Calendar ==> r == CalendarKeybinds
    ensures w == Nav.Projects ==> r == ProjectsKeybinds
    ensures "q|Quit" in r <==> w != Nav.Search
  {
    match w
    case Search => SearchKeybinds
    case Calendar => CalendarKeybinds
    case Upcoming => UpcomingKeybinds
    case Projects => ProjectsKeybinds
    case _ => DefaultKeybinds
  }

  /** The panel drawn highlighted: the focused one, and the list while the edit form has focus */
  function Highlighted(w: Nav.Widget): (r: Nav.Widget)
    ensures Nav.Navigable(r)
    ensures Nav.Navigable(w) ==> r == w
  {
    if w == Nav.Widget.EditTodo then Nav.Main else w
  }

  /** show_focused_widget: the keybind row and the highlighted panel follow the focus */
  method ShowFocusedWidget(app: State.AppState, layout: State.LayoutState)
    modifies layout`keybinds, layout`highlighted
    ensures layout.keybinds == Keybinds(app.focusedWidget)
    ensures layout.highlighted == Highlighted(app.focusedWidget)
  {
    var current := DefaultKeybinds;
    match app.focusedWidget {
      case Main =>
        layout.highlighted := Nav.Main;
      case Search =>
        layout.highlighted := Nav.Search;
        current := SearchKeybinds;
      case Calendar =>
        layout.highlighted := Nav.Calendar;
        current := CalendarKeybinds;
      case Upcoming =>
        layout.highlighted := Nav.Upcoming;
        current := UpcomingKeybinds;
      case Projects =>
        layout.highlighted := Nav.Projects;
        current := ProjectsKeybinds;
      case EditTodo =>
        layout.highlighted := Nav.Main;
    }
    layout.keybinds := current;
  }

  /** While the edit form has focus the row offers "q|Quit", yet q goes to the edit handler, which types it
      into the current field instead of quitting */
  lemma EditFormOffersQuit()
    ensures "q|Quit" in Keybinds(Nav.Widget.EditTodo)
    ensures HandlerFor(Nav.Widget.EditTodo) == EditHandler
    ensures Handle.QuitKey(Char('q'))
    ensures forall w, w2, r :: Handle.EditStep(KeyEvent(Char('q'), false), w, w2, r) ==>
              w2.view == w.view && w2.form == Edit.TypeChar(w.form, 'q')
  {
  }

  // ------------------------------------------------------------- the loop

  /** One event of the loop body, as a relation between the world before and after it and the handler's
      outcome: a key goes to the handler the focus before it selects, a button press moves the focus by the
      hit test against the search and main bounds, and a resize or any other event changes nothing */
  predicate Step(event: Event, search: State.Rect, main: State.Rect, w: Handle.World, w2: Handle.World,
                 r: Handle.Outcome) {
    match event
    case Key(key) =>
      (match HandlerFor(w.view.focusedWidget)
       case SearchHandler =>
         Handle.SearchStep(key, w.view, w2.view, w.log, w2.log, w.rows, r) && w2 == w.(view := w2.view, log := w2.log)
       case ListHandler => Handle.ListStep(key, w, w2, r)
       case EditHandler => Handle.EditStep(key, w, w2, r)
       case DefaultHandler => r == Handle.Done && Handle.DefaultStep(key, w.view, w2.view) && w2 == w.(view := w2.view))
    case Mouse(kind, column, row) =>
      r == Handle.Done
      && w2 == w.(view := w.view.(focusedWidget := ClickFocus(w.view.focusedWidget, kind, column, row, search, main)))
    case _ => r == Handle.Done && w2 == w
  }

  /** The keys that clear the running flag: q and Q in list mode, and q, Q and Esc on the other panels */
  predicate QuitEvent(event: Event, focus: Nav.Widget) {
    event.Key?
    && match HandlerFor(focus)
       case ListHandler => Handle.QuitKey(event.key.code)
       case DefaultHandler => Handle.QuitKey(event.key.code) || event.key.code.Esc?
       case _ => false
  }

  /** Only a quit key stops the application; the search box and the edit form take q as text */
  lemma {:induction false} OnlyQuitStops(event: Event, search: State.Rect, main: State.Rect, w: Handle.World,
                                         w2: Handle.World, r: Handle.Outcome)
    requires Step(event, search, main, w, w2, r)
    ensures w.view.running && !w2.view.running <==> w.view.running && QuitEvent(event, w.view.focusedWidget)
  {
    if event.Key? {
      var code := event.key.code;
      match HandlerFor(w.view.focusedWidget) {
        case SearchHandler =>
          assert w2.view.running == w.view.running by {
            match code {
              case Enter =>
              case _ =>
            }
          }
        case ListHandler =>
        case EditHandler =>
          assert w2.view.running == w.view.running by {
            match code {
              case Enter =>
                if w.form.selection == Edit.Priority {
                } else {
                }
              case _ =>
            }
          }
        case DefaultHandler =>
      }
    }
  }

  /** Only a key event reaches the service, and only the edit handler changes the form */
  lemma {:induction false} RoutedEffects(event: Event, search: State.Rect, main: State.Rect, w: Handle.World,
                                         w2: Handle.World, r: Handle.Outcome)
    requires Step(event, search, main, w, w2, r)
    ensures w2.log != w.log ==> event.Key? && HandlerFor(w.view.focusedWidget) != DefaultHandler
    ensures w2.form != w.form ==> event.Key? && HandlerFor(w.view.focusedWidget) == EditHandler
  {
    if event.Key? && HandlerFor(w.view.focusedWidget) == ListHandler {
      assert w2.form == w.form;
    }
  }

  /** Only a handler that ends normally can clear the running flag, so a failed or panicked step leaves it */
  lemma FailureKeepsRunning(event: Event, search: State.Rect, main: State.Rect, w: Handle.World, w2: Handle.World,
                            r: Handle.Outcome)
    requires Step(event, search, main, w, w2, r) && r != Handle.Done
    ensures w2.view.running == w.view.running
  {
    if w.view.running && !w2.view.running {
      OnlyQuitStops(event, search, main, w, w2, r);
    }
  }

  /** One iteration's dispatch: the event goes where Step says, with the bounds of the last update */
  method Dispatch(event: Event, app: State.AppState, list: State.TodoList, db: Store.Db, layout: State.LayoutState)
    returns (r: Handle.Outcome)
    requires db.Valid()
    modifies app, app.edit, list, db`rows, db`nextId, db`log
    ensures db.Valid()
    ensures Step(event, layout.searchBounds, layout.mainBounds, old(Handle.Snapshot(app, list, db)),
                 Handle.Snapshot(app, list, db), r)
  {
    r := Handle.Done;
    match event {
      case Key(key) =>
        match HandlerFor(app.focusedWidget) {
          case SearchHandler => r := Handle.SearchEvents(key, app, db);
          case ListHandler => r := Handle.ListEvents(key, app, list, db);
          case EditHandler => r := Handle.EditEvents(key, app, list, db);
          case DefaultHandler => Handle.DefaultEvents(key, app);
        }
      case Mouse(kind, column, row) =>
        if kind == MouseDown {
          if Within(layout.searchBounds, column, row) {
            app.focusedWidget := Nav.Search;
          }
          if Within(layout.mainBounds, column, row) {
            app.focusedWidget := Nav.Main;
          }
        }
      case Resize(_, _) =>
      case OtherEvent =>
    }
  }

  /** Why the loop stopped: the exit flag, no further event (a failed read), a service error, or a panic */
  datatype RunEnd = Exited | ReadFailed | HandlerFailed | HandlerPanicked

  /** The bounds the mouse is tested against are the rectangles of the current split */
  ghost predicate BoundsFollowColumns(layout: State.LayoutState)
    reads layout
  {
    |layout.centerColumn| >= 2 && |layout.rightColumn| >= 2
    && layout.searchBounds == layout.centerColumn[0] && layout.mainBounds == layout.centerColumn[1]
    && layout.upcomingBounds == layout.rightColumn[0] && layout.calendarBounds == layout.rightColumn[1]
  }

  /** The i-th consumed event is one Step from a world whose running flag is set */
  predicate StepAt(events: seq<Event>, search: State.Rect, main: State.Rect, trace: seq<Handle.World>,
                   outcomes: seq<Handle.Outcome>, i: nat)
    requires i < |outcomes| <= |events| && |trace| == |outcomes| + 1
  {
    trace[i].view.running && Step(events[i], search, main, trace[i], trace[i + 1], outcomes[i])
  }

  /** `trace` holds the world before each consumed event and after the last one, `outcomes` each handler's
      outcome, and every consumed event is one step between consecutive worlds */
  predicate Traced(events: seq<Event>, search: State.Rect, main: State.Rect, trace: seq<Handle.World>,
                   outcomes: seq<Handle.Outcome>) {
    |outcomes| <= |events| && |trace| == |outcomes| + 1
    && forall i: nat :: i < |outcomes| ==> StepAt(events, search, main, trace, outcomes, i)
  }

  /** A trace grows by one step taken from its last world */
  lemma TracedExtend(events: seq<Event>, search: State.Rect, main: State.Rect, trace: seq<Handle.World>,
                     outcomes: seq<Handle.Outcome>, w: Handle.World, r: Handle.Outcome)
    requires Traced(events, search, main, trace, outcomes) && |outcomes| < |events|
    requires trace[|outcomes|].view.running && Step(events[|outcomes|], search, main, trace[|outcomes|], w, r)
    ensures Traced(events, search, main, trace + [w], outcomes + [r])
  {
    var trace2, outcomes2 := trace + [w], outcomes + [r];
    forall i: nat | i < |outcomes2|
      ensures StepAt(events, search, main, trace2, outcomes2, i)
    {
      if i < |outcomes| {
        assert StepAt(events, search, main, trace, outcomes, i);
        assert trace2[i] == trace[i] && trace2[i + 1] == trace[i + 1] && outcomes2[i] == outcomes[i];
      }
    }
  }

  /** A run that stopped with the running flag clear stopped at a quit key, taken while it was set */
  lemma TracedStopIsQuit(events: seq<Event>, search: State.Rect, main: State.Rect, trace: seq<Handle.World>,
                         outcomes: seq<Handle.Outcome>)
    requires Traced(events, search, main, trace, outcomes) && |outcomes| > 0 && !trace[|outcomes|].view.running
    ensures outcomes[|outcomes| - 1] == Handle.Done
    ensures QuitEvent(events[|outcomes| - 1], trace[|outcomes| - 1].view.focusedWidget)
  {
    var n := |outcomes| - 1;
    assert StepAt(events, search, main, trace, outcomes, n);
    OnlyQuitStops(events[n], search, main, trace[n], trace[n + 1], outcomes[n]);
    if outcomes[n] != Handle.Done {
      FailureKeepsRunning(events[n], search, main, trace[n], trace[n + 1], outcomes[n]);
    }
  }

  /** One turn of the loop after the exit check and the bounds update: the next event is dispatched and the
      trace grows by that step. A failed or panicked handler leaves the running flag set. */
  method Turn(events: seq<Event>, consumed: nat, app: State.AppState, list: State.TodoList, db: Store.Db, layout: State.LayoutState,
              ghost search: State.Rect, ghost main: State.Rect, ghost trace: seq<Handle.World>,
              ghost outcomes: seq<Handle.Outcome>)
    returns (r: Handle.Outcome, ghost trace2: seq<Handle.World>, ghost outcomes2: seq<Handle.Outcome>)
    requires db.Valid() && app.running && consumed == |outcomes| < |events|
    requires search == layout.searchBounds && main == layout.mainBounds
    requires Traced(events, search, main, trace, outcomes)
    requires trace[consumed] == Handle.Snapshot(app, list, db)
    modifies app, app.edit, list, db`rows, db`nextId, db`log
    ensures db.Valid()
    ensures trace2 == trace + [Handle.Snapshot(app, list, db)] && outcomes2 == outcomes + [r]
    ensures Traced(events, search, main, trace2, outcomes2)
    ensures r != Handle.Done ==> app.running
  {
    var event := events[consumed];
    r := Dispatch(event, app, list, db, layout);
    ghost var w := Handle.Snapshot(app, list, db);
    TracedExtend(events, layout.searchBounds, layout.mainBounds, trace, outcomes, w, r);
    if r != Handle.Done {
      FailureKeepsRunning(event, layout.searchBounds, layout.mainBounds, trace[consumed], w, r);
    }
    trace2, outcomes2 := trace + [w], outcomes + [r];
  }

  /** The run loop over a given stream of events. The ghost `trace` holds the world before each event and
      after the last one, `outcomes` each handler's outcome: every consumed event is one Step from a running
      world, every step but the last ends normally, and the loop stops at the exit flag, at the end of the
      stream, or at the first failure or panic, which it reports */
  method Run(events: seq<Event>, app: State.AppState, list: State.TodoList, db: Store.Db, layout: State.LayoutState)
    returns (end: RunEnd, consumed: nat, ghost trace: seq<Handle.World>, ghost outcomes: seq<Handle.Outcome>)
    requires db.Valid()
    requires |layout.centerColumn| >= 2 && |layout.rightColumn| >= 2
    modifies app, app.edit, list, db`rows, db`nextId, db`log
    modifies layout`searchBounds, layout`mainBounds, layout`upcomingBounds, layout`calendarBounds
    ensures db.Valid()
    ensures |outcomes| == consumed && Traced(events, layout.centerColumn[0], layout.centerColumn[1], trace, outcomes)
    ensures trace[0] == old(Handle.Snapshot(app, list, db)) && trace[consumed] == Handle.Snapshot(app, list, db)
    ensures forall i :: 0 <= i < consumed - 1 ==> outcomes[i] == Handle.Done
    ensures end == Exited <==> !app.running
    ensures end == Exited && consumed > 0 ==> outcomes[consumed - 1] == Handle.Done
    ensures end == ReadFailed ==> consumed == |events| && (consumed == 0 || outcomes[consumed - 1] == Handle.Done)
    ensures end == HandlerFailed <==> consumed > 0 && outcomes[consumed - 1] == Handle.Failed
    ensures end == HandlerPanicked <==> consumed > 0 && outcomes[consumed - 1] == Handle.Panicked
    ensures !old(app.running) ==> end == Exited && consumed == 0
    ensures old(app.running) ==> BoundsFollowColumns(layout)
  {
    ghost var search, main := layout.centerColumn[0], layout.centerColumn[1];
    consumed := 0;
    trace := [Handle.Snapshot(app, list, db)];
    outcomes := [];
    while true
      invariant |outcomes| == consumed && Traced(events, search, main, trace, outcomes)
      invariant trace[0] == old(Handle.Snapshot(app, list, db)) && trace[consumed] == Handle.Snapshot(app, list, db)
      invariant forall i :: 0 <= i < consumed ==> outcomes[i] == Handle.Done
      invariant db.Valid()
      invariant consumed == 0 ==> app.running == old(app.running)
      invariant consumed > 0 ==> old(app.running)
      invariant consumed > 0 ==> BoundsFollowColumns(layout)
      decreases |events| - consumed
    {
      if !app.IsRunning() {
        return Exited, consumed, trace, outcomes;
      }
      layout.UpdateBounds();
      if consumed == |events| {
        return ReadFailed, consumed, trace, outcomes;
      }
      var r;
      r, trace, outcomes := Turn(events, consumed, app, list, db, layout, search, main, trace, outcomes);
      consumed := consumed + 1;
      if r == Handle.Failed {
        return HandlerFailed, consumed, trace, outcomes;
      } else if r == Handle.Panicked {
        return HandlerPanicked, consumed, trace, outcomes;
      }
    }
  }
}
