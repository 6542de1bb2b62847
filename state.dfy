/** Application state, the list cursor and the screen bounds used for mouse hits
    (src/controller/state.rs), with the application state in the shape the handlers of
    src/controller/handle.rs use: an owned edit form `edit` and an `editAction`. */
module State {
  import opened Schema
  import Nav
  import Edit

  // ------------------------------------------------------------ list cursor

  /** next() on a cursor is defined unless it computes len() - 1 on an empty list (a usize underflow) */
  predicate NextDefined(sel: Option<nat>, len: nat) {
    sel.Some? ==> len > 0
  }

  /** previous() is defined unless it computes len() - 1 on an empty list from index 0 */
  predicate PreviousDefined(sel: Option<nat>, len: nat) {
    sel == Some(0) ==> len > 0
  }

  /** The index next() selects: the one after the cursor, wrapping to 0 past the end, and 0 from no cursor */
  function NextIndex(sel: Option<nat>, len: nat): (i: nat)
    requires NextDefined(sel, len)
    ensures len > 0 ==> i < len
    ensures sel.None? ==> i == 0
    ensures sel.Some? && sel.value + 1 < len ==> i == sel.value + 1
    ensures sel.Some? && sel.value + 1 >= len ==> i == 0
  {
    match sel
    case None => 0
    case Some(j) => if j >= len - 1 then 0 else j + 1
  }

  /** The index previous() selects: the one before the cursor, wrapping to the last from 0,
      and 0 (not the last index) from no cursor */
  function PreviousIndex(sel: Option<nat>, len: nat): (i: nat)
    requires PreviousDefined(sel, len)
    ensures len > 0 && (sel.None? || sel.value < len) ==> i < len
    ensures sel.None? ==> i == 0
    ensures sel == Some(0) ==> i == len - 1
    ensures sel.Some? && sel.value > 0 ==> i == sel.value - 1
  {
    match sel
    case None => 0
    case Some(j) => if j == 0 then len - 1 else j - 1
  }

  /** A cursor that is unset or points into the list */
  predicate CursorValid(sel: Option<nat>, len: nat) {
    sel.Some? ==> sel.value < len
  }

  /** The cursor after a run of Tab (true: next) and Shift-Tab (false: previous) presses on a non-empty list */
  function Cursor(sel: Option<nat>, len: nat, presses: seq<bool>): Option<nat>
    requires len > 0
    decreases |presses|
  {
    if presses == [] then sel
    else Cursor(Some(if presses[0] then NextIndex(sel, len) else PreviousIndex(sel, len)), len, presses[1..])
  }

  /** On a non-empty list, any run of Tab and Shift-Tab keeps a valid cursor valid */
  lemma {:induction false} CursorStaysInRange(sel: Option<nat>, len: nat, presses: seq<bool>)
    requires len > 0 && CursorValid(sel, len)
    ensures CursorValid(Cursor(sel, len, presses), len)
    ensures presses != [] ==> Cursor(sel, len, presses).Some?
    decreases |presses|
  {
    if presses != [] {
      var next := Some(if presses[0] then NextIndex(sel, len) else PreviousIndex(sel, len));
      CursorStaysInRange(next, len, presses[1..]);
    }
  }

  /** next() and previous() undo each other on a valid cursor, at both ends included */
  lemma NextPreviousInverse(i: nat, len: nat)
    requires i < len
    ensures PreviousIndex(Some(NextIndex(Some(i), len)), len) == i
    ensures NextIndex(Some(PreviousIndex(Some(i), len)), len) == i
  {
  }

  /** k presses of Tab */
  function Tabs(k: nat): (r: seq<bool>)
    ensures |r| == k && forall j :: 0 <= j < k ==> r[j]
  {
    seq(k, _ => true)
  }

  /** Pressing one run of keys and then another is pressing their concatenation */
  lemma {:induction false} CursorAppend(sel: Option<nat>, len: nat, xs: seq<bool>, ys: seq<bool>)
    requires len > 0
    ensures Cursor(sel, len, xs + ys) == Cursor(Cursor(sel, len, xs), len, ys)
    decreases |xs|
  {
    if xs == [] {
      assert xs + ys == ys;
    } else {
      assert (xs + ys)[0] == xs[0];
      assert (xs + ys)[1..] == xs[1..] + ys;
      CursorAppend(Some(if xs[0] then NextIndex(sel, len) else PreviousIndex(sel, len)), len, xs[1..], ys);
    }
  }

  /** Tab moves a valid cursor forward one row at a time until the last row */
  lemma {:induction false} TabsAdvance(i: nat, len: nat, k: nat)
    requires i + k < len
    ensures Cursor(Some(i), len, Tabs(k)) == Some(i + k)
    decreases k
  {
    if k > 0 {
      assert Tabs(k)[1..] == Tabs(k - 1);
      TabsAdvance(i + 1, len, k - 1);
    }
  }

  /** len presses of Tab bring a valid cursor back to where it was, through the wrap from the last row to row 0 */
  lemma NextCycles(i: nat, len: nat)
    requires i < len
    ensures Cursor(Some(i), len, Tabs(len)) == Some(i)
  {
    var toLast, wrap, back := Tabs(len - 1 - i), Tabs(1), Tabs(i);
    assert Tabs(len) == toLast + wrap + back;
    CursorAppend(Some(i), len, toLast + wrap, back);
    CursorAppend(Some(i), len, toLast, wrap);
    TabsAdvance(i, len, len - 1 - i);
    assert Cursor(Some(len - 1), len, wrap) == Some(0);
    TabsAdvance(0, len, i);
  }

  /** The empty-list hazard: from no cursor, next() and previous() select index 0 of an empty list,
      and a second press then has no defined result (len() - 1 underflows) */
  lemma EmptyListHazard()
    ensures NextIndex(None, 0) == 0 && !CursorValid(Some(NextIndex(None, 0)), 0)
    ensures !NextDefined(Some(NextIndex(None, 0)), 0)
    ensures PreviousIndex(None, 0) == 0 && !PreviousDefined(Some(PreviousIndex(None, 0)), 0)
  {
  }

  /** The id of the selected row, None when nothing is selected (get_selected_id on a valid cursor) */
  function SelectedId(todos: seq<Todo>, sel: Option<nat>): (r: Option<int>)
    requires CursorValid(sel, |todos|)
    ensures r.None? <==> sel.None?
    ensures r.Some? ==> r.value == todos[sel.value].todoId
  {
    match sel
    case Some(i) => Some(todos[i].todoId)
    case None => None
  }

  /** The list the main area shows, with the selected row (tui's ListState; its scroll offset is not modelled) */
  class TodoList {
    var todos: seq<Todo>
    var selected: Option<nat>

    /** TodoList::new: the rows, nothing selected */
    constructor (todos: seq<Todo>)
      ensures this.todos == todos && selected == None
    {
      this.todos := todos;
      selected := None;
    }

    /** Replaces the rows and clears the cursor */
    method SetTodos(todos: seq<Todo>)
      modifies this
      ensures this.todos == todos && selected == None
    {
      this.todos := todos;
      selected := None;
    }

    predicate CanNext()
      reads this
    {
      NextDefined(selected, |todos|)
    }

    predicate CanPrevious()
      reads this
    {
      PreviousDefined(selected, |todos|)
    }

    method Next()
      requires CanNext()
      modifies this`selected
      ensures selected == Some(NextIndex(old(selected), |todos|))
    {
      var i := match selected
        case Some(j) => if j >= |todos| - 1 then 0 else j + 1
        case None => 0;
      selected := Some(i);
    }

    method Previous()
      requires CanPrevious()
      modifies this`selected
      ensures selected == Some(PreviousIndex(old(selected), |todos|))
    {
      var i := match selected
        case Some(j) => if j == 0 then |todos| - 1 else j - 1
        case None => 0;
      selected := Some(i);
    }

    method Unselect()
      modifies this`selected
      ensures selected == None
    {
      selected := None;
    }

    /** get_selected_id indexes the rows, so a cursor past the end has no defined result */
    predicate CanGetSelectedId()
      reads this
    {
      CursorValid(selected, |todos|)
    }

    function GetSelectedId(): (r: Option<int>)
      reads this
      requires CanGetSelectedId()
      ensures r == SelectedId(todos, selected)
    {
      SelectedId(todos, selected)
    }
  }

  // ------------------------------------------------------- application state

  /** Every field of the application state except the edit form, for stating what a handler changes */
  datatype AppView = AppView(
    running: bool,
    todoList: TodoList,
    searchString: string,
    mainContextString: string,
    searchResults: seq<Todo>,
    editAction: Edit.EditAction,
    focusedWidget: Nav.Widget,
    mainContentShown: Nav.Content,
    todoItemsLimit: nat,
    todoItemsOffset: nat,
    upcomingList: seq<Todo>)

  const DefaultLimit: nat := 10
  const DefaultOffset: nat := 0

  class AppState {
    var running: bool
    var todoList: TodoList
    var searchString: string
    var mainContextString: string
    var searchResults: seq<Todo>
    const edit: Edit.EditTodo
    var editAction: Edit.EditAction
    var focusedWidget: Nav.Widget
    var mainContentShown: Nav.Content
    var todoItemsLimit: nat
    var todoItemsOffset: nat
    var upcomingList: seq<Todo>

    function View(): AppView
      reads this
    {
      AppView(running, todoList, searchString, mainContextString, searchResults, editAction,
              focusedWidget, mainContentShown, todoItemsLimit, todoItemsOffset, upcomingList)
    }

    /** AppState::init: running, focus on the list, the list view, empty texts and lists,
        a fresh edit form, limit 10 and offset 0 */
    constructor Init()
      ensures View() == AppView(true, todoList, "", "", [], Edit.Create, Nav.Main, Nav.Daylist,
                                DefaultLimit, DefaultOffset, [])
      ensures fresh(todoList) && todoList.todos == [] && todoList.selected == None
      ensures fresh(edit) && edit.Value() == Edit.Blank()
    {
      running := true;
      todoList := new TodoList([]);
      searchString := "";
      mainContextString := "";
      searchResults := [];
      edit := new Edit.EditTodo();
      editAction := Edit.Create;
      focusedWidget := Nav.Main;
      mainContentShown := Nav.Daylist;
      todoItemsLimit := DefaultLimit;
      todoItemsOffset := DefaultOffset;
      upcomingList := [];
    }

    /** The loop's exit check reads the flag that only exit() clears */
    function IsRunning(): (r: bool)
      reads this
      ensures r <==> View().running
    {
      running
    }

    /** Clears the running flag and nothing else; a second call changes nothing */
    method Exit()
      modifies this`running
      ensures !IsRunning()
    {
      running := false;
    }
  }

  // ----------------------------------------------------------------- layout

  type u16 = x: int | 0 <= x < 0x1_0000

  /** tui's Rect */
  datatype Rect = Rect(x: u16, y: u16, width: u16, height: u16)

  /** Rect::default() */
  const EmptyRect := Rect(0, 0, 0, 0)

  /** The part of LayoutState the core reads and writes: the split columns, the bounds the mouse is tested
      against, and what show_focused_widget chooses (the keybind row and the highlighted panel) */
  class LayoutState {
    var centerColumn: seq<Rect>
    var rightColumn: seq<Rect>
    var searchBounds: Rect
    var mainBounds: Rect
    var calendarBounds: Rect
    var upcomingBounds: Rect
    var keybinds: seq<string>
    var highlighted: Nav.Widget

    /** A layout whose columns are those LayoutState::structure splits for the terminal's size;
        the bounds start as Rect::default() */
    constructor (center: seq<Rect>, right: seq<Rect>)
      ensures centerColumn == center && rightColumn == right
      ensures searchBounds == mainBounds == calendarBounds == upcomingBounds == EmptyRect
      ensures keybinds == [] && highlighted == Nav.Main
    {
      centerColumn := center;
      rightColumn := right;
      searchBounds := EmptyRect;
      mainBounds := EmptyRect;
      calendarBounds := EmptyRect;
      upcomingBounds := EmptyRect;
      keybinds := [];
      highlighted := Nav.Main;
    }

    /** Search box and list on the centre column's two rects, upcoming and calendar on the right column's */
    method UpdateBounds()
      requires |centerColumn| >= 2 && |rightColumn| >= 2
      modifies this`searchBounds, this`mainBounds, this`upcomingBounds, this`calendarBounds
      ensures searchBounds == centerColumn[0] && mainBounds == centerColumn[1]
      ensures upcomingBounds == rightColumn[0] && calendarBounds == rightColumn[1]
    {
      searchBounds := centerColumn[0];
      mainBounds := centerColumn[1];
      upcomingBounds := rightColumn[0];
      calendarBounds := rightColumn[1];
    }
  }
}
