# day_list controller core in Dafny

A model of the controller of day_list, a terminal todo manager: the focus map between the six screen
regions (src/nav.rs), the list cursor, the application and layout state (src/controller/state.rs), the
edit form (src/controller/edit_todo.rs), the four key handlers (src/controller/handle.rs), the part of the
run loop that routes events and decides what the bottom row shows (src/view/render.rs), the text form of a
record (src/lib.rs), and the data service (src/model/db.rs) seen from the controller.

Files and modules:

- `schema.dfy` (`Schema`): the `Todo` record, timestamps restricted to dates and times that exist, `Option`.
- `datetext.dfy` (`DateText`): the two timestamp patterns, `%d/%m/%y %H:%M` (parsed from the form) and
  `%d/%m/%Y %H:%M:%S` (printed by the formatter), with the round trip between formatting and parsing.
- `nav.dfy` (`Nav`): the regions, the shown content, and the four focus moves, with reachability.
- `input.dfy` (`Input`): key, mouse and resize events as the handlers see them.
- `edit.dfy` (`Edit`): the form buffer as a value, the field changes each key makes, and the `EditTodo`
  class whose `NewTodo`/`UpdateTodo` build a record and reset the form.
- `state.dfy` (`State`): the `TodoList` class and its cursor arithmetic, the `AppState` class, and the
  `LayoutState` class reduced to the four hit-test rectangles.
- `store.dfy` (`Store`): the data service as a `Db` class over a table of rows, with a ghost log of the
  calls made; every call may fail, and a failed call changes no row.
- `todoformat.dfy` (`TodoFormat`): `Todo::format`.
- `handle.dfy` (`Handle`): `search_events`, `default_events`, `list_events` and `edit_events`, as
  module-level methods that take the application state, the list and the service, and end `Done`, `Failed`
  (a service error passed on by `?`) or `Panicked`. Each one's effect is stated as a step predicate
  (`SearchStep`, `DefaultStep`, `ListStep`, `EditStep`) between two `World` values, the snapshots of
  everything a handler can change taken before and after the key.
- `render.dfy` (`Render`): key routing by focus, the mouse-down hit test, one dispatch step (`Step`, a
  relation between two worlds), the run loop over a finite stream of events with a ghost trace of the worlds
  it passes through, and the keybind row chosen by `show_focused_widget`.
- `scenarios.dfy` (`Scenarios`): key-by-key runs from the initial state.

Behaviour of the code that the model keeps as written, including where it departs from the project's intended design:

- `next()` and `previous()` on an empty list with no selection select index 0 (not a no-op), and a second
  press computes `len() - 1` on an empty list: a debug build panics there, which is what the model keeps;
  a release build wraps instead (see Left out). `previous()` with no selection selects 0, not the last row.
- `n` and `e` open the form without clearing it; Esc clears the four texts and sets priority 4 but keeps
  the field pointer.
- Submitting with the Update action calls `create_todo` with the record `update_todo` builds (id 0), so it
  inserts a new row; `update_todo` with id 0 would change nothing.
- The record built from the form always has a present description (`Some("")` when left empty).
- `X` and `d` with no selection still call `delete_todo` / `toggle_todo_status` with no id; the service
  only calls `utils::alert`, whose body is empty, and the list is reloaded.
- Every Enter in the form reloads the list and clears the cursor, not only the final one.
- The arrow keys in the form move the focus away while the main area keeps showing the form.
- With the form focused the bottom row still offers `q|Quit`, but `q` is typed into the form.
- Leaving search with Esc keeps the search text.
- The application state has the owned form `edit` and `edit_action` that handle.rs uses; state.rs declares
  flat `edit_*` fields instead. The initial action is `Create`.
- The upcoming query compares due dates with midnight of today, so rows due earlier today are included.

## Model

| member | source | states |
|---|---|---|
| Nav.Up | src/nav.rs:17-26 | the focus above a region; the form goes back to the list; never the form; stays put exactly on Search, Upcoming and Projects |
| Nav.Down | src/nav.rs:27-36 | the focus below; the form goes back to the list; stays put exactly on Calendar, Main and Projects |
| Nav.Left | src/nav.rs:37-46 | the focus to the left; the form goes back to the list; stays put exactly on Search and Projects |
| Nav.Right | src/nav.rs:47-56 | the focus to the right; the form goes back to the list; stays put exactly on Calendar and Upcoming |
| Nav.FromMain | src/nav.rs:17-56 | from the list, up is search, left projects, right calendar, down stays |
| Nav.PairedMovesUndo | src/nav.rs:17-56 | down undoes up and right undoes left from the list; up undoes down from Upcoming |
| Nav.DownIdempotent | src/nav.rs:27-36 | pressing down twice is pressing it once, from every region |
| Nav.NotSymmetric | src/nav.rs:37-56 | right from search reaches Upcoming but left from Upcoming reaches the list, not search |
| Nav.WalkNeverReachesEditForm | src/nav.rs:17-56 | no run of focus moves ends on the edit form |
| Nav.Route | src/nav.rs:17-56 | a route between two regions takes at most three keys |
| Nav.RouteReaches | src/nav.rs:17-56 | every region can be reached from every other one by moves |
| DateText.FullYear | src/controller/edit_todo.rs:94-99 | a two-digit year names a year in 1970-2069 with those last two digits |
| DateText.Resolve | src/controller/edit_todo.rs:94-99 | the scanned fields give a timestamp exactly when that date and time exist |
| DateText.ParseDateTime | src/controller/edit_todo.rs:94-99 | a parsed timestamp has second 0 and a year in 1970-2069; text shorter than the pattern gives none |
| DateText.ShortText | src/controller/edit_todo.rs:94-99 | five fields written in the form's pattern take 14 characters |
| DateText.ParseFields | src/controller/edit_todo.rs:94-99 | text written field by field in the form's pattern parses to the timestamp those fields name, if it exists |
| DateText.TwoDigitYear | src/controller/edit_todo.rs:94-99 | a year of 1970-2069 is named by its last two digits |
| DateText.ParseFormatShort | src/controller/edit_todo.rs:94-99 | every minute of 1970-2069 written in the form's pattern parses back to itself |
| DateText.MalformedIsNone | src/controller/edit_todo.rs:94-99 | malformed text and the empty text give no date rather than an error |
| DateText.NonexistentDayIsNone | src/controller/edit_todo.rs:94-99 | well-formed text naming 31 February, or 29 February of a common year, gives no date; 29 February of a leap year parses |
| DateText.FormatLong | src/lib.rs:45-52 | the printed timestamp is one line, 19 characters for four-digit years |
| DateText.YearText | src/lib.rs:45-52 | a year of 0-9999 prints as four digits |
| DateText.DecimalValue | src/lib.rs:59-61 | the printed digits of a number denote that number |
| Edit.Blank | src/controller/edit_todo.rs:26-42 | the blank form: pointer on Name, the four texts empty, priority 4 |
| Edit.Record | src/controller/edit_todo.rs:44-83 | the record built from the form: its title, its description (always present), its priority, its two dates as parsed, id and status 0, the other fields absent; the blank form gives the empty record |
| Edit.Advance | src/controller/handle.rs:136-142 | Enter moves the field pointer one field on, and from Priority it submits instead |
| Edit.EnterIsLinear | src/controller/handle.rs:136-142 | n Enters move the pointer n fields; four Enters reach Priority from Name |
| Edit.Pop | src/controller/handle.rs:126-135 | Backspace removes the last character and leaves empty text empty |
| Edit.PriorityKey | src/controller/handle.rs:162-173 | a digit 1-9 sets that priority and any other character sets 4 |
| Edit.TypeChar | src/controller/handle.rs:156-175 | a character is appended to the pointed field only, or sets the priority on Priority |
| Edit.Erase | src/controller/handle.rs:126-135 | Backspace shortens only the pointed field, and on Priority sets priority 0 |
| Edit.Cleared | src/controller/handle.rs:117-125 | Esc empties the four texts and sets priority 4, keeping the field pointer |
| Edit.TypeTextAppends | src/controller/handle.rs:156-161 | typing a text into a text field appends it to that field |
| Edit.TypeTextPriority | src/controller/handle.rs:162-173 | typing on Priority keeps only the last character's priority, always within 1-9 |
| Edit.RecordCopiesPriority | src/controller/edit_todo.rs:66-83 | the built record ignores the pointer and copies the priority, 0 after Backspace on Priority |
| Edit.RecordDates | src/controller/edit_todo.rs:66-99 | a date typed in the form's pattern reaches the record; an empty date field gives none |
| Edit.ClearKeepsPointer | src/controller/handle.rs:117-125 | after Esc on any field but Name the form is not the blank form |
| Edit.CreateFlowRecord | src/controller/edit_todo.rs:66-83 | typing a title, four Enters and a digit builds a record with that title, priority and no dates |
| Edit.EditTodo.constructor | src/controller/edit_todo.rs:26-42 | a new form is blank: pointer on Name, empty texts, priority 4 |
| Edit.EditTodo.Reset | src/controller/edit_todo.rs:85-92 | the form becomes the blank form |
| Edit.EditTodo.ParseDue | src/controller/edit_todo.rs:94-96 | a due date read from the form has second 0 and a year in 1970-2069; a field shorter than nine characters gives none |
| Edit.EditTodo.ParseReminder | src/controller/edit_todo.rs:97-99 | the same for the reminder field |
| Edit.EditTodo.NewTodo | src/controller/edit_todo.rs:66-83 | returns the record built from the form as it was, and resets the form |
| Edit.EditTodo.UpdateTodo | src/controller/edit_todo.rs:44-64 | returns the same record as new_todo would, id 0 included, and resets the form |
| State.NextIndex | src/controller/state.rs:262-274 | next selects the row after the cursor, 0 past the end and 0 with no cursor |
| State.PreviousIndex | src/controller/state.rs:278-290 | previous selects the row before the cursor, the last from 0, and 0 with no cursor |
| State.CursorStaysInRange | src/controller/state.rs:262-290 | on a non-empty list any run of Tab and Shift-Tab keeps a valid cursor valid and set |
| State.NextPreviousInverse | src/controller/state.rs:262-290 | next and previous undo each other on a valid cursor, at both ends |
| State.CursorAppend | src/controller/state.rs:262-290 | pressing two runs of keys is pressing their concatenation |
| State.TabsAdvance | src/controller/state.rs:262-274 | k Tabs move the cursor k rows while they stay before the end |
| State.NextCycles | src/controller/state.rs:262-274 | as many Tabs as rows bring the cursor back to its row |
| State.EmptyListHazard | src/controller/state.rs:262-290 | on an empty list the first press selects index 0, past the end, and a second one underflows (modelled as the debug-build panic) |
| State.TodoList.constructor | src/controller/state.rs:248-253 | the list holds the given rows and nothing is selected |
| State.TodoList.SetTodos | src/controller/state.rs:255-258 | the rows are replaced and the cursor cleared |
| State.TodoList.Next | src/controller/state.rs:262-274 | the cursor moves to the index next selects; rows unchanged |
| State.TodoList.Previous | src/controller/state.rs:278-290 | the cursor moves to the index previous selects; rows unchanged |
| State.TodoList.Unselect | src/controller/state.rs:294-296 | nothing is selected afterwards; rows unchanged |
| State.SelectedId | src/controller/state.rs:298-305 | none exactly when nothing is selected, otherwise the id of the selected row |
| State.TodoList.GetSelectedId | src/controller/state.rs:298-305 | the id of the selected row, none with no cursor |
| State.AppState.Init | src/controller/state.rs:38-66 | running, empty list, focus on the list showing the daylist, limit 10, offset 0, blank form |
| State.AppState.IsRunning | src/controller/state.rs:75-77 | true exactly while the running flag is set |
| State.AppState.Exit | src/controller/state.rs:78-80 | clears the running flag and nothing else |
| State.LayoutState.constructor | src/controller/state.rs:160-163 | the four hit rectangles start empty |
| State.LayoutState.UpdateBounds | src/controller/state.rs:167-172 | search and main take the centre column's first two areas, upcoming and calendar the right column's |
| TodoFormat.StatusMarker | src/lib.rs:40-57 | the marker is "[]" exactly for status 1 and "[ ]" for every other status |
| TodoFormat.Format | src/lib.rs:39-63 | the text starts and ends with a line break and is longer than the title plus the marker and padding |
| TodoFormat.FormatLines | src/lib.rs:59-62 | the text is a blank line, then marker and title, description, reminder, due date, priority, each on its own line |
| TodoFormat.MarkerColumns | src/lib.rs:55-59 | the first line shows "[]" at its marker columns exactly for status 1 |
| TodoFormat.FormatMarker | src/lib.rs:55-62 | the formatted text shows the done marker exactly for status 1 |
| TodoFormat.FormatDescription | src/lib.rs:41-44 | an absent description prints "--", a present one prints as is |
| TodoFormat.FormatMissingReminder | src/lib.rs:49-52 | an absent reminder prints "invalid date" |
| TodoFormat.FormatMissingDue | src/lib.rs:45-48 | an absent due date prints "invalid date" |
| Store.Matching | src/model/db.rs:29-38 | search returns exactly the rows whose title or present description contains the text |
| Store.EmptySearchReturnsAll | src/model/db.rs:29-38 | the empty search text matches every row |
| Store.TitleIsFound | src/model/db.rs:29-38 | searching for a row's title finds that row |
| Store.Flip | src/model/db.rs:79-84 | status 0 becomes 1 and every other status becomes 0 |
| Store.Toggled | src/model/db.rs:70-90 | the rows with the id have their status flipped and all others are kept |
| Store.ToggleTwiceRestoresFlag | src/model/db.rs:70-90 | toggling twice restores rows whose status is 0 or 1 |
| Store.ToggleTwiceLosesOtherStatus | src/model/db.rs:79-84 | toggling twice turns any other status into 1 |
| Store.Without | src/model/db.rs:92-102 | delete keeps exactly the rows with another id |
| Store.DeleteAbsentIsNoOp | src/model/db.rs:92-102 | deleting an id no row has changes nothing |
| Store.DeleteKeepsTableValid | src/model/db.rs:92-102 | deletion keeps ids unique and below the next id |
| Store.InsertKeepsTableValid | src/model/db.rs:56-68 | an insert takes a fresh id and keeps ids unique |
| Store.StoredIgnoresIdAndCreated | src/model/db.rs:56-68 | the stored row does not depend on the record's id or creation date |
| Store.Edited | src/model/db.rs:104-109 | update replaces the title and description of the rows with the record's id and keeps all other fields and rows |
| Store.UpdateOfIdZeroIsNoOp | src/model/db.rs:104-109 | an update with id 0 changes no row |
| Store.Midnight | src/model/db.rs:48-54 | the start of the current day |
| Store.Upcoming | src/model/db.rs:48-54 | exactly the rows due after midnight of today |
| Store.LaterIsStrictOrder | src/model/db.rs:48-54 | the timestamp comparison is irreflexive, asymmetric and transitive |
| Store.LaterIsTotal | src/model/db.rs:48-54 | of two different timestamps one is later |
| Store.UpcomingIncludesEarlierToday | src/model/db.rs:48-54 | a row due earlier today is upcoming; one due at midnight is not |
| Store.Db.constructor | src/model/db.rs:15-26 | the service starts over the given valid table with an empty call log |
| Store.Db.Search | src/model/db.rs:29-38 | logs the search; on success returns the matching rows; rows unchanged |
| Store.Db.FetchTodos | src/model/db.rs:40-46 | logs the fetch; on success returns the whole table; rows unchanged |
| Store.Db.FetchUpcomingTodos | src/model/db.rs:48-54 | logs the fetch; on success returns the upcoming rows; rows unchanged |
| Store.Db.CreateTodo | src/model/db.rs:56-68 | logs the call; on success appends the record under a fresh id with the current time; on failure changes nothing |
| Store.Db.ToggleTodoStatus | src/model/db.rs:70-90 | logs the call; no id only alerts and succeeds; on success the row's status is flipped |
| Store.Db.DeleteTodo | src/model/db.rs:92-102 | logs the call; no id only alerts and succeeds; on success the rows with the id are gone |
| Store.Db.UpdateTodo | src/model/db.rs:104-109 | logs the call; on success the rows with the record's id take its title and description |
| Handle.ArrowKey | src/controller/handle.rs:35-38 | each arrow key names its direction and no other key does |
| Handle.VimKey | src/controller/handle.rs:102-105 | k, j, h and l name directions and are neither quit keys nor arrows |
| Handle.VimMatchesArrows | src/controller/handle.rs:102-109 | each vim letter moves as the arrow in the same direction |
| Handle.NavigationKeysNeverOpenForm | src/controller/handle.rs:102-109 | no run of navigation keys puts the focus on the form |
| Handle.Reload | src/controller/handle.rs:153 | logs one fetch with the app's offset and limit; on success the list is the table with no cursor |
| Handle.SearchEvents | src/controller/handle.rs:19-42 | SearchStep: Esc returns to the daylist and the list; characters and Backspace edit the search text; Enter logs one search for the text and on success shows exactly the matching rows, on failure changes nothing else; arrows move the focus; no other key calls the service |
| Handle.DefaultEvents | src/controller/handle.rs:45-61 | DefaultStep: q, Q and Esc clear the running flag only; vim letters and arrows move the focus as the matching direction; every other key changes nothing |
| Handle.MoveCursor | src/controller/handle.rs:83-90 | Tab moves the cursor by next() and Shift-Tab by previous(), or panics where those underflow (the debug-build behaviour) |
| Handle.ChangeSelected | src/controller/handle.rs:92-100 | SelectedCallThenReload: d toggles and X deletes the selected row (with none selected the call only alerts and cannot fail), then reloads the list; a failed call stops before the reload with the table and list unchanged; a cursor past the end panics before any call |
| Handle.ListModeKey | src/controller/handle.rs:64-81 | ListStep for q, Q (clear the running flag), Esc (show the daylist) and n, e (focus and show the form with the Create or Update action) |
| Handle.ListFocusKey | src/controller/handle.rs:102-111 | ListStep for the vim letters and arrows (move the focus) and the keys list mode does not bind (no change) |
| Handle.ListEvents | src/controller/handle.rs:63-113 | ListStep, key by key: q/Q quit, Esc shows the daylist, L reloads, n/e open the form with their action, Tab/Shift-Tab move the cursor (panicking on the empty-list underflow), d/X change the selected row then reload, the vim letters and arrows move the focus, other keys change nothing; the form, id counter and clock are never touched |
| Handle.EraseField | src/controller/handle.rs:126-135 | Backspace applies Erase to the form; nothing else changes |
| Handle.TypeIntoField | src/controller/handle.rs:156-175 | a character applies TypeChar to the form; nothing else changes |
| Handle.ClearForm | src/controller/handle.rs:117-125 | Esc shows the daylist, focuses the list and clears the form |
| Handle.AdvanceOrSubmit | src/controller/handle.rs:136-154 | Enter advances the pointer, or on Priority submits the built record through create_todo for both actions, then reloads |
| Handle.EditFormKey | src/controller/handle.rs:115-182 | EditStep for every key but Enter: only the view and the form change, as Cleared, Erase, TypeChar or a focus move say |
| Handle.EditEvents | src/controller/handle.rs:115-184 | EditStep: Esc goes home and clears the form; Backspace and characters edit the pointed field; arrows move the focus; Enter before Priority moves the pointer and reloads; Enter on Priority resets the form and inserts the built record under the next id with the current time, goes home and reloads, or on a failed insert changes nothing else; nothing panics and no other key calls the service |
| Render.HandlerFor | src/view/render.rs:134-139 | search, list and form each have their own handler; the other three regions share the default one |
| Render.Within | src/view/render.rs:149-160 | a point inside a rectangle means the rectangle is non-empty and the point is not left of or above it |
| Render.ClickFocus | src/view/render.rs:142-168 | a press in the main area focuses the list, one only in the search box focuses search, anything else keeps the focus |
| Render.EmptyRectIsNeverHit | src/view/render.rs:142-168 | bounds before the first update are never hit |
| Render.StackedRectsAreDisjoint | src/view/render.rs:142-168 | the search box and the main area stacked above one another share no cell |
| Render.ClickNeverOpensForm | src/view/render.rs:142-168 | a click never moves the focus to the form |
| Render.ClickLeavesForm | src/view/render.rs:142-168 | a click in the search box takes the focus out of the form |
| Render.Keybinds | src/view/render.rs:218-294 | the default row is shown for the list, the form and upcoming, and search, calendar and projects each have their own; every row but search's offers quit |
| Render.Highlighted | src/view/render.rs:266-294 | the focused panel is highlighted, and the list while the form has focus |
| Render.ShowFocusedWidget | src/view/render.rs:216-294 | stores the keybind row and highlighted panel for the current focus |
| Render.EditFormOffersQuit | src/view/render.rs:218-294 | the form's row offers q|Quit while q is routed to the edit handler, which only types it into the form |
| Render.OnlyQuitStops | src/view/render.rs:131-175 | a step clears the running flag exactly when the event is a quit key for the focused handler: q or Q in list mode, q, Q or Esc on the default panels, never in search or the form |
| Render.RoutedEffects | src/view/render.rs:131-175 | only a key sent to the search, list or edit handler reaches the service, and only the edit handler changes the form |
| Render.FailureKeepsRunning | src/view/render.rs:131-139 | a step whose handler failed or panicked leaves the running flag as it was |
| Render.Dispatch | src/view/render.rs:131-175 | Step: a key goes to the handler the focus before it selects, with that handler's step and nothing else changed; a button press moves the focus by the hit test against the current search and main bounds; other events change nothing |
| Render.TracedExtend | src/view/render.rs:32-178 | a trace of steps grows by one step taken from its last, running world |
| Render.TracedStopIsQuit | src/view/render.rs:32-178 | a run whose last world is stopped ended normally on a quit key taken while running |
| Render.Turn | src/view/render.rs:131-175 | one turn dispatches the next event and extends the trace by that step; a failed or panicked handler leaves the application running |
| Render.Run | src/view/render.rs:32-178 | the trace starts at the initial world and ends at the final one, every consumed event is one Step from a running world with the bounds of the current split, every step but the last ended normally; the loop ends Exited exactly when the running flag is clear, ReadFailed only after every event, HandlerFailed or HandlerPanicked exactly when the last handler failed or panicked; a stopped application consumes nothing |
| Scenarios.EmptyListTabTwice | src/controller/state.rs:262-274 | from the initial state Tab selects index 0 of the empty list and a second Tab panics (the debug-build behaviour) |
| Scenarios.DeleteWithoutSelection | src/controller/handle.rs:97-100 | X with nothing selected calls delete with no id, changes no row, and reloads |
| Scenarios.SearchMilk | src/controller/handle.rs:19-42 | k, "milk", Enter: one search call for "milk", its result shown, the text kept |
| Scenarios.CreateBuyMilk | src/controller/handle.rs:136-154 | n or e, "Buy milk", four Enters, 3, Enter: one row with that title, priority 3 and no dates is inserted |

## Left out

- Drawing: the widgets, layout splitting (`LayoutState::init` and `structure`), `generate_*` and the terminal
  setup; `LayoutState` keeps only the two columns' areas, the four hit rectangles, the keybind row and the
  highlighted panel.
- The startup fetch before the loop (src/view/render.rs:22-30) and the draw call inside it are not modelled.
- `Render.Run` reads events from a given finite sequence; the end of the sequence stands for a failed
  `event::read`. `show_focused_widget` is modelled on its own, since the loop calls it from drawing.
- Store.Matching: SQL `LIKE` is modelled as plain substring search; MySQL's case-insensitive collation and
  `%`/`_` inside the search text are not.
- Store.Db.FetchTodos: `OFFSET`/`LIMIT` are logged but not applied, and rows come back in insertion order;
  the SQL leaves the order unspecified.
- Store.Db.constructor: the connection setup, environment variables and their `expect` panics are not modelled.
- The service is synchronous here; `async`/`await` and concurrency are left out.
- DateText.ParseDateTime: models chrono's pattern reading for this pattern only; chrono's whitespace
  leniency is not modelled.
- Render.ClickFocus: coordinates are unbounded integers, so the `u16` addition in the hit test cannot
  overflow; the mouse button is not inspected, as in the source.
- Key events carry a code and a Shift flag only; key kind and other modifiers are not modelled.
- `print!` calls in the handlers are left out.
- `AppState::parse_due` / `parse_reminder` on the flat `edit_*` fields are not modelled; the form's own
  parsing is.
- Panics are modelled as the `Panicked` outcome of a handler, checked before the operation that panics.
- State.NextDefined / State.PreviousDefined / Handle.MoveCursor: the `usize` underflow of `len() - 1` on an
  empty list is modelled as the debug-build panic; a release build wraps, so `next()` from index 0 selects
  index 1 and `previous()` selects `usize::MAX`, and the panic comes later, in `get_selected_id`.
- Store.Db: the clock `now` is a field fixed for the whole session, and it stands for both `Local::now()`
  and the database's `CURRENT_DATE()`; time passing between calls is not modelled.
- `utils::alert` (src/lib.rs:66-69) has an empty body, so it is not modelled as a member; the calls to it
  change nothing.
- Ids are unbounded integers and status an unbounded integer; the `i64`, `i32` and `i8` widths are not modelled.
- The ListState scroll offset is not modelled.
- src/main.rs, src/bin/test_tui.rs, src/db.rs, src/schema.rs, src/models.rs and the migrations (a second, diesel-based data layer and entry points) are not part of this model.
