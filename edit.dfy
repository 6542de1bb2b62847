/** The multi-field edit form (src/controller/edit_todo.rs): a field pointer, one text per
    field and a priority; it builds the submitted record and resets itself. The key-by-key
    changes that handle.rs makes to the form's fields are specified here as functions on the
    form's value, so that each field change is stated once. */
module Edit {
  import opened Schema
  import DateText

  /** The field that typed characters go to */
  datatype EditSelection = Name | Description | DateDue | ReminderDate | Priority

  /** Which submission the form is for */
  datatype EditAction = Create | Update

  /** The value an EditTodo holds */
  datatype Buffer = Buffer(
    selection: EditSelection,
    name: string,
    description: string,
    dateDue: string,
    reminderDate: string,
    priority: int)

  /** The priority a fresh form starts with (the source's "magic number") */
  const DefaultPriority := 4

  /** EditTodo::new(), also EditTodo::default() */
  function Blank(): (b: Buffer)
    ensures b.selection == Name && b.priority == DefaultPriority
    ensures b.name == b.description == b.dateDue == b.reminderDate == ""
  {
    Buffer(Name, "", "", "", "", DefaultPriority)
  }

  /** The record the form submits: the buffer's texts, dates parsed from their text, the priority as typed,
      and every store-assigned field unset */
  function Record(b: Buffer): (t: Todo)
    ensures t.title == b.name && t.description == Some(b.description) && t.priority == b.priority
    ensures t.dateDue == DateText.ParseDateTime(b.dateDue) && t.reminderDate == DateText.ParseDateTime(b.reminderDate)
    ensures t.todoId == 0 && t.status == 0 && t.dateCreated.None? && t.parentTodo.None? && t.projectId.None?
    ensures b == Blank() ==> t == Todo(0, "", Some(""), None, 0, None, None, None, DefaultPriority, None)
  {
    Todo(0, b.name, Some(b.description), None, 0,
         DateText.ParseDateTime(b.dateDue), DateText.ParseDateTime(b.reminderDate),
         None, b.priority, None)
  }

  // ------------------------------------------------------------ field order

  /** Position of a field in the form */
  function Ordinal(s: EditSelection): nat {
    match s
    case Name => 0
    case Description => 1
    case DateDue => 2
    case ReminderDate => 3
    case Priority => 4
  }

  /** What Enter does to the field pointer: the next field, or None on Priority, where Enter submits */
  function Advance(s: EditSelection): (r: Option<EditSelection>)
    ensures r.None? <==> s == Priority
    ensures r.Some? ==> Ordinal(r.value) == Ordinal(s) + 1
  {
    match s
    case Name => Some(Description)
    case Description => Some(DateDue)
    case DateDue => Some(ReminderDate)
    case ReminderDate => Some(Priority)
    case Priority => None
  }

  /** The pointer after n presses of Enter that do not submit */
  function AdvanceTimes(s: EditSelection, n: nat): EditSelection
    requires Ordinal(s) + n <= 4
    decreases n
  {
    if n == 0 then s else AdvanceTimes(Advance(s).value, n - 1)
  }

  // ------------------------------------------------------------ text fields

  /** The text field a selection names */
  function Text(b: Buffer, s: EditSelection): string
    requires s != Priority
  {
    match s
    case Name => b.name
    case Description => b.description
    case DateDue => b.dateDue
    case ReminderDate => b.reminderDate
  }

  /** The buffer with one text field replaced */
  function WithText(b: Buffer, s: EditSelection, t: string): (r: Buffer)
    requires s != Priority
    ensures Text(r, s) == t && r.selection == b.selection && r.priority == b.priority
    ensures forall f :: f != Priority && f != s ==> Text(r, f) == Text(b, f)
  {
    match s
    case Name => b.(name := t)
    case Description => b.(description := t)
    case DateDue => b.(dateDue := t)
    case ReminderDate => b.(reminderDate := t)
  }

  /** String::pop: drops the last character, if any */
  function Pop(s: string): (r: string)
    ensures s == [] ==> r == []
    ensures s != [] ==> r + [s[|s| - 1]] == s
  {
    if s == [] then s else s[..|s| - 1]
  }

  // ------------------------------------------------------------------- keys

  /** A character typed on the Priority field: a digit 1-9 is that priority, anything else the default */
  function PriorityKey(c: char): (p: int)
    ensures 1 <= p <= 9
    ensures '1' <= c <= '9' ==> p == c as int - '0' as int
    ensures !('1' <= c <= '9') ==> p == DefaultPriority
  {
    match c
    case '1' => 1
    case '2' => 2
    case '3' => 3
    case '4' => 4
    case '5' => 5
    case '6' => 6
    case '7' => 7
    case '8' => 8
    case '9' => 9
    case _ => DefaultPriority
  }

  /** A character key: appended to the current text field, or read as a priority */
  function TypeChar(b: Buffer, c: char): (r: Buffer)
    ensures r.selection == b.selection
    ensures b.selection != Priority ==> r == WithText(b, b.selection, Text(b, b.selection) + [c])
    ensures b.selection == Priority ==> r == b.(priority := PriorityKey(c))
  {
    match b.selection
    case Name => b.(name := b.name + [c])
    case Description => b.(description := b.description + [c])
    case DateDue => b.(dateDue := b.dateDue + [c])
    case ReminderDate => b.(reminderDate := b.reminderDate + [c])
    case Priority => b.(priority := PriorityKey(c))
  }

  /** Backspace: pops the current text field; on Priority it sets the 0 sentinel */
  function Erase(b: Buffer): (r: Buffer)
    ensures r.selection == b.selection
    ensures b.selection != Priority ==> r == WithText(b, b.selection, Pop(Text(b, b.selection)))
    ensures b.selection == Priority ==> r == b.(priority := 0)
  {
    match b.selection
    case Name => b.(name := Pop(b.name))
    case Description => b.(description := Pop(b.description))
    case DateDue => b.(dateDue := Pop(b.dateDue))
    case ReminderDate => b.(reminderDate := Pop(b.reminderDate))
    case Priority => b.(priority := 0)
  }

  /** Escape on the form: every text and the priority go back to their defaults; the pointer stays */
  function Cleared(b: Buffer): (r: Buffer)
    ensures r.(selection := Name) == Blank()
    ensures r.selection == b.selection
  {
    b.(name := "", description := "", dateDue := "", reminderDate := "", priority := DefaultPriority)
  }

  /** Characters typed one after another */
  function TypeText(b: Buffer, s: string): Buffer
    decreases |s|
  {
    if s == [] then b else TypeText(TypeChar(b, s[0]), s[1..])
  }

  // ----------------------------------------------------------------- lemmas

  /** The form is strictly linear: four non-submitting Enters lead from Name to Priority,
      and Enter on Priority submits instead of moving on */
  lemma {:induction false} EnterIsLinear(s: EditSelection, n: nat)
    requires Ordinal(s) + n <= 4
    ensures Ordinal(AdvanceTimes(s, n)) == Ordinal(s) + n
    ensures AdvanceTimes(Name, 4) == Priority && Advance(Priority).None?
    decreases n
  {
    if n > 0 {
      EnterIsLinear(Advance(s).value, n - 1);
    }
    assert AdvanceTimes(Name, 4) == AdvanceTimes(Description, 3) == AdvanceTimes(DateDue, 2)
      == AdvanceTimes(ReminderDate, 1) == Priority;
  }

  /** Typing a string into a text field appends it to that field and to nothing else */
  lemma {:induction false} TypeTextAppends(b: Buffer, s: string)
    requires b.selection != Priority
    ensures TypeText(b, s) == WithText(b, b.selection, Text(b, b.selection) + s)
    decreases |s|
  {
    if s == [] {
      assert Text(b, b.selection) + s == Text(b, b.selection);
    } else {
      var b' := TypeChar(b, s[0]);
      TypeTextAppends(b', s[1..]);
      assert Text(b, b.selection) + [s[0]] + s[1..] == Text(b, b.selection) + s;
    }
  }

  /** On the Priority field only the last character counts, and the result is always 1-9 */
  lemma {:induction false} TypeTextPriority(b: Buffer, s: string)
    requires b.selection == Priority && s != []
    ensures TypeText(b, s) == b.(priority := PriorityKey(s[|s| - 1]))
    ensures 1 <= TypeText(b, s).priority <= 9
    decreases |s|
  {
    if |s| > 1 {
      TypeTextPriority(TypeChar(b, s[0]), s[1..]);
      assert s[1..][|s[1..]| - 1] == s[|s| - 1];
    }
  }

  /** The record does not depend on where the pointer is, and the priority is copied unclamped:
      the Backspace sentinel 0 is submitted as it is */
  lemma RecordCopiesPriority(b: Buffer, s: EditSelection)
    ensures Record(b.(selection := s)) == Record(b)
    ensures Record(b).priority == b.priority
    ensures Record(Erase(b.(selection := Priority))).priority == 0
  {
  }

  /** Date texts become dates only through the pattern: a date written in the form's pattern comes back,
      and the untouched empty field gives no date */
  lemma RecordDates(b: Buffer, due: DateTime)
    requires due.second == 0 && 1970 <= due.year <= 2069
    ensures b.dateDue == DateText.FormatShort(due) ==> Record(b).dateDue == Some(due)
    ensures b.reminderDate == DateText.FormatShort(due) ==> Record(b).reminderDate == Some(due)
    ensures b.dateDue == "" ==> Record(b).dateDue == None
    ensures b.reminderDate == "" ==> Record(b).reminderDate == None
  {
    DateText.ParseFormatShort(due);
  }

  /** Escape differs from a reset: the pointer is not sent back to Name */
  lemma ClearKeepsPointer(b: Buffer)
    requires b.selection != Name
    ensures Cleared(b) != Blank()
  {
  }

  /** The create flow on the form: "Buy milk" typed on Name, four Enters, '3' on Priority. The record has the
      title and priority, no dates, and an empty description that is present, not absent. */
  lemma CreateFlowRecord()
    ensures var typed := TypeText(Blank(), "Buy milk");
            var atPriority := typed.(selection := AdvanceTimes(Name, 4));
            Record(TypeChar(atPriority, '3'))
              == Todo(0, "Buy milk", Some(""), None, 0, None, None, None, 3, None)
  {
    TypeTextAppends(Blank(), "Buy milk");
    EnterIsLinear(Name, 4);
    DateText.MalformedIsNone();
  }

  // ------------------------------------------------------------------ class

  /** The edit form the application state owns */
  class EditTodo {
    var selection: EditSelection
    var name: string
    var description: string
    var dateDue: string
    var reminderDate: string
    var priority: int

    function Value(): Buffer
      reads this
    {
      Buffer(selection, name, description, dateDue, reminderDate, priority)
    }

    /** EditTodo::new() */
    constructor ()
      ensures Value() == Blank()
    {
      selection := Name;
      name := "";
      description := "";
      dateDue := "";
      reminderDate := "";
      priority := DefaultPriority;
    }

    /** Clears the four texts, sets the default priority and points at Name again */
    method Reset()
      modifies this
      ensures Value() == Blank()
    {
      name := [];
      description := [];
      dateDue := [];
      reminderDate := [];
      priority := DefaultPriority;
      selection := Name;
    }

    /** The due date field read in the short pattern: no seconds, a year in the two-digit window, and
        nothing for a text shorter than the pattern's nine characters */
    function ParseDue(): (r: Option<DateTime>)
      reads this
      ensures r.Some? ==> r.value.second == 0 && 1970 <= r.value.year <= 2069
      ensures |dateDue| < 9 ==> r.None?
    {
      DateText.ParseDateTime(dateDue)
    }

    /** The reminder date field, read the same way */
    function ParseReminder(): (r: Option<DateTime>)
      reads this
      ensures r.Some? ==> r.value.second == 0 && 1970 <= r.value.year <= 2069
      ensures |reminderDate| < 9 ==> r.None?
    {
      DateText.ParseDateTime(reminderDate)
    }

    /** Builds the record from the form as it is, then resets the form */
    method NewTodo() returns (t: Todo)
      modifies this
      ensures t == Record(old(Value()))
      ensures Value() == Blank()
    {
      t := Todo(0, name, Some(description), None, 0, ParseDue(), ParseReminder(), None, priority, None);
      Reset();
    }

    /** The same record as NewTodo, todo_id 0 included (the record is not tied to the selected row),
        then the same reset */
    method UpdateTodo() returns (t: Todo)
      modifies this
      ensures t == Record(old(Value()))
      ensures Value() == Blank()
    {
      t := Todo(0, name, Some(description), None, 0, ParseDue(), ParseReminder(), None, priority, None);
      Reset();
    }
  }
}
