/** The todo record as the store holds it (src/model/schema.rs), with the optional
    values and timestamps it is built from. */
module Schema {

  /** Rust's Option, usable with `:-` */
  datatype Option<+T> = None | Some(value: T) {
    predicate IsFailure() { None? }

    function PropagateFailure<U>(): Option<U>
      requires None?
    {
      None
    }

    function Extract(): T
      requires Some?
    {
      value
    }
  }

  /** The fields of a chrono NaiveDateTime */
  datatype Stamp = Stamp(year: int, month: int, day: int, hour: int, minute: int, second: int)

  predicate IsLeapYear(y: int) {
    (y % 4 == 0 && y % 100 != 0) || y % 400 == 0
  }

  function DaysInMonth(y: int, m: int): int
    requires 1 <= m <= 12
  {
    if m == 2 then (if IsLeapYear(y) then 29 else 28)
    else if m == 4 || m == 6 || m == 9 || m == 11 then 30
    else 31
  }

  /** A calendar date and a time of day that exist */
  predicate ValidStamp(s: Stamp) {
    && 1 <= s.month <= 12
    && 1 <= s.day <= DaysInMonth(s.year, s.month)
    && 0 <= s.hour < 24
    && 0 <= s.minute < 60
    && 0 <= s.second < 60
  }

  /** NaiveDateTime: only existing dates and times can be represented */
  type DateTime = s: Stamp | ValidStamp(s) witness Stamp(1970, 1, 1, 0, 0, 0)

  /** One row of the `todo` table. Ids are the table's integer ids; `status` is 0 (open) or 1 (done)
      as the store writes it, but any integer can be read back. */
  datatype Todo = Todo(
    todoId: int,
    title: string,
    description: Option<string>,
    dateCreated: Option<DateTime>,
    status: int,
    dateDue: Option<DateTime>,
    reminderDate: Option<DateTime>,
    parentTodo: Option<int>,
    priority: int,
    projectId: Option<int>)
}
