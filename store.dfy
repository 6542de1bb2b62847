/** The data service the handlers call (src/model/db.rs): a table of records behind a connection.
    Each call is one or two SQL statements, and any of them may fail; a failed call leaves the table as it
    was. The table is a sequence in insertion order, `nextId` is the auto-increment counter, `now` is the
    local clock, and `log` records every call made, in order. */
module Store {
  import opened Schema

  /** The result of a call: its value, or an error from the connection */
  datatype Result<T> = Ok(value: T) | Err

  /** One call on the service, with its arguments */
  datatype Call =
    | SearchCall(searchString: string)
    | FetchTodosCall(offset: nat, limit: nat)
    | FetchUpcomingCall(offset: nat, limit: nat)
    | CreateCall(todo: Todo)
    | ToggleCall(id: Option<int>)
    | DeleteCall(id: Option<int>)
    | UpdateCall(todo: Todo)

  // ------------------------------------------------------------- the table

  /** Ids are assigned from 1 by the auto-increment counter and are unique (todo_id is the primary key) */
  predicate ValidTable(rows: seq<Todo>, nextId: int) {
    1 <= nextId
    && (forall i :: 0 <= i < |rows| ==> 1 <= rows[i].todoId < nextId)
    && (forall i, j :: 0 <= i < j < |rows| ==> rows[i].todoId != rows[j].todoId)
  }

  /** Whether `sub` occurs in `s` */
  predicate Contains(s: string, sub: string) {
    exists i :: 0 <= i <= |s| && sub <= s[i..]
  }

  /** `title LIKE '%s%' OR description LIKE '%s%'`: a missing description never matches */
  predicate Matches(t: Todo, s: string) {
    Contains(t.title, s) || (t.description.Some? && Contains(t.description.value, s))
  }

  /** The rows a search returns, in table order */
  function Matching(rows: seq<Todo>, s: string): (r: seq<Todo>)
    ensures forall t :: t in r <==> t in rows && Matches(t, s)
    ensures |r| <= |rows|
    decreases |rows|
  {
    if rows == [] then []
    else (if Matches(rows[0], s) then [rows[0]] else []) + Matching(rows[1..], s)
  }

  /** The status after a toggle: 0 becomes 1, anything else becomes 0 */
  function Flip(status: int): (r: int)
    ensures status == 0 ==> r == 1
    ensures status != 0 ==> r == 0
  {
    if status == 0 then 1 else 0
  }

  /** The table after toggling the record with the given id; every other record is untouched */
  function Toggled(rows: seq<Todo>, id: int): (r: seq<Todo>)
    ensures |r| == |rows|
    ensures forall i :: 0 <= i < |rows| && rows[i].todoId == id ==> r[i] == rows[i].(status := Flip(rows[i].status))
    ensures forall i :: 0 <= i < |rows| && rows[i].todoId != id ==> r[i] == rows[i]
  {
    seq(|rows|, i requires 0 <= i < |rows| =>
      if rows[i].todoId == id then rows[i].(status := Flip(rows[i].status)) else rows[i])
  }

  /** The table after deleting the record with the given id, the rest in order */
  function Without(rows: seq<Todo>, id: int): (r: seq<Todo>)
    ensures forall t :: t in r <==> t in rows && t.todoId != id
    ensures |r| <= |rows|
    decreases |rows|
  {
    if rows == [] then []
    else (if rows[0].todoId == id then [] else [rows[0]]) + Without(rows[1..], id)
  }

  /** What the INSERT stores: the record with the next id and the creation time; the record's own
      todo_id and date_created are not part of the statement */
  function Stored(t: Todo, id: int, now: DateTime): Todo {
    t.(todoId := id, dateCreated := Some(now))
  }

  /** The table after `UPDATE todo SET title, description WHERE todo_id`: only those two columns, only that row */
  function Edited(rows: seq<Todo>, t: Todo): (r: seq<Todo>)
    ensures |r| == |rows|
    ensures forall i :: 0 <= i < |rows| && rows[i].todoId == t.todoId ==>
              r[i] == rows[i].(title := t.title, description := t.description)
    ensures forall i :: 0 <= i < |rows| && rows[i].todoId != t.todoId ==> r[i] == rows[i]
  {
    seq(|rows|, i requires 0 <= i < |rows| =>
      if rows[i].todoId == t.todoId then rows[i].(title := t.title, description := t.description) else rows[i])
  }

  /** A toggle of the selected row, or no change when nothing is selected */
  function ToggleEffect(rows: seq<Todo>, id: Option<int>): seq<Todo> {
    if id.Some? then Toggled(rows, id.value) else rows
  }

  /** A delete of the selected row, or no change when nothing is selected */
  function DeleteEffect(rows: seq<Todo>, id: Option<int>): seq<Todo> {
    if id.Some? then Without(rows, id.value) else rows
  }

  // -------------------------------------------------------- dates and times

  /** Whether a is strictly later than b, field by field from the year down */
  predicate Later(a: Stamp, b: Stamp) {
    if a.year != b.year then a.year > b.year
    else if a.month != b.month then a.month > b.month
    else if a.day != b.day then a.day > b.day
    else if a.hour != b.hour then a.hour > b.hour
    else if a.minute != b.minute then a.minute > b.minute
    else a.second > b.second
  }

  /** CURRENT_DATE() as a timestamp: the start of the clock's day */
  function Midnight(now: DateTime): (r: DateTime)
    ensures r.year == now.year && r.month == now.month && r.day == now.day
    ensures r.hour == 0 && r.minute == 0 && r.second == 0
  {
    Stamp(now.year, now.month, now.day, 0, 0, 0)
  }

  /** `date_due > CURRENT_DATE()`: due strictly after the start of today; a missing due date never matches */
  predicate DueAfterToday(t: Todo, now: DateTime) {
    t.dateDue.Some? && Later(t.dateDue.value, Midnight(now))
  }

  /** The rows the upcoming query returns, in table order */
  function Upcoming(rows: seq<Todo>, now: DateTime): (r: seq<Todo>)
    ensures forall t :: t in r <==> t in rows && DueAfterToday(t, now)
    ensures |r| <= |rows|
    decreases |rows|
  {
    if rows == [] then []
    else (if DueAfterToday(rows[0], now) then [rows[0]] else []) + Upcoming(rows[1..], now)
  }

  // ----------------------------------------------------------------- lemmas

  /** Later is a strict order: never reflexive, and transitive */
  lemma LaterIsStrictOrder(a: Stamp, b: Stamp, c: Stamp)
    ensures !Later(a, a)
    ensures Later(a, b) ==> !Later(b, a)
    ensures Later(a, b) && Later(b, c) ==> Later(a, c)
  {
  }

  /** Later is total on distinct timestamps */
  lemma LaterIsTotal(a: Stamp, b: Stamp)
    requires a != b
    ensures Later(a, b) || Later(b, a)
  {
  }

  /** The empty string occurs in every text, so the empty search returns the whole table */
  lemma {:induction false} EmptySearchReturnsAll(rows: seq<Todo>)
    ensures Matching(rows, "") == rows
    decreases |rows|
  {
    if rows != [] {
      assert "" <= rows[0].title[0..];
      assert Matches(rows[0], "");
      EmptySearchReturnsAll(rows[1..]);
      assert [rows[0]] + rows[1..] == rows;
    }
  }

  /** A record whose title is the search string is found */
  lemma TitleIsFound(rows: seq<Todo>, t: Todo)
    requires t in rows
    ensures t in Matching(rows, t.title)
  {
    assert t.title <= t.title[0..];
    assert Matches(t, t.title);
  }

  /** A second toggle restores a record whose status was 0 or 1 */
  lemma ToggleTwiceRestoresFlag(rows: seq<Todo>, id: int)
    requires forall i :: 0 <= i < |rows| && rows[i].todoId == id ==> rows[i].status in {0, 1}
    ensures Toggled(Toggled(rows, id), id) == rows
  {
    var once := Toggled(rows, id);
    var twice := Toggled(once, id);
    forall i | 0 <= i < |rows|
      ensures twice[i] == rows[i]
    {
      assert once[i].todoId == rows[i].todoId;
    }
  }

  /** Any status other than 0 and 1 is lost: two toggles turn it into 1, not back into itself */
  lemma ToggleTwiceLosesOtherStatus(rows: seq<Todo>, id: int, i: nat)
    requires i < |rows| && rows[i].todoId == id && rows[i].status !in {0, 1}
    ensures Toggled(Toggled(rows, id), id)[i].status == 1 != rows[i].status
  {
    assert Toggled(rows, id)[i].todoId == id;
  }

  /** Deleting an id no record has leaves the table as it was */
  lemma {:induction false} DeleteAbsentIsNoOp(rows: seq<Todo>, id: int)
    requires forall i :: 0 <= i < |rows| ==> rows[i].todoId != id
    ensures Without(rows, id) == rows
    decreases |rows|
  {
    if rows != [] {
      DeleteAbsentIsNoOp(rows[1..], id);
      assert [rows[0]] + rows[1..] == rows;
    }
  }

  /** Deleting keeps the rows a subsequence of the table, so ids stay valid and unique */
  lemma {:induction false} DeleteKeepsTableValid(rows: seq<Todo>, nextId: int, id: int)
    requires ValidTable(rows, nextId)
    ensures ValidTable(Without(rows, id), nextId)
    decreases |rows|
  {
    if rows != [] {
      DeleteKeepsTableValid(rows[1..], nextId, id);
      var rest := Without(rows[1..], id);
      forall j | 0 <= j < |rest|
        ensures rest[j].todoId != rows[0].todoId
      {
        assert rest[j] in rows[1..];
      }
    }
  }

  /** After an insert the table is valid again and ends with the new record under a fresh id */
  lemma InsertKeepsTableValid(rows: seq<Todo>, nextId: int, t: Todo, now: DateTime)
    requires ValidTable(rows, nextId)
    ensures ValidTable(rows + [Stored(t, nextId, now)], nextId + 1)
    ensures forall i :: 0 <= i < |rows| ==> rows[i].todoId != nextId
  {
  }

  /** The id and creation time of the submitted record never reach the table: what is stored depends on the
      other fields only. An update submitted through an insert therefore adds a new row. */
  lemma StoredIgnoresIdAndCreated(t: Todo, id: int, now: DateTime, otherId: int, created: Option<DateTime>)
    ensures Stored(t.(todoId := otherId, dateCreated := created), id, now) == Stored(t, id, now)
  {
  }

  /** The edit form submits todo_id 0, which no row has, so an update_todo of it changes nothing */
  lemma UpdateOfIdZeroIsNoOp(rows: seq<Todo>, nextId: int, t: Todo)
    requires ValidTable(rows, nextId) && t.todoId == 0
    ensures Edited(rows, t) == rows
  {
  }

  /** A record due earlier today, in the past already, is still listed as upcoming, while one due at
      midnight starting today is not */
  lemma UpcomingIncludesEarlierToday(t: Todo, now: DateTime)
    requires now.hour == 23
    requires t.dateDue == Some(Stamp(now.year, now.month, now.day, 0, 1, 0))
    ensures Later(now, t.dateDue.value)
    ensures Upcoming([t], now) == [t]
    ensures Upcoming([t.(dateDue := Some(Midnight(now)))], now) == []
  {
  }

  // ------------------------------------------------------------ the service

  class Db {
    var rows: seq<Todo>
    var nextId: int
    var now: DateTime
    ghost var log: seq<Call>

    ghost predicate Valid()
      reads this
    {
      ValidTable(rows, nextId)
    }

    /** A connection to a database holding the given table */
    constructor (rows: seq<Todo>, nextId: int, now: DateTime)
      requires ValidTable(rows, nextId)
      ensures this.rows == rows && this.nextId == nextId && this.now == now && log == []
      ensures Valid()
    {
      this.rows := rows;
      this.nextId := nextId;
      this.now := now;
      log := [];
    }

    /** The records whose title or description contains the search string */
    method Search(s: string) returns (r: Result<seq<Todo>>)
      modifies this`log
      ensures log == old(log) + [SearchCall(s)]
      ensures r.Ok? ==> r.value == Matching(rows, s)
    {
      log := log + [SearchCall(s)];
      var failed: bool :| true;
      if failed {
        return Err;
      }
      return Ok(Matching(rows, s));
    }

    /** Every record; the offset and limit are accepted and ignored */
    method FetchTodos(offset: nat, limit: nat) returns (r: Result<seq<Todo>>)
      modifies this`log
      ensures log == old(log) + [FetchTodosCall(offset, limit)]
      ensures r.Ok? ==> r.value == rows
    {
      log := log + [FetchTodosCall(offset, limit)];
      var failed: bool :| true;
      if failed {
        return Err;
      }
      return Ok(rows);
    }

    /** The records due after the start of today; the offset and limit are accepted and ignored */
    method FetchUpcomingTodos(offset: nat, limit: nat) returns (r: Result<seq<Todo>>)
      modifies this`log
      ensures log == old(log) + [FetchUpcomingCall(offset, limit)]
      ensures r.Ok? ==> r.value == Upcoming(rows, now)
    {
      log := log + [FetchUpcomingCall(offset, limit)];
      var failed: bool :| true;
      if failed {
        return Err;
      }
      return Ok(Upcoming(rows, now));
    }

    /** Inserts the record under the next id, stamped with the current time */
    method CreateTodo(t: Todo) returns (ok: bool)
      requires Valid()
      modifies this`rows, this`nextId, this`log
      ensures Valid()
      ensures log == old(log) + [CreateCall(t)]
      ensures ok ==> rows == old(rows) + [Stored(t, old(nextId), now)] && nextId == old(nextId) + 1
      ensures !ok ==> rows == old(rows) && nextId == old(nextId)
    {
      log := log + [CreateCall(t)];
      var failed: bool :| true;
      if failed {
        return false;
      }
      InsertKeepsTableValid(rows, nextId, t, now);
      rows := rows + [Stored(t, nextId, now)];
      nextId := nextId + 1;
      return true;
    }

    /** Flips the status of the record with the id; with no id it only alerts and succeeds */
    method ToggleTodoStatus(id: Option<int>) returns (ok: bool)
      requires Valid()
      modifies this`rows, this`log
      ensures Valid()
      ensures log == old(log) + [ToggleCall(id)]
      ensures id.None? ==> ok
      ensures ok ==> rows == ToggleEffect(old(rows), id)
      ensures !ok ==> rows == old(rows)
    {
      log := log + [ToggleCall(id)];
      match id {
        case Some(i) =>
          var failed: bool :| true;
          if failed {
            return false;
          }
          rows := Toggled(rows, i);
        case None =>
          // no id: the service only raises the alert, whose body is empty
      }
      return true;
    }

    /** Deletes the record with the id; with no id it only alerts and succeeds */
    method DeleteTodo(id: Option<int>) returns (ok: bool)
      requires Valid()
      modifies this`rows, this`log
      ensures Valid()
      ensures log == old(log) + [DeleteCall(id)]
      ensures id.None? ==> ok
      ensures ok ==> rows == DeleteEffect(old(rows), id)
      ensures !ok ==> rows == old(rows)
    {
      log := log + [DeleteCall(id)];
      match id {
        case Some(i) =>
          var failed: bool :| true;
          if failed {
            return false;
          }
          DeleteKeepsTableValid(rows, nextId, i);
          rows := Without(rows, i);
        case None =>
          // no id: the service only raises the alert, whose body is empty
      }
      return true;
    }

    /** Sets the title and description of the record with the submitted record's id */
    method UpdateTodo(t: Todo) returns (ok: bool)
      requires Valid()
      modifies this`rows, this`log
      ensures Valid()
      ensures log == old(log) + [UpdateCall(t)]
      ensures ok ==> rows == Edited(old(rows), t)
      ensures !ok ==> rows == old(rows)
    {
      log := log + [UpdateCall(t)];
      var failed: bool :| true;
      if failed {
        return false;
      }
      rows := Edited(rows, t);
      return true;
    }
  }
}
