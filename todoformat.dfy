/** The record display formatter Todo::format (src/lib.rs) */
module TodoFormat {
  import opened Schema
  import DateText

  /** "[]" for a done record (status 1), "[ ]" for any other status */
  function StatusMarker(status: int): (m: string)
    ensures m == "[]" <==> status == 1
    ensures m == "[ ]" <==> status != 1
  {
    if status == 1 then "[]" else "[ ]"
  }

  /** The description, or "--" when there is none */
  function DescriptionText(d: Option<string>): string {
    match d
    case Some(s) => s
    case None => "--"
  }

  /** A timestamp as "%d/%m/%Y %H:%M:%S", or "invalid date" when there is none */
  function DateOrPlaceholder(d: Option<DateTime>): (r: string)
    ensures '\n' !in r
  {
    match d
    case Some(dt) => DateText.FormatLong(dt)
    case None => "invalid date"
  }

  /** An i64 as Display writes it */
  function IntText(n: int): (r: string)
    ensures '\n' !in r
  {
    if n < 0 then "-" + DateText.Decimal(-n) else DateText.Decimal(n)
  }

  /** The five lines of a formatted record: marker and title, description, reminder date, due date, priority */
  function FieldLines(t: Todo): seq<string> {
    [ "   " + StatusMarker(t.status) + " " + t.title,
      "       " + DescriptionText(t.description),
      "    " + DateOrPlaceholder(t.reminderDate),
      "    " + DateOrPlaceholder(t.dateDue),
      "    " + IntText(t.priority) ]
  }

  /** Every line followed by a newline */
  function Terminated(ls: seq<string>): (r: string)
    ensures ls != [] ==> |r| > |ls[0]| && r[|r| - 1] == '\n'
    ensures |r| >= |ls|
    decreases |ls|
  {
    if ls == [] then "" else ls[0] + "\n" + Terminated(ls[1..])
  }

  /** Todo::format: a newline, then each of the five lines followed by a newline */
  function Format(t: Todo): (r: string)
    ensures |r| > |t.title| + 6
    ensures r[0] == '\n' && r[|r| - 1] == '\n'
  {
    "\n" + Terminated(FieldLines(t))
  }

  /** The lines of a text, split at every newline */
  function Lines(s: string): (ls: seq<string>)
    ensures |ls| >= 1
    decreases |s|
  {
    if s == [] then [""]
    else if s[0] == '\n' then [""] + Lines(s[1..])
    else var rest := Lines(s[1..]); [[s[0]] + rest[0]] + rest[1..]
  }

  /** A line followed by a newline is split off whole */
  lemma {:induction false} LinesSplit(a: string, b: string)
    requires '\n' !in a
    ensures Lines(a + "\n" + b) == [a] + Lines(b)
    decreases |a|
  {
    if a == [] {
      assert a + "\n" + b == "\n" + b;
      assert ("\n" + b)[1..] == b;
    } else {
      assert (a + "\n" + b)[0] == a[0];
      assert (a + "\n" + b)[1..] == a[1..] + "\n" + b;
      LinesSplit(a[1..], b);
      assert [a[0]] + a[1..] == a;
    }
  }

  /** Splitting newline-terminated single lines gives those lines back, and an empty last one */
  lemma {:induction false} LinesOfTerminated(ls: seq<string>)
    requires forall i :: 0 <= i < |ls| ==> '\n' !in ls[i]
    ensures Lines(Terminated(ls)) == ls + [""]
    decreases |ls|
  {
    if ls != [] {
      LinesSplit(ls[0], Terminated(ls[1..]));
      LinesOfTerminated(ls[1..]);
      assert [ls[0]] + (ls[1..] + [""]) == ls + [""];
    }
  }

  /** The formatted record splits back into its parts in the source's order (the reminder date before the
      due date), provided the title and description are single lines */
  lemma FormatLines(t: Todo)
    requires '\n' !in t.title
    requires t.description.Some? ==> '\n' !in t.description.value
    ensures Lines(Format(t)) == [
      "",
      "   " + StatusMarker(t.status) + " " + t.title,
      "       " + DescriptionText(t.description),
      "    " + DateOrPlaceholder(t.reminderDate),
      "    " + DateOrPlaceholder(t.dateDue),
      "    " + IntText(t.priority),
      ""]
  {
    var ls := FieldLines(t);
    assert '\n' !in ls[0] && '\n' !in ls[1] && '\n' !in ls[4];
    LinesOfTerminated(ls);
    LinesSplit("", Terminated(ls));
    assert "" + "\n" + Terminated(ls) == Format(t);
  }

  /** The status marker sits at columns 3-4 of the first line: "[]" exactly for a done record */
  lemma MarkerColumns(t: Todo)
    ensures FieldLines(t)[0][3..5] == "[]" <==> t.status == 1
  {
    var m := StatusMarker(t.status);
    var l1 := "   " + m + " " + t.title;
    assert FieldLines(t)[0] == l1;
    assert l1[3] == m[0] && l1[4] == m[1];
    assert l1[3..5] == [m[0], m[1]];
  }

  /** The first formatted line carries "[]" at columns 3-4 exactly when the record is done */
  lemma FormatMarker(t: Todo)
    requires '\n' !in t.title
    requires t.description.Some? ==> '\n' !in t.description.value
    ensures |Lines(Format(t))| == 7 && |Lines(Format(t))[1]| >= 6
    ensures Lines(Format(t))[1][3..5] == "[]" <==> t.status == 1
  {
    FormatLines(t);
    MarkerColumns(t);
  }

  /** The second formatted line is the description, or "--" when there is none */
  lemma FormatDescription(t: Todo)
    requires '\n' !in t.title
    requires t.description.Some? ==> '\n' !in t.description.value
    ensures |Lines(Format(t))| == 7
    ensures t.description.None? ==> Lines(Format(t))[2] == "       --"
    ensures t.description.Some? ==> Lines(Format(t))[2] == "       " + t.description.value
  {
    FormatLines(t);
  }

  /** A missing reminder date shows as "invalid date" on the third line */
  lemma FormatMissingReminder(t: Todo)
    requires '\n' !in t.title
    requires t.description.Some? ==> '\n' !in t.description.value
    ensures |Lines(Format(t))| == 7
    ensures t.reminderDate.None? ==> Lines(Format(t))[3] == "    invalid date"
  {
    FormatLines(t);
  }

  /** A missing due date shows as "invalid date" on the fourth line */
  lemma FormatMissingDue(t: Todo)
    requires '\n' !in t.title
    requires t.description.Some? ==> '\n' !in t.description.value
    ensures |Lines(Format(t))| == 7
    ensures t.dateDue.None? ==> Lines(Format(t))[4] == "    invalid date"
  {
    FormatLines(t);
  }
}
