/** The two chrono patterns the core uses on timestamps: the edit form parses
    "%d/%m/%y %H:%M" (src/controller/edit_todo.rs:94-99) and the record formatter prints
    "%d/%m/%Y %H:%M:%S" (src/lib.rs:46, 50). */
module DateText {
  import opened Schema

  predicate IsDigit(c: char) { '0' <= c <= '9' }

  function DigitValue(c: char): nat
    requires IsDigit(c)
  {
    c as int - '0' as int
  }

  function DigitChar(n: nat): (c: char)
    requires n < 10
    ensures IsDigit(c) && DigitValue(c) == n
  {
    ('0' as int + n) as char
  }

  predicate AllDigits(s: string) {
    forall i :: 0 <= i < |s| ==> IsDigit(s[i])
  }

  // ---------------------------------------------------------------- parsing

  /** A numeric field of one or two digits, taken greedily, as chrono scans %d, %m, %y, %H and %M */
  function ScanNumber(s: string): (r: Option<(nat, string)>)
    ensures r.Some? ==> r.value.0 < 100 && |r.value.1| < |s|
    ensures r.Some? ==> IsDigit(s[0]) && r.value.1 == s[|s| - |r.value.1|..]
  {
    if |s| >= 2 && IsDigit(s[0]) && IsDigit(s[1]) then Some((10 * DigitValue(s[0]) + DigitValue(s[1]), s[2..]))
    else if |s| >= 1 && IsDigit(s[0]) then Some((DigitValue(s[0]), s[1..]))
    else None
  }

  /** A literal character of the pattern */
  function Literal(c: char, s: string): (r: Option<string>)
    ensures r.Some? <==> |s| > 0 && s[0] == c
    ensures r.Some? ==> r.value == s[1..]
  {
    if |s| > 0 && s[0] == c then Some(s[1..]) else None
  }

  /** The century chrono gives a two-digit year: 70-99 are 1970-1999, 00-69 are 2000-2069 */
  function FullYear(yy: nat): (y: int)
    requires yy < 100
    ensures 1970 <= y <= 2069 && y % 100 == yy
  {
    yy + if yy < 70 then 2000 else 1900
  }

  /** The fields read from the text become a timestamp only if that date and time exist */
  function Resolve(day: nat, month: nat, yy: nat, hour: nat, minute: nat): (r: Option<DateTime>)
    requires yy < 100
    ensures r.Some? <==> ValidStamp(Stamp(FullYear(yy), month, day, hour, minute, 0))
    ensures r.Some? ==> r.value == Stamp(FullYear(yy), month, day, hour, minute, 0)
  {
    var st := Stamp(FullYear(yy), month, day, hour, minute, 0);
    if ValidStamp(st) then Some(st) else None
  }

  /** A numeric field followed by the separator the pattern puts after it */
  function FieldThen(s: string, sep: char): (r: Option<(nat, string)>)
    ensures r.Some? ==> r.value.0 < 100 && |r.value.1| + 2 <= |s|
  {
    var n :- ScanNumber(s);
    var rest :- Literal(sep, n.1);
    Some((n.0, rest))
  }

  /** NaiveDateTime::parse_from_str(text, "%d/%m/%y %H:%M").ok(): the whole text must match the
      pattern and name an existing minute; every failure, the empty text included, is None. */
  function ParseDateTime(s: string): (r: Option<DateTime>)
    ensures r.Some? ==> r.value.second == 0 && 1970 <= r.value.year <= 2069
    ensures |s| < 9 ==> r.None?
  {
    var day :- FieldThen(s, '/');
    var month :- FieldThen(day.1, '/');
    var year :- FieldThen(month.1, ' ');
    var hour :- FieldThen(year.1, ':');
    var minute :- ScanNumber(hour.1);
    if minute.1 != [] then None
    else Resolve(day.0, month.0, year.0, hour.0, minute.0)
  }

  // ------------------------------------------------------------- formatting

  /** A number below 100 as two zero-padded digits */
  function Pad2(n: nat): (r: string)
    requires n < 100
    ensures |r| == 2 && AllDigits(r)
  {
    [DigitChar(n / 10), DigitChar(n % 10)]
  }

  /** Five fields written in the edit form's pattern "%d/%m/%y %H:%M" */
  function ShortText(day: nat, month: nat, yy: nat, hour: nat, minute: nat): (r: string)
    requires day < 100 && month < 100 && yy < 100 && hour < 100 && minute < 100
    ensures |r| == 14
  {
    Pad2(day) + ("/" + (Pad2(month) + ("/" + (Pad2(yy) + (" " + (Pad2(hour) + (":" + Pad2(minute))))))))
  }

  /** The same timestamp written back in the edit form's pattern */
  function FormatShort(dt: DateTime): (r: string)
    ensures |r| == 14
  {
    ShortText(dt.day, dt.month, dt.year % 100, dt.hour, dt.minute)
  }

  /** The decimal digits of n, without leading zeros */
  function Decimal(n: nat): (r: string)
    ensures 1 <= |r| && AllDigits(r) && '\n' !in r
    ensures r[0] == '0' ==> n == 0
  {
    if n < 10 then [DigitChar(n)] else Decimal(n / 10) + [DigitChar(n % 10)]
  }

  /** The number a string of digits denotes */
  function DigitsValue(s: string): nat
    requires AllDigits(s)
  {
    if s == [] then 0 else 10 * DigitsValue(s[..|s| - 1]) + DigitValue(s[|s| - 1])
  }

  /** Left-pads with zeros up to width w */
  function ZeroPad(s: string, w: nat): (r: string)
    requires AllDigits(s) && '\n' !in s
    ensures AllDigits(r) && '\n' !in r
    ensures |r| == if |s| >= w then |s| else w
    decreases w - |s|
  {
    if |s| >= w then s else ZeroPad("0" + s, w)
  }

  /** chrono's %Y: four zero-padded digits for years 0-9999, otherwise an explicit sign */
  function YearText(y: int): (r: string)
    ensures '\n' !in r
    ensures 0 <= y < 10000 ==> |r| == 4 && AllDigits(r)
  {
    if 0 <= y < 10000 then Pad2(y / 100) + Pad2(y % 100)
    else if y >= 10000 then "+" + Decimal(y)
    else "-" + ZeroPad(Decimal(-y), 4)
  }

  /** chrono's format("%d/%m/%Y %H:%M:%S") */
  function FormatLong(dt: DateTime): (r: string)
    ensures '\n' !in r
    ensures 0 <= dt.year < 10000 ==> |r| == 19
  {
    Pad2(dt.day) + "/" + Pad2(dt.month) + "/" + YearText(dt.year) + " "
    + Pad2(dt.hour) + ":" + Pad2(dt.minute) + ":" + Pad2(dt.second)
  }

  // ----------------------------------------------------------------- lemmas

  /** Decimal and DigitsValue are inverse: the digits printed denote the number */
  lemma {:induction false} DecimalValue(n: nat)
    ensures DigitsValue(Decimal(n)) == n
  {
    var r := Decimal(n);
    if n >= 10 {
      DecimalValue(n / 10);
      assert r[..|r| - 1] == Decimal(n / 10);
    }
  }

  /** Two zero-padded digits scan back to the number and leave the rest of the text */
  lemma ScanPad2(n: nat, rest: string)
    requires n < 100
    ensures ScanNumber(Pad2(n) + rest) == Some((n, rest))
  {
    var s := Pad2(n) + rest;
    assert s[0] == DigitChar(n / 10) && s[1] == DigitChar(n % 10);
    assert s[2..] == rest;
  }

  /** A padded field and its separator are read back by FieldThen */
  lemma FieldThenPad2(n: nat, sep: char, rest: string)
    requires n < 100
    ensures FieldThen(Pad2(n) + ([sep] + rest), sep) == Some((n, rest))
  {
    ScanPad2(n, [sep] + rest);
    assert ([sep] + rest)[1..] == rest;
  }

  /** Text written field by field in the edit form's pattern reads back as those fields */
  lemma ParseFields(day: nat, month: nat, yy: nat, hour: nat, minute: nat)
    requires day < 100 && month < 100 && yy < 100 && hour < 100 && minute < 100
    ensures ParseDateTime(ShortText(day, month, yy, hour, minute)) == Resolve(day, month, yy, hour, minute)
  {
    var t4 := Pad2(minute);
    var t3 := Pad2(hour) + (":" + t4);
    var t2 := Pad2(yy) + (" " + t3);
    var t1 := Pad2(month) + ("/" + t2);
    FieldThenPad2(day, '/', t1);
    FieldThenPad2(month, '/', t2);
    FieldThenPad2(yy, ' ', t3);
    FieldThenPad2(hour, ':', t4);
    ScanPad2(minute, []);
    assert t4 + [] == t4;
  }

  /** A year of 1970-2069 is named by its last two digits */
  lemma TwoDigitYear(y: int)
    requires 1970 <= y <= 2069
    ensures FullYear(y % 100) == y
  {
    if y < 2000 {
      assert y % 100 == y - 1900;
    } else {
      assert y % 100 == y - 2000;
    }
  }

  /** Formatting a timestamp in the edit form's pattern and parsing it back gives the same timestamp,
      for every minute of 1970-2069 (the years a two-digit year can name) */
  lemma {:induction false} ParseFormatShort(dt: DateTime)
    requires dt.second == 0 && 1970 <= dt.year <= 2069
    ensures ParseDateTime(FormatShort(dt)) == Some(dt)
  {
    ParseFields(dt.day, dt.month, dt.year % 100, dt.hour, dt.minute);
    TwoDigitYear(dt.year);
  }

  /** Text that is not in the pattern yields no date rather than an error */
  lemma MalformedIsNone()
    ensures ParseDateTime("not-a-date") == None
    ensures ParseDateTime("") == None
  {
    assert ScanNumber("not-a-date") == None;
  }

  /** Text in the pattern that names a day that does not exist yields no date either: 31 February never
      exists, and 29 February only in a leap year */
  lemma NonexistentDayIsNone(hour: nat, minute: nat)
    requires hour < 24 && minute < 60
    ensures ParseDateTime(ShortText(31, 2, 24, hour, minute)) == None
    ensures ParseDateTime(ShortText(29, 2, 23, hour, minute)) == None
    ensures ParseDateTime(ShortText(29, 2, 24, hour, minute)).Some?
  {
    ParseFields(31, 2, 24, hour, minute);
    ParseFields(29, 2, 23, hour, minute);
    ParseFields(29, 2, 24, hour, minute);
  }



}
