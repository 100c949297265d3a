/**
 * Shared vocabulary of the Starline model: optional values and HTTP-style
 * results, the Python string operations the handlers rely on, calendar
 * dates and datetimes, and the pagination arithmetic used by list endpoints.
 */
module Common {

  // ---------------------------------------------------------------------
  // Optional values and handler results
  // ---------------------------------------------------------------------

  /** A row's primary key (a UUID in the database; only its identity matters). */
  type Id = nat

  /** Python `None` or a value. */
  datatype Option<T> = None | Some(value: T)

  /** A handler's outcome: a value, or an `HTTPException(status, detail)`. */
  datatype Result<T> = Ok(value: T) | Err(status: int, detail: string)

  const BAD_REQUEST: int := 400
  const UNAUTHORIZED: int := 401
  const FORBIDDEN: int := 403
  const NOT_FOUND: int := 404
  const GONE: int := 410
  const UNPROCESSABLE: int := 422
  const LOCKED: int := 423
  const INTERNAL_ERROR: int := 500

  /** The detail the application's catch-all handler answers an uncaught exception with. */
  const UNHANDLED: string := "Internal server error"

  /** Python truthiness of an optional string: `None` and `""` are falsy. */
  predicate Truthy(s: Option<string>)
  {
    s.Some? && s.value != ""
  }

  /** `x or ''` for an optional string. */
  function OrEmpty(s: Option<string>): (r: string)
    ensures s.Some? ==> r == s.value
    ensures s.None? ==> r == ""
  {
    if s.Some? then s.value else ""
  }

  // ---------------------------------------------------------------------
  // Strings
  // ---------------------------------------------------------------------

  /** The ASCII whitespace that Python's `str.strip()` removes. */
  predicate IsSpace(c: char)
  {
    c == ' ' || c == '\t' || c == '\n' || c == '\r' || c == '\U{0B}' || c == '\U{0C}'
  }

  /** `str.lstrip()`: the longest suffix that does not start with whitespace. */
  function TrimLeft(s: string): (r: string)
    ensures |r| <= |s| && r == s[|s| - |r|..]
    ensures r == [] || !IsSpace(r[0])
    ensures forall k :: 0 <= k < |s| - |r| ==> IsSpace(s[k])
  {
    if |s| > 0 && IsSpace(s[0]) then TrimLeft(s[1..]) else s
  }

  /** `str.rstrip()`: the longest prefix that does not end with whitespace. */
  function TrimRight(s: string): (r: string)
    ensures |r| <= |s| && r == s[..|r|]
    ensures r == [] || !IsSpace(r[|r| - 1])
    ensures forall k :: |r| <= k < |s| ==> IsSpace(s[k])
  {
    if |s| > 0 && IsSpace(s[|s| - 1]) then TrimRight(s[..|s| - 1]) else s
  }

  /** `str.strip()`. */
  function Strip(s: string): (r: string)
    ensures r == [] || (!IsSpace(r[0]) && !IsSpace(r[|r| - 1]))
  {
    TrimRight(TrimLeft(s))
  }

  /** A string with no whitespace at either end is its own `strip()`. */
  lemma StripOfStripped(s: string)
    requires s == [] || (!IsSpace(s[0]) && !IsSpace(s[|s| - 1]))
    ensures Strip(s) == s
  {
  }

  predicate StartsWith(s: string, prefix: string)
  {
    |prefix| <= |s| && s[..|prefix|] == prefix
  }

  /** `text` contains `part`. */
  predicate Contains(text: string, part: string)
    decreases |text|
  {
    StartsWith(text, part) || (text != [] && Contains(text[1..], part))
  }

  /** `column.ilike('%' + part + '%')`, folding ASCII letters. */
  predicate ILike(text: string, part: string)
  {
    Contains(Lower(text), Lower(part))
  }

  predicate EndsWith(s: string, suffix: string)
  {
    |suffix| <= |s| && s[|s| - |suffix|..] == suffix
  }

  /**
   * The pattern `f"{notes or ''}\n\n{line}".strip()` with which handlers
   * append a remark to a free-text notes column.
   */
  function AppendNote(notes: Option<string>, line: string): (r: string)
  {
    Strip(OrEmpty(notes) + "\n\n" + line)
  }

  /**
   * An appended remark that has no whitespace at its ends always survives at
   * the end of the notes, and when there were no notes (or only whitespace)
   * it is the whole of them.
   */
  lemma AppendNoteEndsWithLine(notes: Option<string>, line: string)
    requires line != [] && !IsSpace(line[0]) && !IsSpace(line[|line| - 1])
    ensures EndsWith(AppendNote(notes, line), line)
    ensures Strip(OrEmpty(notes)) == "" ==> AppendNote(notes, line) == line
  {
    AppendNoteKeepsLine(OrEmpty(notes), line);
    if Strip(OrEmpty(notes)) == "" {
      AppendNoteToBlank(OrEmpty(notes), line);
    }
  }

  /** The strip of `prior + "\n\n" + line` ends with `line` when `line` has no whitespace at its ends. */
  lemma AppendNoteKeepsLine(prior: string, line: string)
    requires line != [] && !IsSpace(line[0]) && !IsSpace(line[|line| - 1])
    ensures EndsWith(Strip(prior + "\n\n" + line), line)
  {
    var pad := prior + "\n\n";
    var s := pad + line;
    var n := |pad|;
    assert s[n..] == line && s[n] == line[0];
    // The left trim stops at the latest at the first character of `line` ...
    TrimLeftStopsAt(s, n);
    var l := TrimLeft(s);
    assert |line| <= |l| && l[|l| - |line|..] == line;
    // ... and the right trim stops at once, at its last character.
    TrimRightOfUnpadded(l);
  }

  /** After notes that strip to nothing, the appended line is all that remains. */
  lemma AppendNoteToBlank(prior: string, line: string)
    requires Strip(prior) == ""
    requires line != [] && !IsSpace(line[0]) && !IsSpace(line[|line| - 1])
    ensures Strip(prior + "\n\n" + line) == line
  {
    StripEmptyAllSpace(prior);
    NewlinesPadSpace(prior);
    TrimLeftPast(prior + "\n\n", line);
    TrimRightOfUnpadded(line);
  }

  /** The left trim keeps everything from the first non-space character on. */
  lemma TrimLeftStopsAt(s: string, n: nat)
    requires n < |s| && !IsSpace(s[n])
    ensures |s| - |TrimLeft(s)| <= n
  {
  }

  /** The left trim drops a run of spaces in front of a text that starts with no space. */
  lemma {:induction false} TrimLeftPast(pad: string, rest: string)
    requires forall k :: 0 <= k < |pad| ==> IsSpace(pad[k])
    requires rest != [] && !IsSpace(rest[0])
    ensures TrimLeft(pad + rest) == rest
  {
    if pad == [] {
      assert pad + rest == rest;
    } else {
      assert (pad + rest)[0] == pad[0] && (pad + rest)[1..] == pad[1..] + rest;
      TrimLeftPast(pad[1..], rest);
    }
  }

  /** Appending two newlines to whitespace leaves whitespace. */
  lemma NewlinesPadSpace(prior: string)
    requires forall k :: 0 <= k < |prior| ==> IsSpace(prior[k])
    ensures forall k :: 0 <= k < |prior + "\n\n"| ==> IsSpace((prior + "\n\n")[k])
  {
    var pad := prior + "\n\n";
    forall k | 0 <= k < |pad|
      ensures IsSpace(pad[k])
    {
      if k < |prior| {
        assert pad[k] == prior[k];
      } else {
        assert pad[k] == '\n';
      }
    }
  }

  /** A string that does not end with whitespace is its own right trim. */
  lemma TrimRightOfUnpadded(s: string)
    requires s != [] && !IsSpace(s[|s| - 1])
    ensures TrimRight(s) == s
  {
  }

  /** A string whose `strip()` is empty consists of whitespace only. */
  lemma StripEmptyAllSpace(s: string)
    requires Strip(s) == ""
    ensures forall k :: 0 <= k < |s| ==> IsSpace(s[k])
  {
    var l := TrimLeft(s);
    assert TrimRight(l) == "";
    assert |l| == 0;
  }

  /** `sep.join(parts)`. */
  function Join(parts: seq<string>, sep: string): (r: string)
    ensures parts == [] ==> r == ""
    ensures |parts| == 1 ==> r == parts[0]
    ensures |parts| > 0 ==> StartsWith(r, parts[0])
  {
    if |parts| == 0 then ""
    else if |parts| == 1 then parts[0]
    else parts[0] + sep + Join(parts[1..], sep)
  }

  /** ASCII `str.lower()` of one character. */
  function LowerChar(c: char): (r: char)
    ensures 'A' <= c <= 'Z' ==> 'a' <= r <= 'z'
    ensures !('A' <= c <= 'Z') ==> r == c
  {
    if 'A' <= c <= 'Z' then (c as int + 32) as char else c
  }

  /** ASCII `str.upper()` of one character. */
  function UpperChar(c: char): (r: char)
    ensures 'a' <= c <= 'z' ==> 'A' <= r <= 'Z'
    ensures !('a' <= c <= 'z') ==> r == c
  {
    if 'a' <= c <= 'z' then (c as int - 32) as char else c
  }

  function Lower(s: string): (r: string)
    ensures |r| == |s| && forall k :: 0 <= k < |s| ==> r[k] == LowerChar(s[k])
  {
    seq(|s|, k requires 0 <= k < |s| => LowerChar(s[k]))
  }

  function Upper(s: string): (r: string)
    ensures |r| == |s| && forall k :: 0 <= k < |s| ==> r[k] == UpperChar(s[k])
  {
    seq(|s|, k requires 0 <= k < |s| => UpperChar(s[k]))
  }

  predicate IsDigit(c: char) { '0' <= c <= '9' }
  predicate IsUpperAscii(c: char) { 'A' <= c <= 'Z' }
  predicate IsLowerAscii(c: char) { 'a' <= c <= 'z' }
  predicate IsAlnumAscii(c: char) { IsDigit(c) || IsUpperAscii(c) || IsLowerAscii(c) }
  predicate HexDigit(c: char) { IsDigit(c) || 'a' <= c <= 'f' || 'A' <= c <= 'F' }

  /** Number of occurrences of `c` in `s` (`s.count(c)`). */
  function CountChar(s: string, c: char): (r: nat)
    ensures r <= |s|
    ensures r == 0 <==> c !in s
  {
    if s == [] then 0 else (if s[0] == c then 1 else 0) + CountChar(s[1..], c)
  }

  /** `s.split(sep)` for a one-character separator. */
  function Split(s: string, sep: char): (r: seq<string>)
    ensures |r| >= 1
    ensures |r| == CountChar(s, sep) + 1
    ensures forall k :: 0 <= k < |r| ==> sep !in r[k]
  {
    if s == [] then [""]
    else
      var rest := Split(s[1..], sep);
      if s[0] == sep then [""] + rest
      else [[s[0]] + rest[0]] + rest[1..]
  }

  /** Text without the separator splits into itself alone. */
  lemma {:induction false} SplitWithoutSeparator(s: string, sep: char)
    requires sep !in s
    ensures Split(s, sep) == [s]
  {
    if s != [] {
      SplitWithoutSeparator(s[1..], sep);
      assert s[0] != sep;
      assert [s[0]] + s[1..] == s;
    }
  }

  /** Splitting text that starts with a separator-free part yields that part first. */
  lemma {:induction false} SplitAfterPart(a: string, sep: char, rest: string)
    requires sep !in a
    ensures Split(a + [sep] + rest, sep) == [a] + Split(rest, sep)
  {
    var s := a + [sep] + rest;
    if a == [] {
      assert s[1..] == rest;
    } else {
      assert s[1..] == a[1..] + [sep] + rest;
      SplitAfterPart(a[1..], sep, rest);
      assert [a[0]] + a[1..] == a;
    }
  }

  function DigitChar(d: nat): (r: char)
    requires d < 10
    ensures IsDigit(r)
  {
    ('0' as int + d) as char
  }

  /** `str(n)` for a natural number. */
  function NatToString(n: nat): (r: string)
    ensures |r| >= 1
    ensures n < 10 ==> |r| == 1
    ensures n < 100 ==> |r| <= 2
    ensures forall k :: 0 <= k < |r| ==> IsDigit(r[k])
    decreases n
  {
    if n < 10 then [DigitChar(n)] else NatToString(n / 10) + [DigitChar(n % 10)]
  }

  /** `str(id)` for a key (`str(user.id)`, the subject a token carries): one digit or more, and nothing but digits. */
  function IdText(id: Id): (r: string)
    ensures |r| >= 1
    ensures forall k :: 0 <= k < |r| ==> IsDigit(r[k])
  {
    NatToString(id)
  }

  /** `str(x)` for an optional key: its text, or "None". */
  function MaybeIdText(id: Option<Id>): (r: string)
    ensures r == "None" <==> id.None?
  {
    if id.Some? then
      var s := IdText(id.value);
      assert IsDigit(s[0]) && !IsDigit("None"[0]);
      s
    else "None"
  }

  /** `str(i)` for an integer. */
  function IntToString(i: int): (r: string)
    ensures |r| >= 1
  {
    if i < 0 then "-" + NatToString(-i) else NatToString(i)
  }

  /** `f"{n:0{width}d}"` for a natural number. */
  function ZeroPad(n: nat, width: nat): (r: string)
    ensures |r| >= width
    ensures |NatToString(n)| >= width ==> r == NatToString(n)
    ensures |NatToString(n)| <= width ==> |r| == width
    ensures forall k :: 0 <= k < |r| ==> IsDigit(r[k])
  {
    var s := NatToString(n);
    if |s| >= width then s else seq(width - |s|, _ => '0') + s
  }

  /** The value of a string of decimal digits (`int(s)`). */
  function DigitsValue(s: string): (r: nat)
    requires forall k :: 0 <= k < |s| ==> IsDigit(s[k])
  {
    if s == [] then 0
    else
      assert IsDigit(s[|s| - 1]);
      DigitsValue(s[..|s| - 1]) * 10 + (s[|s| - 1] as int - '0' as int)
  }

  /** `int(str(n)) == n`. */
  lemma {:induction false} DigitsValueOfNatToString(n: nat)
    ensures DigitsValue(NatToString(n)) == n
    decreases n
  {
    if n >= 10 {
      var s := NatToString(n);
      assert s[..|s| - 1] == NatToString(n / 10);
      DigitsValueOfNatToString(n / 10);
    }
  }

  /** Leading zeros do not change a number's value: `int("007") == 7`. */
  lemma {:induction false} DigitsValueLeadingZeros(z: nat, s: string)
    requires forall k :: 0 <= k < |s| ==> IsDigit(s[k])
    ensures DigitsValue(seq(z, _ => '0') + s) == DigitsValue(s)
    decreases |s|, z
  {
    var t := seq(z, _ => '0') + s;
    if s == [] {
      if z > 0 {
        assert t[..|t| - 1] == seq(z - 1, _ => '0') + s;
        DigitsValueLeadingZeros(z - 1, s);
      }
    } else {
      assert t[..|t| - 1] == seq(z, _ => '0') + s[..|s| - 1];
      DigitsValueLeadingZeros(z, s[..|s| - 1]);
    }
  }

  /** `int(f"{n:0{width}d}") == n`. */
  lemma DigitsValueOfZeroPad(n: nat, width: nat)
    ensures DigitsValue(ZeroPad(n, width)) == n
  {
    DigitsValueOfNatToString(n);
    var s := NatToString(n);
    if |s| < width {
      DigitsValueLeadingZeros(width - |s|, s);
    }
  }

  // ---------------------------------------------------------------------
  // Calendar dates (Python `date`) and datetimes (naive UTC `datetime`)
  // ---------------------------------------------------------------------

  /** A proleptic Gregorian date, as Python's `date(year, month, day)`. */
  datatype Date = Date(year: int, month: int, day: int)

  predicate IsLeap(y: int)
  {
    y % 4 == 0 && (y % 100 != 0 || y % 400 == 0)
  }

  function DaysInMonth(y: int, m: int): (r: int)
    requires 1 <= m <= 12
    ensures 28 <= r <= 31
  {
    if m == 2 then (if IsLeap(y) then 29 else 28)
    else if m == 4 || m == 6 || m == 9 || m == 11 then 30
    else 31
  }

  predicate ValidDate(d: Date)
  {
    1 <= d.month <= 12 && 1 <= d.day <= DaysInMonth(d.year, d.month)
  }

  function YearLength(y: int): int
  {
    if IsLeap(y) then 366 else 365
  }

  /** Days from 1970-01-01 to January 1st of year `y`. */
  function DaysBeforeYear(y: int): int
    decreases if y >= 1970 then y - 1970 else 1970 - y
  {
    if y == 1970 then 0
    else if y > 1970 then DaysBeforeYear(y - 1) + YearLength(y - 1)
    else DaysBeforeYear(y + 1) - YearLength(y)
  }

  lemma DaysBeforeNextYear(y: int)
    ensures DaysBeforeYear(y + 1) == DaysBeforeYear(y) + YearLength(y)
  {
  }

  /** Days from January 1st to the first day of month `m` of year `y`. */
  function DaysBeforeMonth(y: int, m: int): int
    requires 1 <= m <= 12
  {
    if m == 1 then 0 else DaysBeforeMonth(y, m - 1) + DaysInMonth(y, m - 1)
  }

  /** The days of December end the year. */
  lemma DecemberEndsYear(y: int)
    ensures DaysBeforeMonth(y, 12) + 31 == YearLength(y)
  {
    var feb := DaysInMonth(y, 2);
    assert DaysBeforeMonth(y, 2) == 31;
    assert DaysBeforeMonth(y, 3) == 31 + feb;
    assert DaysBeforeMonth(y, 4) == 62 + feb;
    assert DaysBeforeMonth(y, 5) == 92 + feb;
    assert DaysBeforeMonth(y, 6) == 123 + feb;
    assert DaysBeforeMonth(y, 7) == 153 + feb;
    assert DaysBeforeMonth(y, 8) == 184 + feb;
    assert DaysBeforeMonth(y, 9) == 215 + feb;
    assert DaysBeforeMonth(y, 10) == 245 + feb;
    assert DaysBeforeMonth(y, 11) == 276 + feb;
    assert DaysBeforeMonth(y, 12) == 306 + feb;
  }

  /** Days since 1970-01-01 (`(d - date(1970, 1, 1)).days`). */
  function DayNumber(d: Date): int
    requires ValidDate(d)
  {
    DaysBeforeYear(d.year) + DaysBeforeMonth(d.year, d.month) + d.day - 1
  }

  /** `date.weekday()`: Monday is 0 and Sunday is 6 (1970-01-01 was a Thursday). */
  function Weekday(d: Date): (r: int)
    requires ValidDate(d)
    ensures 0 <= r < 7
  {
    (DayNumber(d) + 3) % 7
  }

  /** `d + timedelta(days=1)`. */
  function NextDay(d: Date): (r: Date)
    requires ValidDate(d)
    ensures ValidDate(r) && DayNumber(r) == DayNumber(d) + 1
  {
    if d.day < DaysInMonth(d.year, d.month) then Date(d.year, d.month, d.day + 1)
    else if d.month < 12 then
      assert DaysBeforeMonth(d.year, d.month + 1) == DaysBeforeMonth(d.year, d.month) + d.day;
      Date(d.year, d.month + 1, 1)
    else
      DaysBeforeNextYear(d.year);
      DecemberEndsYear(d.year);
      Date(d.year + 1, 1, 1)
  }

  /** `d - timedelta(days=1)`. */
  function PrevDay(d: Date): (r: Date)
    requires ValidDate(d)
    ensures ValidDate(r) && DayNumber(r) == DayNumber(d) - 1
  {
    if d.day > 1 then Date(d.year, d.month, d.day - 1)
    else if d.month > 1 then Date(d.year, d.month - 1, DaysInMonth(d.year, d.month - 1))
    else
      DaysBeforeNextYear(d.year - 1);
      DecemberEndsYear(d.year - 1);
      Date(d.year - 1, 12, 31)
  }

  /** `d + timedelta(days=n)`. */
  function AddDays(d: Date, n: int): (r: Date)
    requires ValidDate(d)
    ensures ValidDate(r) && DayNumber(r) == DayNumber(d) + n
    decreases if n >= 0 then n else -n
  {
    if n == 0 then d
    else if n > 0 then AddDays(NextDay(d), n - 1)
    else AddDays(PrevDay(d), n + 1)
  }

  /** `(b - a).days`. */
  function DaysBetween(a: Date, b: Date): int
    requires ValidDate(a) && ValidDate(b)
  {
    DayNumber(b) - DayNumber(a)
  }

  /** A naive datetime: a date and the second of that day. */
  datatype DateTime = DateTime(date: Date, second: int)

  const SECONDS_PER_DAY: int := 86400

  predicate ValidDateTime(t: DateTime)
  {
    ValidDate(t.date) && 0 <= t.second < SECONDS_PER_DAY
  }

  /** A calendar date that exists. */
  type Day = d: Date | ValidDate(d) witness Date(1970, 1, 1)

  /** A datetime whose date exists and whose second lies within that day. */
  type Moment = t: DateTime | ValidDateTime(t) witness DateTime(Date(1970, 1, 1), 0)

  /** Seconds since the epoch; the order of datetimes is the order of stamps. */
  function Stamp(t: DateTime): int
    requires ValidDateTime(t)
  {
    DayNumber(t.date) * SECONDS_PER_DAY + t.second
  }

  /** `t + timedelta(seconds=s)`. */
  function AddSeconds(t: DateTime, s: int): (r: DateTime)
    requires ValidDateTime(t)
    ensures ValidDateTime(r) && Stamp(r) == Stamp(t) + s
  {
    var total := t.second + s;
    var r := DateTime(AddDays(t.date, total / SECONDS_PER_DAY), total % SECONDS_PER_DAY);
    assert Stamp(r) == (DayNumber(t.date) + total / SECONDS_PER_DAY) * SECONDS_PER_DAY + total % SECONDS_PER_DAY;
    r
  }

  /** `datetime.combine(d, time)` for a time of day given in seconds. */
  function Combine(d: Date, timeOfDay: int): (r: DateTime)
    requires ValidDate(d) && 0 <= timeOfDay < SECONDS_PER_DAY
    ensures ValidDateTime(r) && r.date == d
  {
    DateTime(d, timeOfDay)
  }

  /** `t.hour`. */
  function Hour(t: DateTime): (r: int)
    requires ValidDateTime(t)
    ensures 0 <= r < 24
    ensures r * 3600 <= t.second < (r + 1) * 3600
  {
    t.second / 3600
  }

  /** `f"{n:02d}"`-style fixed-width digits of a possibly negative number. */
  function PaddedInt(i: int, width: nat): (r: string)
  {
    if i >= 0 then ZeroPad(i, width) else IntToString(i)
  }

  /** `date.isoformat()`: `YYYY-MM-DD`. */
  function DateIso(d: Date): (r: string)
  {
    PaddedInt(d.year, 4) + "-" + PaddedInt(d.month, 2) + "-" + PaddedInt(d.day, 2)
  }

  /** `time.isoformat()` of a second of the day: `HH:MM:SS`. */
  function TimeIso(second: int): (r: string)
  {
    PaddedInt(second / 3600, 2) + ":" + PaddedInt(second % 3600 / 60, 2) + ":" + PaddedInt(second % 60, 2)
  }

  /** `datetime.isoformat()` (whole seconds): `YYYY-MM-DDTHH:MM:SS`. */
  function DateTimeIso(t: DateTime): (r: string)
    ensures StartsWith(r, DateIso(t.date) + "T")
  {
    DateIso(t.date) + "T" + TimeIso(t.second)
  }

  // ---------------------------------------------------------------------
  // Dynamic Python values (the JSON payloads of audit rows)
  // ---------------------------------------------------------------------

  /**
   * A Python value as it reaches the audit code: JSON scalars, `uuid.UUID`,
   * `datetime`, `date`, `enum.Enum` members (with their `.value` and their
   * `str()`), lists, tuples, dicts in insertion order, and other objects
   * (known by their `str()`).
   */
  datatype Value =
    | VNone
    | VBool(b: bool)
    | VInt(i: int)
    | VStr(s: string)
    | VUuid(text: string)
    | VDateTime(t: DateTime)
    | VDate(d: Date)
    | VEnum(payload: Value, text: string)
    | VList(items: seq<Value>)
    | VTuple(items: seq<Value>)
    | VDict(entries: seq<(string, Value)>)
    | VObject(text: string)

  /** A Python dict, as its entries in insertion order. */
  type Dict = seq<(string, Value)>

  /** The keys of a dict, in insertion order. */
  function Keys(entries: seq<(string, Value)>): (r: seq<string>)
    ensures |r| == |entries|
    ensures forall k :: 0 <= k < |r| ==> r[k] == entries[k].0
  {
    if entries == [] then [] else [entries[0].0] + Keys(entries[1..])
  }

  /** A dict never holds a key twice. */
  predicate UniqueKeys(entries: seq<(string, Value)>)
  {
    forall i, j :: 0 <= i < j < |entries| ==> entries[i].0 != entries[j].0
  }

  /** `d.get(key)`: the value under `key`, or `None`. */
  function Get(entries: seq<(string, Value)>, key: string): (r: Value)
    ensures (forall k :: 0 <= k < |entries| ==> entries[k].0 != key) ==> r == VNone
    ensures UniqueKeys(entries) ==> forall k :: 0 <= k < |entries| && entries[k].0 == key ==> r == entries[k].1
  {
    if entries == [] then VNone
    else if entries[0].0 == key then entries[0].1
    else Get(entries[1..], key)
  }

  predicate HasKey(entries: seq<(string, Value)>, key: string)
  {
    exists k :: 0 <= k < |entries| && entries[k].0 == key
  }

  /** Python truthiness: `None`, `False`, `0`, empty strings and empty containers are falsy. */
  predicate PyTruthy(v: Value)
  {
    match v
    case VNone => false
    case VBool(b) => b
    case VInt(i) => i != 0
    case VStr(s) => s != ""
    case VList(items) => items != []
    case VTuple(items) => items != []
    case VDict(entries) => entries != []
    case _ => true
  }

  /** Python truthiness of an optional dict: `None` and `{}` are falsy. */
  predicate TruthyDict(v: Option<seq<(string, Value)>>)
  {
    v.Some? && v.value != []
  }

  /** `repr()` of a string, without escaping of quotes inside it. */
  function QuoteRepr(s: string): string
  {
    "'" + s + "'"
  }

  /** `str(v)`: the text an f-string shows for a value. */
  function Str(v: Value): string
    decreases v, 1
  {
    match v
    case VNone => "None"
    case VBool(b) => if b then "True" else "False"
    case VInt(i) => IntToString(i)
    case VStr(s) => s
    case VUuid(text) => text
    case VDateTime(t) => DateIso(t.date) + " " + TimeIso(t.second)
    case VDate(d) => DateIso(d)
    case VEnum(_, text) => text
    case VList(items) => "[" + ReprItems(v, items) + "]"
    case VTuple(items) => if |items| == 1 then "(" + Repr(items[0]) + ",)" else "(" + ReprItems(v, items) + ")"
    case VDict(entries) => "{" + ReprEntries(v, entries) + "}"
    case VObject(text) => text
  }

  /** `repr(v)`: strings are quoted, everything else shows as `str`. */
  function Repr(v: Value): string
    decreases v, 2
  {
    if v.VStr? then QuoteRepr(v.s) else Str(v)
  }

  function ReprItems(parent: Value, items: seq<Value>): string
    requires forall k :: 0 <= k < |items| ==> items[k] < parent
    decreases parent, 0, |items|
  {
    if items == [] then ""
    else if |items| == 1 then Repr(items[0])
    else Repr(items[0]) + ", " + ReprItems(parent, items[1..])
  }

  function ReprEntries(parent: Value, entries: seq<(string, Value)>): string
    requires forall k :: 0 <= k < |entries| ==> entries[k].1 < parent
    decreases parent, 0, |entries|
  {
    if entries == [] then ""
    else
      var head := QuoteRepr(entries[0].0) + ": " + Repr(entries[0].1);
      if |entries| == 1 then head else head + ", " + ReprEntries(parent, entries[1..])
  }

  // ---------------------------------------------------------------------
  // Pagination
  // ---------------------------------------------------------------------

  /** `(total + limit - 1) // limit`, the number of pages of `limit` items. */
  function PageCount(total: nat, limit: nat): (r: nat)
    requires limit > 0
    ensures r * limit >= total
    ensures r == 0 || (r - 1) * limit < total
  {
    (total + limit - 1) / limit
  }

  /** `skip // limit + 1`, the 1-based page that the offset `skip` falls on. */
  function PageOf(skip: nat, limit: nat): (r: nat)
    requires limit > 0
    ensures r >= 1
    ensures (r - 1) * limit <= skip < r * limit
  {
    skip / limit + 1
  }

  /** `query.offset(skip).limit(limit)` over an ordered result. */
  function Window<T>(items: seq<T>, skip: nat, limit: nat): (r: seq<T>)
    ensures |r| <= limit
    ensures |r| == if skip >= |items| then 0 else if |items| - skip < limit then |items| - skip else limit
    ensures forall k :: 0 <= k < |r| ==> r[k] == items[skip + k]
  {
    if skip >= |items| then []
    else if |items| - skip < limit then items[skip..]
    else items[skip..skip + limit]
  }

  // ---------------------------------------------------------------------
  // Query results: filtering and ordering
  // ---------------------------------------------------------------------

  /** `query.filter(p)`: the rows satisfying `p`, in their stored order. */
  function Filter<T>(xs: seq<T>, p: T -> bool): (r: seq<T>)
    ensures |r| <= |xs|
    ensures forall k :: 0 <= k < |r| ==> r[k] in xs && p(r[k])
    ensures forall k :: 0 <= k < |xs| && p(xs[k]) ==> xs[k] in r
  {
    if xs == [] then []
    else
      assert xs == [xs[0]] + xs[1..];
      (if p(xs[0]) then [xs[0]] else []) + Filter(xs[1..], p)
  }

  /** Filtering by a predicate every row satisfies keeps every row. */
  lemma {:induction false} FilterKeepsAll<T>(xs: seq<T>, p: T -> bool)
    requires forall k :: 0 <= k < |xs| ==> p(xs[k])
    ensures Filter(xs, p) == xs
  {
    if xs != [] {
      FilterKeepsAll(xs[1..], p);
      assert [xs[0]] + xs[1..] == xs;
    }
  }

  /**
   * Python's `int(text)` on ASCII text: surrounding whitespace, an optional
   * sign, and digits that single underscores may separate; anything else
   * raises `ValueError` (`None` here).
   */
  function PyInt(t: string): (r: Option<int>)
  {
    var s := Strip(t);
    var body := if s != [] && (s[0] == '-' || s[0] == '+') then s[1..] else s;
    if DigitGroups(body) then
      var v: int := DigitsValue(Filter(body, (c: char) => IsDigit(c)));
      Some(if s[0] == '-' then -v else v)
    else None
  }

  predicate DigitGroups(body: string)
  {
    body != [] && IsDigit(body[0]) && IsDigit(body[|body| - 1])
    && forall k :: 0 <= k < |body| ==> IsDigit(body[k]) || (body[k] == '_' && k + 1 < |body| && IsDigit(body[k + 1]))
  }

  /** A plain run of digits reads as its decimal value. */
  lemma PyIntOfDigits(s: string)
    requires s != [] && forall k :: 0 <= k < |s| ==> IsDigit(s[k])
    ensures PyInt(s) == Some(DigitsValue(s))
  {
    assert IsDigit(s[0]) && IsDigit(s[|s| - 1]);
    StripOfStripped(s);
    assert s[0] != '-' && s[0] != '+';
    assert DigitGroups(s);
    FilterKeepsAll(s, (c: char) => IsDigit(c));
  }

  /** The rows satisfying `p`, counted: `query.filter(p).count()`. */
  function Count<T>(xs: seq<T>, p: T -> bool): (r: nat)
    ensures r == |Filter(xs, p)|
  {
    if xs == [] then 0 else (if p(xs[0]) then 1 else 0) + Count(xs[1..], p)
  }

  /**
   * A narrower predicate counts no more rows, and strictly fewer when some
   * row passes the wider one only.
   */
  lemma {:induction false} CountNarrower<T>(xs: seq<T>, p: T -> bool, q: T -> bool)
    requires forall k :: 0 <= k < |xs| && q(xs[k]) ==> p(xs[k])
    ensures Count(xs, q) <= Count(xs, p)
    ensures (exists k :: 0 <= k < |xs| && p(xs[k]) && !q(xs[k])) ==> Count(xs, q) < Count(xs, p)
  {
    if xs != [] {
      assert forall k :: 0 <= k < |xs[1..]| ==> xs[1..][k] == xs[k + 1];
      CountNarrower(xs[1..], p, q);
      if exists k :: 0 <= k < |xs| && p(xs[k]) && !q(xs[k]) {
        var k :| 0 <= k < |xs| && p(xs[k]) && !q(xs[k]);
        if k > 0 {
          assert xs[1..][k - 1] == xs[k];
        }
      }
    }
  }

  /** Ordered by `key`, largest first: `order_by(desc(key))`. */
  predicate SortedDesc<T>(xs: seq<T>, key: T -> int)
  {
    forall i, j :: 0 <= i < j < |xs| ==> key(xs[i]) >= key(xs[j])
  }

  /** Ordered by `key`, smallest first: `order_by(key)`. */
  predicate SortedAsc<T>(xs: seq<T>, key: T -> int)
  {
    forall i, j :: 0 <= i < j < |xs| ==> key(xs[i]) <= key(xs[j])
  }

  lemma ConsSortedDesc<T>(a: T, xs: seq<T>, key: T -> int)
    requires SortedDesc(xs, key) && (xs == [] || key(a) >= key(xs[0]))
    ensures SortedDesc([a] + xs, key)
  {
    var r := [a] + xs;
    forall i, j | 0 <= i < j < |r| ensures key(r[i]) >= key(r[j]) {
      if i > 0 {
        assert r[i] == xs[i - 1] && r[j] == xs[j - 1];
      } else {
        assert key(xs[0]) >= key(xs[j - 1]);
      }
    }
  }

  function InsertDesc<T>(x: T, xs: seq<T>, key: T -> int): (r: seq<T>)
    requires SortedDesc(xs, key)
    ensures SortedDesc(r, key)
    ensures multiset(r) == multiset(xs) + multiset{x}
    ensures |r| == |xs| + 1
    ensures r[0] == x || (xs != [] && r[0] == xs[0])
  {
    if xs == [] || key(xs[0]) <= key(x) then
      ConsSortedDesc(x, xs, key);
      [x] + xs
    else
      var rest := InsertDesc(x, xs[1..], key);
      assert xs == [xs[0]] + xs[1..];
      assert multiset(xs) == multiset{xs[0]} + multiset(xs[1..]);
      ConsSortedDesc(xs[0], rest, key);
      [xs[0]] + rest
  }

  /** `order_by(desc(key))`: the same rows, largest key first. */
  function SortDesc<T>(xs: seq<T>, key: T -> int): (r: seq<T>)
    ensures SortedDesc(r, key)
    ensures multiset(r) == multiset(xs)
    ensures |r| == |xs|
    ensures forall k :: 0 <= k < |r| ==> r[k] in xs
  {
    if xs == [] then []
    else
      assert xs == [xs[0]] + xs[1..];
      var r := InsertDesc(xs[0], SortDesc(xs[1..], key), key);
      assert forall k :: 0 <= k < |r| ==> r[k] in multiset(r);
      r
  }

  lemma ConsSortedAsc<T>(a: T, xs: seq<T>, key: T -> int)
    requires SortedAsc(xs, key) && (xs == [] || key(a) <= key(xs[0]))
    ensures SortedAsc([a] + xs, key)
  {
    var r := [a] + xs;
    forall i, j | 0 <= i < j < |r| ensures key(r[i]) <= key(r[j]) {
      if i > 0 {
        assert r[i] == xs[i - 1] && r[j] == xs[j - 1];
      } else {
        assert key(xs[0]) <= key(xs[j - 1]);
      }
    }
  }

  function InsertAsc<T>(x: T, xs: seq<T>, key: T -> int): (r: seq<T>)
    requires SortedAsc(xs, key)
    ensures SortedAsc(r, key)
    ensures multiset(r) == multiset(xs) + multiset{x}
    ensures |r| == |xs| + 1
    ensures r[0] == x || (xs != [] && r[0] == xs[0])
  {
    if xs == [] || key(x) <= key(xs[0]) then
      ConsSortedAsc(x, xs, key);
      [x] + xs
    else
      var rest := InsertAsc(x, xs[1..], key);
      assert xs == [xs[0]] + xs[1..];
      assert multiset(xs) == multiset{xs[0]} + multiset(xs[1..]);
      ConsSortedAsc(xs[0], rest, key);
      [xs[0]] + rest
  }

  /** `order_by(key)`: the same rows, smallest key first. */
  function SortAsc<T>(xs: seq<T>, key: T -> int): (r: seq<T>)
    ensures SortedAsc(r, key)
    ensures multiset(r) == multiset(xs)
    ensures |r| == |xs|
    ensures forall k :: 0 <= k < |r| ==> r[k] in xs
  {
    if xs == [] then []
    else
      assert xs == [xs[0]] + xs[1..];
      var r := InsertAsc(xs[0], SortAsc(xs[1..], key), key);
      assert forall k :: 0 <= k < |r| ==> r[k] in multiset(r);
      r
  }

  /**
   * Whether a row with sort keys `a` may come before one with keys `b` under
   * an `order_by` of several columns. Each key is written so that the larger
   * value sorts first (an ascending column enters negated): the first key
   * that differs decides, and rows whose keys all agree may come in either
   * order.
   */
  predicate KeysFirst(a: seq<int>, b: seq<int>)
    decreases |b|
  {
    b == [] || (a != [] && (a[0] > b[0] || (a[0] == b[0] && KeysFirst(a[1..], b[1..]))))
  }

  /** Any two rows can be put in order. */
  lemma KeysFirstTotal(a: seq<int>, b: seq<int>)
    ensures KeysFirst(a, b) || KeysFirst(b, a)
    decreases |a|
  {
    if a != [] && b != [] && a[0] == b[0] {
      KeysFirstTotal(a[1..], b[1..]);
    }
  }

  /** The order of keys is transitive. */
  lemma KeysFirstTransitive(a: seq<int>, b: seq<int>, c: seq<int>)
    requires KeysFirst(a, b) && KeysFirst(b, c)
    ensures KeysFirst(a, c)
    decreases |c|
  {
    if c != [] && a[0] == c[0] {
      KeysFirstTransitive(a[1..], b[1..], c[1..]);
    }
  }

  /** Ordered by the several columns `keys` gives, as `order_by(k1, k2, ...)` orders them. */
  predicate SortedByKeys<T>(xs: seq<T>, keys: T -> seq<int>)
  {
    forall i, j :: 0 <= i < j < |xs| ==> KeysFirst(keys(xs[i]), keys(xs[j]))
  }

  lemma ConsSortedByKeys<T>(a: T, xs: seq<T>, keys: T -> seq<int>)
    requires SortedByKeys(xs, keys) && (xs == [] || KeysFirst(keys(a), keys(xs[0])))
    ensures SortedByKeys([a] + xs, keys)
  {
    var r := [a] + xs;
    forall i, j | 0 <= i < j < |r| ensures KeysFirst(keys(r[i]), keys(r[j])) {
      if i > 0 {
        assert r[i] == xs[i - 1] && r[j] == xs[j - 1];
      } else if j > 1 {
        KeysFirstTransitive(keys(a), keys(xs[0]), keys(xs[j - 1]));
      }
    }
  }

  function InsertByKeys<T>(x: T, xs: seq<T>, keys: T -> seq<int>): (r: seq<T>)
    requires SortedByKeys(xs, keys)
    ensures SortedByKeys(r, keys)
    ensures multiset(r) == multiset(xs) + multiset{x}
    ensures |r| == |xs| + 1
    ensures r[0] == x || (xs != [] && r[0] == xs[0])
  {
    if xs == [] || KeysFirst(keys(x), keys(xs[0])) then
      ConsSortedByKeys(x, xs, keys);
      [x] + xs
    else
      var rest := InsertByKeys(x, xs[1..], keys);
      KeysFirstTotal(keys(x), keys(xs[0]));
      assert xs == [xs[0]] + xs[1..];
      assert multiset(xs) == multiset{xs[0]} + multiset(xs[1..]);
      ConsSortedByKeys(xs[0], rest, keys);
      [xs[0]] + rest
  }

  /** `order_by(k1, k2, ...)`: the same rows in the order of their keys. */
  function SortByKeys<T>(xs: seq<T>, keys: T -> seq<int>): (r: seq<T>)
    ensures SortedByKeys(r, keys)
    ensures multiset(r) == multiset(xs)
    ensures |r| == |xs|
  {
    if xs == [] then []
    else
      assert xs == [xs[0]] + xs[1..];
      InsertByKeys(xs[0], SortByKeys(xs[1..], keys), keys)
  }

  /** `query.filter(p).order_by(k1, k2, ...)`. */
  function SelectByKeys<T>(xs: seq<T>, p: T -> bool, keys: T -> seq<int>): (r: seq<T>)
    ensures multiset(r) == multiset(Filter(xs, p))
    ensures |r| == Count(xs, p)
    ensures SortedByKeys(r, keys)
    ensures forall k :: 0 <= k < |r| ==> r[k] in xs && p(r[k])
  {
    var matching := Filter(xs, p);
    var r := SortByKeys(matching, keys);
    assert forall k :: 0 <= k < |r| ==> r[k] in multiset(r);
    r
  }

  /**
   * The first `n` rows of `query.filter(p).order_by(k1, k2, ...)` are the
   * first matching rows in that order: a matching row left out may not come
   * before any row kept, and when at most `n` rows match, every one of them
   * is kept.
   */
  lemma TakeSelectByKeysKeepsFirst<T>(xs: seq<T>, p: T -> bool, keys: T -> seq<int>, n: nat)
    ensures var r := Take(SelectByKeys(xs, p, keys), n);
            (forall x, k :: x in xs && p(x) && x !in r && 0 <= k < |r| ==> KeysFirst(keys(r[k]), keys(x)))
            && (Count(xs, p) <= n ==> forall x :: x in xs && p(x) ==> x in r)
  {
    var s := SelectByKeys(xs, p, keys);
    var r := Take(s, n);
    forall x | x in xs && p(x) ensures x in s {
      var i :| 0 <= i < |xs| && xs[i] == x;
      assert x in multiset(Filter(xs, p));
    }
    forall x, k | x in xs && p(x) && x !in r && 0 <= k < |r| ensures KeysFirst(keys(r[k]), keys(x)) {
      var j :| 0 <= j < |s| && s[j] == x;
      assert r[k] == s[k];
    }
  }

  /** `query.filter(p).order_by(desc(key))`. */
  function SelectDesc<T>(xs: seq<T>, p: T -> bool, key: T -> int): (r: seq<T>)
    ensures multiset(r) == multiset(Filter(xs, p))
    ensures |r| == Count(xs, p)
    ensures SortedDesc(r, key)
    ensures forall k :: 0 <= k < |r| ==> r[k] in xs && p(r[k])
  {
    var matching := Filter(xs, p);
    var r := SortDesc(matching, key);
    assert forall k :: 0 <= k < |r| ==> r[k] in matching;
    r
  }

  /**
   * A page of `query.filter(p).order_by(desc(key))`: at most `limit` rows,
   * still newest first, each a stored row satisfying `p`.
   */
  lemma PageOfSelectDesc<T>(xs: seq<T>, p: T -> bool, key: T -> int, skip: nat, limit: nat)
    ensures var w := Window(SelectDesc(xs, p, key), skip, limit);
            && |w| <= limit
            && SortedDesc(w, key)
            && (forall k :: 0 <= k < |w| ==> w[k] in xs && p(w[k]))
  {
    var ordered := SelectDesc(xs, p, key);
    var w := Window(ordered, skip, limit);
    assert forall k :: 0 <= k < |w| ==> w[k] == ordered[skip + k];
  }

  /** `query.filter(p).order_by(key)`. */
  function SelectAsc<T>(xs: seq<T>, p: T -> bool, key: T -> int): (r: seq<T>)
    ensures multiset(r) == multiset(Filter(xs, p))
    ensures |r| == Count(xs, p)
    ensures SortedAsc(r, key)
    ensures forall k :: 0 <= k < |r| ==> r[k] in xs && p(r[k])
  {
    var matching := Filter(xs, p);
    var r := SortAsc(matching, key);
    assert forall k :: 0 <= k < |r| ==> r[k] in matching;
    r
  }

  /** The first `n` rows keep an order. */
  lemma TakeSortedDesc<T>(xs: seq<T>, n: nat, key: T -> int)
    requires SortedDesc(xs, key)
    ensures SortedDesc(Take(xs, n), key)
  {
  }

  /** `.limit(n)`: the first `n` rows. */
  function Take<T>(xs: seq<T>, n: nat): (r: seq<T>)
    ensures |r| == if n < |xs| then n else |xs|
    ensures r <= xs
  {
    if n < |xs| then xs[..n] else xs
  }

  /**
   * The first `n` rows of `query.filter(p).order_by(key)`: still in
   * ascending order, each a stored row satisfying `p`.
   */
  lemma LeadOfSelectAsc<T>(xs: seq<T>, p: T -> bool, key: T -> int, n: nat)
    ensures var r := Take(SelectAsc(xs, p, key), n);
            SortedAsc(r, key) && (forall k :: 0 <= k < |r| ==> r[k] in xs && p(r[k]))
  {
    var ordered := SelectAsc(xs, p, key);
    var r := Take(ordered, n);
    assert forall k :: 0 <= k < |r| ==> r[k] == ordered[k];
  }

  /**
   * The first `n` rows of `query.filter(p).order_by(desc(key))` are the
   * newest matching rows: a matching row left out is no newer than any row
   * kept, and when at most `n` rows match, every one of them is kept.
   */
  lemma TakeSelectDescKeepsNewest<T>(xs: seq<T>, p: T -> bool, key: T -> int, n: nat)
    ensures var r := Take(SelectDesc(xs, p, key), n);
            (forall x, k :: x in xs && p(x) && x !in r && 0 <= k < |r| ==> key(x) <= key(r[k]))
            && (Count(xs, p) <= n ==> forall x :: x in xs && p(x) ==> x in r)
  {
    var s := SelectDesc(xs, p, key);
    var r := Take(s, n);
    SelectedRowsAreListed(xs, p, key);
    forall x, k | x in xs && p(x) && x !in r && 0 <= k < |r| ensures key(x) <= key(r[k]) {
      var j :| 0 <= j < |s| && s[j] == x;
      assert r[k] == s[k];
    }
  }

  /**
   * The first `n` rows of `query.filter(p).order_by(key)` are the earliest
   * matching rows, the mirror of `TakeSelectDescKeepsNewest`.
   */
  lemma TakeSelectAscKeepsEarliest<T>(xs: seq<T>, p: T -> bool, key: T -> int, n: nat)
    ensures var r := Take(SelectAsc(xs, p, key), n);
            (forall x, k :: x in xs && p(x) && x !in r && 0 <= k < |r| ==> key(r[k]) <= key(x))
            && (Count(xs, p) <= n ==> forall x :: x in xs && p(x) ==> x in r)
  {
    var s := SelectAsc(xs, p, key);
    var r := Take(s, n);
    forall x | x in xs && p(x) ensures x in s {
      var i :| 0 <= i < |xs| && xs[i] == x;
      assert x in multiset(Filter(xs, p));
    }
    forall x, k | x in xs && p(x) && x !in r && 0 <= k < |r| ensures key(r[k]) <= key(x) {
      var j :| 0 <= j < |s| && s[j] == x;
      assert r[k] == s[k];
    }
  }

  /** Every stored row satisfying `p` is in `query.filter(p).order_by(desc(key))`. */
  lemma SelectedRowsAreListed<T>(xs: seq<T>, p: T -> bool, key: T -> int)
    ensures forall x :: x in xs && p(x) ==> x in SelectDesc(xs, p, key)
  {
    forall x | x in xs && p(x) ensures x in SelectDesc(xs, p, key) {
      var i :| 0 <= i < |xs| && xs[i] == x;
      assert x in multiset(Filter(xs, p));
    }
  }

  /** `query.filter(p).first()`: the position of the first row satisfying `p`. */
  function FirstMatch<T>(xs: seq<T>, p: T -> bool): (r: Option<nat>)
    ensures r.Some? ==> r.value < |xs| && p(xs[r.value]) && forall k :: 0 <= k < r.value ==> !p(xs[k])
    ensures r.None? ==> forall k :: 0 <= k < |xs| ==> !p(xs[k])
  {
    if xs == [] then None
    else if p(xs[0]) then Some(0)
    else
      var rest := FirstMatch(xs[1..], p);
      if rest.Some? then Some(rest.value + 1) else None
  }

  /** Rows that answer `p` alike, position by position, have the same first match. */
  lemma FirstMatchAlike<T>(xs: seq<T>, ys: seq<T>, p: T -> bool)
    requires |xs| == |ys| && forall k :: 0 <= k < |xs| ==> p(xs[k]) == p(ys[k])
    ensures FirstMatch(xs, p) == FirstMatch(ys, p)
  {
  }

  /**
   * `filter(p).order_by(key.desc()).first()`: a row satisfying `p` whose key
   * no other such row exceeds (the first of them in table order on ties).
   */
  function LatestIndex<T>(xs: seq<T>, p: T -> bool, key: T -> int): (r: Option<nat>)
    ensures r.Some? ==> r.value < |xs| && p(xs[r.value])
                        && forall k :: 0 <= k < |xs| && p(xs[k]) ==> key(xs[k]) <= key(xs[r.value])
    ensures r.None? ==> forall k :: 0 <= k < |xs| ==> !p(xs[k])
  {
    if xs == [] then None
    else
      var rest := LatestIndex(xs[1..], p, key);
      assert forall k :: 1 <= k < |xs| ==> xs[k] == xs[1..][k - 1];
      if !p(xs[0]) then (if rest.None? then None else Some(rest.value + 1))
      else if rest.Some? && key(xs[rest.value + 1]) > key(xs[0]) then Some(rest.value + 1)
      else Some(0)
  }

  /** The body of a `PaginatedResponse`: `items`, `total`, `page`, `size` and `pages`. */
  datatype Page<T> = Page(items: seq<T>, total: nat, page: nat, size: nat, pages: nat)

  /** `query.offset(skip).limit(limit)` with the counts of the whole result. */
  function Paginate<T>(rows: seq<T>, skip: nat, limit: nat): (r: Page<T>)
    requires limit > 0
    ensures r.total == |rows| && r.size == limit && |r.items| <= limit
    ensures r.items == Window(rows, skip, limit)
    ensures r.page == PageOf(skip, limit) && r.pages == PageCount(|rows|, limit)
  {
    Page(Window(rows, skip, limit), |rows|, PageOf(skip, limit), limit, PageCount(|rows|, limit))
  }

  /** A page of the matching rows in ascending key order holds matching rows, still in that order. */
  lemma SortedPage<T>(rows: seq<T>, p: T -> bool, key: T -> int, skip: nat, limit: nat)
    requires limit > 0
    ensures Paginate(SelectAsc(rows, p, key), skip, limit).total == Count(rows, p)
    ensures forall k :: 0 <= k < |Paginate(SelectAsc(rows, p, key), skip, limit).items| ==>
      Paginate(SelectAsc(rows, p, key), skip, limit).items[k] in rows && p(Paginate(SelectAsc(rows, p, key), skip, limit).items[k])
    ensures SortedAsc(Paginate(SelectAsc(rows, p, key), skip, limit).items, key)
  {
    var ordered := SelectAsc(rows, p, key);
    var items := Paginate(ordered, skip, limit).items;
    assert forall k :: 0 <= k < |items| ==> items[k] == ordered[skip + k];
  }

  /** Filtering distributes over concatenation, so a loop can filter row by row. */
  lemma {:induction false} FilterAppend<T>(a: seq<T>, b: seq<T>, p: T -> bool)
    ensures Filter(a + b, p) == Filter(a, p) + Filter(b, p)
  {
    if a == [] {
      assert a + b == b;
    } else {
      assert (a + b)[0] == a[0];
      assert (a + b)[1..] == a[1..] + b;
      FilterAppend(a[1..], b, p);
      var head := if p(a[0]) then [a[0]] else [];
      calc {
        Filter(a + b, p);
        head + Filter(a[1..] + b, p);
        head + (Filter(a[1..], p) + Filter(b, p));
        (head + Filter(a[1..], p)) + Filter(b, p);
      }
    }
  }

  /** Filtering a row appended at the end keeps or drops that row alone. */
  lemma FilterSnoc<T>(xs: seq<T>, x: T, p: T -> bool)
    ensures Filter(xs + [x], p) == Filter(xs, p) + (if p(x) then [x] else [])
  {
    FilterAppend(xs, [x], p);
    assert [x][1..] == [];
  }

  /** Two successive filters are one filter by the conjunction. */
  lemma {:induction false} FilterFilter<T>(xs: seq<T>, p: T -> bool, q: T -> bool, pq: T -> bool)
    requires forall x :: pq(x) == (p(x) && q(x))
    ensures Filter(Filter(xs, p), q) == Filter(xs, pq)
  {
    if xs != [] {
      FilterFilter(xs[1..], p, q, pq);
      var head := if p(xs[0]) then [xs[0]] else [];
      FilterAppend(head, Filter(xs[1..], p), q);
    }
  }

  /** `[f(x) for x in xs]`. */
  function MapSeq<A, B>(xs: seq<A>, f: A -> B): (r: seq<B>)
    ensures |r| == |xs| && forall k :: 0 <= k < |xs| ==> r[k] == f(xs[k])
  {
    seq(|xs|, k requires 0 <= k < |xs| => f(xs[k]))
  }
}
