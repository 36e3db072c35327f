/**
 * Proleptic Gregorian calendar arithmetic as Python's `datetime` does it,
 * and the `strftime` renderings the bot uses for a `datetime` value.
 */
module Calendar {
  import opened PyText

  /** A `datetime` without time zone: the six fields the bot reads and writes. */
  datatype DateTime = DateTime(year: int, month: int, day: int, hour: int, minute: int, second: int)

  const MinYear := 1
  const MaxYear := 9999

  predicate IsLeapYear(y: int) { y % 4 == 0 && (y % 100 != 0 || y % 400 == 0) }

  function DaysInMonth(y: int, m: int): (n: int)
    requires 1 <= m <= 12
    ensures 28 <= n <= 31
    ensures n == 31 <==> m in {1, 3, 5, 7, 8, 10, 12}
    ensures n == 30 <==> m in {4, 6, 9, 11}
    ensures n == 29 <==> m == 2 && IsLeapYear(y)
  {
    if m == 2 then (if IsLeapYear(y) then 29 else 28)
    else if m == 4 || m == 6 || m == 9 || m == 11 then 30
    else 31
  }

  /** What `datetime.date(y, m, d)` accepts without raising `ValueError`. */
  predicate ValidDate(y: int, m: int, d: int)
  {
    MinYear <= y <= MaxYear && 1 <= m <= 12 && 1 <= d <= DaysInMonth(y, m)
  }

  predicate ValidTime(h: int, mi: int, s: int)
  {
    0 <= h < 24 && 0 <= mi < 60 && 0 <= s < 60
  }

  predicate Valid(t: DateTime)
  {
    ValidDate(t.year, t.month, t.day) && ValidTime(t.hour, t.minute, t.second)
  }

  /** Days in the years before `y`, counted from 0001-01-01. */
  function DaysBeforeYear(y: int): int
    requires y >= 1
  {
    var p := y - 1;
    365 * p + p / 4 - p / 100 + p / 400
  }

  /** Days in the months of year `y` before month `m`. */
  function DaysBeforeMonth(y: int, m: int): int
    requires 1 <= m <= 12
  {
    [0, 31, 59, 90, 120, 151, 181, 212, 243, 273, 304, 334][m - 1]
      + (if m > 2 && IsLeapYear(y) then 1 else 0)
  }

  /** `date.toordinal()`: 0001-01-01 is day 1. */
  function Ordinal(y: int, m: int, d: int): int
    requires ValidDate(y, m, d)
  {
    DaysBeforeYear(y) + DaysBeforeMonth(y, m) + d
  }

  /** `date.weekday()`: Monday is 0 and Sunday is 6. */
  function Weekday(y: int, m: int, d: int): (w: nat)
    requires ValidDate(y, m, d)
    ensures w < 7
  {
    (Ordinal(y, m, d) + 6) % 7
  }

  /** The calendar day that follows a valid one (none after 9999-12-31). */
  function NextDay(y: int, m: int, d: int): (r: (int, int, int))
    requires ValidDate(y, m, d)
  {
    if d < DaysInMonth(y, m) then (y, m, d + 1)
    else if m < 12 then (y, m + 1, 1)
    else (y + 1, 1, 1)
  }

  lemma DaysBeforeNextMonth(y: int, m: int)
    requires 1 <= m < 12
    ensures DaysBeforeMonth(y, m + 1) == DaysBeforeMonth(y, m) + DaysInMonth(y, m)
  {
  }

  lemma DaysBeforeNextYear(y: int)
    requires y >= 1
    ensures DaysBeforeYear(y + 1) == DaysBeforeYear(y) + DaysBeforeMonth(y, 12) + 31
  {
    var p := y - 1;
    assert (p + 1) / 4 == p / 4 + (if y % 4 == 0 then 1 else 0);
    assert (p + 1) / 100 == p / 100 + (if y % 100 == 0 then 1 else 0);
    assert (p + 1) / 400 == p / 400 + (if y % 400 == 0 then 1 else 0);
  }

  /**
   * The weekday index `(o + 6) % 7` of the ordinal after `o` is one more than
   * that of `o`, modulo seven.
   */
  lemma WeekdayOfSuccessor(o: int)
    ensures (o + 1 + 6) % 7 == ((o + 6) % 7 + 1) % 7
  {
  }

  /**
   * Consecutive calendar days have consecutive ordinals, so the weekday
   * advances by one each day and wraps from Sunday to Monday.
   */
  lemma NextDayAdvancesWeekday(y: int, m: int, d: int)
    requires ValidDate(y, m, d)
    requires (y, m, d) != (MaxYear, 12, 31)
    ensures ValidDate(NextDay(y, m, d).0, NextDay(y, m, d).1, NextDay(y, m, d).2)
    ensures Ordinal(NextDay(y, m, d).0, NextDay(y, m, d).1, NextDay(y, m, d).2) == Ordinal(y, m, d) + 1
    ensures Weekday(NextDay(y, m, d).0, NextDay(y, m, d).1, NextDay(y, m, d).2) == (Weekday(y, m, d) + 1) % 7
  {
    var n := NextDay(y, m, d);
    if d < DaysInMonth(y, m) {
      assert n == (y, m, d + 1);
    } else if m < 12 {
      assert n == (y, m + 1, 1);
      DaysBeforeNextMonth(y, m);
    } else {
      assert n == (y + 1, 1, 1);
      assert m == 12 && d == 31;
      DaysBeforeNextYear(y);
      assert DaysBeforeMonth(y + 1, 1) == 0;
    }
    WeekdayOfSuccessor(Ordinal(y, m, d));
  }

  const WeekdayNames: seq<string> :=
    ["Monday", "Tuesday", "Wednesday", "Thursday", "Friday", "Saturday", "Sunday"]

  const MonthNames: seq<string> :=
    ["January", "February", "March", "April", "May", "June", "July",
     "August", "September", "October", "November", "December"]

  /** `%b` in the C locale: the first three letters of the month's name. */
  function MonthAbbreviation(m: int): (s: string)
    requires 1 <= m <= 12
    ensures |s| == 3 && s == MonthNames[m - 1][..3]
  {
    ["Jan", "Feb", "Mar", "Apr", "May", "Jun", "Jul", "Aug", "Sep", "Oct", "Nov", "Dec"][m - 1]
  }

  /** The `%I` hour: the 12-hour clock reading, 12 standing for hour 0 and hour 12. */
  function Hour12(h: int): (r: int)
    requires 0 <= h < 24
    ensures 1 <= r <= 12
    ensures h == 0 ==> r == 12
    ensures 1 <= h <= 12 ==> r == h
    ensures 13 <= h ==> r == h - 12
  {
    if h % 12 == 0 then 12 else h % 12
  }

  /** The `%p` marker in the C locale. */
  function Meridiem(h: int): (s: string)
    ensures s == (if h < 12 then "AM" else "PM")
  {
    if h < 12 then "AM" else "PM"
  }

  /** Reading a 12-hour clock back: the hour and marker together determine the hour. */
  function Hour24(h12: int, pm: bool): int
  {
    if h12 == 12 then (if pm then 12 else 0) else if pm then h12 + 12 else h12
  }

  lemma {:induction false} Hour12RoundTrip(h: int)
    requires 0 <= h < 24
    ensures Hour24(Hour12(h), Meridiem(h) == "PM") == h
  {
    if h >= 12 {
      assert Meridiem(h) == "PM";
    } else {
      assert Meridiem(h) != "PM";
    }
  }

  /** `%I:%M:%S %p`. */
  function Clock12(t: DateTime): string
    requires Valid(t)
  {
    Pad2(Hour12(t.hour)) + ":" + Pad2(t.minute) + ":" + Pad2(t.second) + " " + Meridiem(t.hour)
  }

  /**
   * `%A, %B %d, %Y`. glibc's `%Y` prints the year without zero padding, so
   * year 999 reads "999".
   */
  function LongDate(t: DateTime): string
    requires Valid(t)
  {
    WeekdayNames[Weekday(t.year, t.month, t.day)] + ", " + MonthNames[t.month - 1] + " "
      + Pad2(t.day) + ", " + NatToString(t.year)
  }

  /**
   * The 12-hour clock reading gives the time back: two digits, a colon, two
   * digits, a colon, two digits, a space and the marker, the hour read with
   * its marker, the minute and the second being `t`'s.
   */
  lemma Clock12ReadsBack(t: DateTime)
    requires Valid(t)
    ensures var c := Clock12(t);
      |c| == 11 && c[2] == ':' && c[5] == ':' && c[8] == ' ' &&
      AllDigits(c[..2]) && AllDigits(c[3..5]) && AllDigits(c[6..8]) && (c[9..] == "AM" || c[9..] == "PM")
    ensures var c := Clock12(t);
      Hour24(DigitsValue(c[..2]), c[9..] == "PM") == t.hour &&
      DigitsValue(c[3..5]) == t.minute && DigitsValue(c[6..8]) == t.second
  {
    var h, m, sec, p := Pad2(Hour12(t.hour)), Pad2(t.minute), Pad2(t.second), Meridiem(t.hour);
    var c := Clock12(t);
    assert c == h + ":" + m + ":" + sec + " " + p;
    assert c[..2] == h && c[3..5] == m && c[6..8] == sec && c[9..] == p;
    Hour12RoundTrip(t.hour);
  }

  /** A word without spaces, then a space: the word is everything before the first space. */
  lemma SpaceDelimited(a: string, x: string, b: string, y: string)
    requires ' ' !in a && ' ' !in b && a + " " + x == b + " " + y
    ensures a == b && x == y
  {
    var s := a + " " + x;
    assert forall i :: 0 <= i < |a| ==> s[i] == a[i];
    assert forall i :: 0 <= i < |b| ==> s[i] == b[i];
    assert s[|a|] == ' ' && s[|b|] == ' ';
    assert a == s[..|a|] && b == s[..|b|];
    assert x == s[|a| + 1..] && y == s[|b| + 1..];
  }

  lemma NamesHaveNoSpace()
    ensures forall i :: 0 <= i < 7 ==> ' ' !in WeekdayNames[i] + ","
    ensures forall i :: 0 <= i < 12 ==> ' ' !in MonthNames[i]
    ensures forall i, j :: 0 <= i < 12 && 0 <= j < 12 && MonthNames[i] == MonthNames[j] ==> i == j
  {
  }

  /** Four space-free words laid out as the long date: the last three are determined. */
  lemma LongDateWords(w: string, m: string, d: string, y: string, v: string, n: string, e: string, z: string)
    requires ' ' !in w + "," && ' ' !in m && ' ' !in d + "," && ' ' !in v + "," && ' ' !in n && ' ' !in e + ","
    requires w + ", " + m + " " + d + ", " + y == v + ", " + n + " " + e + ", " + z
    ensures m == n && d == e && y == z
  {
    assert w + ", " + m + " " + d + ", " + y == (w + ",") + " " + (m + " " + ((d + ",") + " " + y));
    assert v + ", " + n + " " + e + ", " + z == (v + ",") + " " + (n + " " + ((e + ",") + " " + z));
    SpaceDelimited(w + ",", m + " " + ((d + ",") + " " + y), v + ",", n + " " + ((e + ",") + " " + z));
    SpaceDelimited(m, (d + ",") + " " + y, n, (e + ",") + " " + z);
    SpaceDelimited(d + ",", y, e + ",", z);
    assert d == (d + ",")[..|d|];
    assert e == (e + ",")[..|e|];
  }

  /** The long date names the date unambiguously: two dates it renders alike are the same date. */
  lemma LongDateDetermines(t: DateTime, u: DateTime)
    requires Valid(t) && Valid(u) && LongDate(t) == LongDate(u)
    ensures t.year == u.year && t.month == u.month && t.day == u.day
  {
    NamesHaveNoSpace();
    var d, e := Pad2(t.day), Pad2(u.day);
    assert ' ' !in d + "," && ' ' !in e + ",";
    LongDateWords(WeekdayNames[Weekday(t.year, t.month, t.day)], MonthNames[t.month - 1], d, NatToString(t.year),
                  WeekdayNames[Weekday(u.year, u.month, u.day)], MonthNames[u.month - 1], e, NatToString(u.year));
    NatToStringValue(t.year);
    NatToStringValue(u.year);
  }

  lemma LongDateExample()
    ensures LongDate(DateTime(2025, 12, 13, 21, 14, 7)) == "Saturday, December 13, 2025"
    ensures Clock12(DateTime(2025, 12, 13, 21, 14, 7)) == "09:14:07 PM"
  {
    assert DaysBeforeYear(2025) == 739251;
    assert DaysBeforeMonth(2025, 12) == 334;
    assert Weekday(2025, 12, 13) == 5;
    assert NatToString(2) == "2";
    assert NatToString(20) == "20";
    assert NatToString(202) == "202";
    assert NatToString(2025) == "2025";
  }
}
