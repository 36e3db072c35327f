/**
 * `datetime.strptime` for the two formats the bot parses, following
 * CPython's `_strptime`: each directive is a regular expression, a space in
 * the format matches one or more whitespace characters, the whole input must
 * be consumed, and the fields must then form a valid `datetime`.
 */
module Strptime {
  import opened Wrappers
  import opened PyText
  import opened Calendar

  /** The characters Python's `\s` matches in a `str` pattern. */
  predicate IsRegexSpace(c: char)
  {
    c == ' ' || '\t' <= c <= '\r' || '\U{001C}' <= c <= '\U{001F}' || c == '\U{0085}' || c == '\U{00A0}'
    || c == '\U{1680}' || '\U{2000}' <= c <= '\U{200A}' || c == '\U{2028}' || c == '\U{2029}'
    || c == '\U{202F}' || c == '\U{205F}' || c == '\U{3000}'
  }

  /** Splits `s` at the first `sep`, or gives None when `s` has none. */
  function SplitAtFirst(s: string, sep: char): (r: Option<(string, string)>)
    ensures r.None? <==> sep !in s
    ensures r.Some? ==> s == r.value.0 + [sep] + r.value.1 && sep !in r.value.0
  {
    if s == [] then None
    else if s[0] == sep then Some(([], s[1..]))
    else match SplitAtFirst(s[1..], sep)
      case None => None
      case Some((a, b)) =>
        assert s == [s[0]] + s[1..];
        Some(([s[0]] + a, b))
  }

  lemma {:induction false} SplitAtFirstOf(a: string, sep: char, b: string)
    requires sep !in a
    ensures SplitAtFirst(a + [sep] + b, sep) == Some((a, b))
  {
    var s := a + [sep] + b;
    if a == [] {
      assert s[1..] == b;
    } else {
      assert s[1..] == a[1..] + [sep] + b;
      SplitAtFirstOf(a[1..], sep, b);
      assert [s[0]] + a[1..] == a;
    }
  }

  /** The first index at or after `from` holding a whitespace character, or `|s|`. */
  function FirstSpace(s: string, from: nat): (k: nat)
    requires from <= |s|
    ensures from <= k <= |s|
    ensures forall i :: from <= i < k ==> !IsRegexSpace(s[i])
    ensures k < |s| ==> IsRegexSpace(s[k])
    decreases |s| - from
  {
    if from == |s| || IsRegexSpace(s[from]) then from else FirstSpace(s, from + 1)
  }

  /** What is left after a greedy `\s*`. */
  function DropSpaces(s: string): (r: string)
    ensures |r| <= |s| && r == s[|s| - |r|..]
    ensures r != [] ==> !IsRegexSpace(r[0])
    ensures forall i :: 0 <= i < |s| - |r| ==> IsRegexSpace(s[i])
    ensures s != [] && IsRegexSpace(s[0]) ==> |r| < |s|
  {
    if s != [] && IsRegexSpace(s[0]) then DropSpaces(s[1..]) else s
  }

  /** A run of characters each of which `\s` matches. */
  predicate AllSpaces(w: string)
  {
    forall i :: 0 <= i < |w| ==> IsRegexSpace(w[i])
  }

  /**
   * A one- or two-digit number within bounds. With the bounds below this is
   * exactly what `%m` (`1[0-2]|0[1-9]|[1-9]`), `%H` (`2[0-3]|[0-1]\d|\d`),
   * `%M` (`[0-5]\d|\d`) and `%S` (`6[0-1]|[0-5]\d|\d`) accept, and what the
   * digit alternatives of `%d` accept.
   */
  function SmallNumber(t: string, least: nat, most: nat): (r: Option<int>)
    ensures r.Some? ==> least <= r.value <= most && 1 <= |t| <= 2 && AllDigits(t) && r.value == DigitsValue(t)
  {
    if 1 <= |t| <= 2 && AllDigits(t) && least <= DigitsValue(t) <= most then Some(DigitsValue(t)) else None
  }

  /** `%d`: `3[01]|[12]\d|0[1-9]|[1-9]| [1-9]`. */
  function DayField(t: string): (r: Option<int>)
    ensures r.Some? ==> 1 <= r.value <= 31
  {
    if |t| == 2 && t[0] == ' ' && '1' <= t[1] <= '9' then Some(DigitValue(t[1]))
    else SmallNumber(t, 1, 31)
  }

  function MonthField(t: string): (r: Option<int>)
    ensures r.Some? ==> 1 <= r.value <= 12
  {
    SmallNumber(t, 1, 12)
  }

  /** `%Y`: exactly four digits. */
  function YearField(t: string): (r: Option<int>)
    ensures r.Some? ==> 0 <= r.value <= 9999
  {
    if |t| == 4 && AllDigits(t) then
      DigitsValueBelow(t);
      assert Pow10(4) == 10000;
      Some(DigitsValue(t))
    else None
  }

  /** The fields of `%d-%m-%Y`, once split, checked as `datetime.date` does. */
  function DateOf(dd: string, mm: string, yyyy: string): (r: Option<DateTime>)
    ensures r.Some? ==> Valid(r.value)
  {
    var d, m, y := DayField(dd), MonthField(mm), YearField(yyyy);
    if d.Some? && m.Some? && y.Some? && ValidDate(y.value, m.value, d.value)
    then Some(DateTime(y.value, m.value, d.value, 0, 0, 0))
    else None
  }

  /** `datetime.strptime(s, '%d-%m-%Y')`, None standing for `ValueError`. */
  function ParseDayMonthYear(s: string): (r: Option<DateTime>)
    ensures r.Some? ==> Valid(r.value)
    ensures r.Some? ==> r.value.hour == 0 && r.value.minute == 0 && r.value.second == 0
  {
    match SplitAtFirst(s, '-')
    case None => None
    case Some((dd, rest)) =>
      match SplitAtFirst(rest, '-')
      case None => None
      case Some((mm, yyyy)) => DateOf(dd, mm, yyyy)
  }

  /**
   * The `%d` token that ends at the format's space and the text after the
   * `\s+` that space stands for. Only `%d`'s ` [1-9]` alternative starts with
   * whitespace, so the token runs up to the first whitespace after its
   * first character.
   */
  function SplitDayAndClock(s: string): (r: Option<(string, string)>)
  {
    if s == [] then None
    else
      var k := FirstSpace(s, 1);
      if k == |s| then None else Some((s[..k], DropSpaces(s[k..])))
  }

  /** The fields of `%Y-%m-%d %H:%M:%S`, once split, checked as `datetime` does. */
  function TimestampOf(yyyy: string, mm: string, dd: string, hh: string, mi: string, ss: string): (r: Option<DateTime>)
    ensures r.Some? ==> Valid(r.value)
  {
    var y, m, d := YearField(yyyy), MonthField(mm), DayField(dd);
    var h, n, sec := SmallNumber(hh, 0, 23), SmallNumber(mi, 0, 59), SmallNumber(ss, 0, 61);
    if y.Some? && m.Some? && d.Some? && h.Some? && n.Some? && sec.Some?
       && ValidDate(y.value, m.value, d.value) && sec.value <= 59
    then Some(DateTime(y.value, m.value, d.value, h.value, n.value, sec.value))
    else None
  }

  /** `datetime.strptime(s, '%Y-%m-%d %H:%M:%S')`, None standing for `ValueError`. */
  function ParseTimestamp(s: string): (r: Option<DateTime>)
    ensures r.Some? ==> Valid(r.value)
  {
    match SplitAtFirst(s, '-')
    case None => None
    case Some((yyyy, r1)) =>
      match SplitAtFirst(r1, '-')
      case None => None
      case Some((mm, r2)) =>
        match SplitDayAndClock(r2)
        case None => None
        case Some((dd, clock)) =>
          match SplitAtFirst(clock, ':')
          case None => None
          case Some((hh, r3)) =>
            match SplitAtFirst(r3, ':')
            case None => None
            case Some((mi, ss)) => TimestampOf(yyyy, mm, dd, hh, mi, ss)
  }

  /** The ways `%d-%m-%Y` lets a user spell a date: padded or not, and `%d`'s leading-space form. */
  function DaySpellings(d: int): set<string>
    requires 1 <= d <= 31
  {
    {Pad2(d)} + (if d < 10 then {[DigitChar(d)], [' ', DigitChar(d)]} else {})
  }

  function MonthSpellings(m: int): set<string>
    requires 1 <= m <= 12
  {
    {Pad2(m)} + (if m < 10 then {[DigitChar(m)]} else {})
  }

  /** The canonical `DD-MM-YYYY` spelling that the bot's usage text asks for. */
  function DayMonthYearText(t: DateTime): string
    requires Valid(t)
  {
    Pad2(t.day) + "-" + Pad2(t.month) + "-" + Pad4(t.year)
  }

  /** The wire spelling `YYYY-MM-DD HH:MM:SS` of the upstream timestamps. */
  function TimestampText(t: DateTime): string
    requires Valid(t)
  {
    Pad4(t.year) + "-" + Pad2(t.month) + "-" + Pad2(t.day) + " "
      + Pad2(t.hour) + ":" + Pad2(t.minute) + ":" + Pad2(t.second)
  }

  lemma SmallNumberOfPad2(n: nat, least: nat, most: nat)
    requires least <= n <= most && n < 100
    ensures SmallNumber(Pad2(n), least, most) == Some(n)
  {
  }

  lemma NoSeparatorInDigits(s: string, c: char)
    requires AllDigits(s) && !IsDigit(c)
    ensures c !in s
  {
  }

  /** A single character read back as a `DigitsValue`. */
  lemma OneDigit(t: string)
    requires |t| == 1 && AllDigits(t)
    ensures DigitsValue(t) == DigitValue(t[0]) && t == [DigitChar(DigitValue(t[0]))]
  {
    assert t[..0] == [];
  }

  lemma TwoDigits(t: string)
    requires |t| == 2 && AllDigits(t)
    ensures DigitsValue(t) == 10 * DigitValue(t[0]) + DigitValue(t[1])
    ensures t == Pad2(DigitsValue(t))
  {
    assert t[..1] == [t[0]] && t[..1][..0] == [];
    assert DigitsValue(t[..1]) == DigitValue(t[0]);
    assert DigitsValue(t) == 10 * DigitsValue(t[..1]) + DigitValue(t[1]);
  }

  lemma DayFieldSpellings(t: string, d: int)
    requires 1 <= d <= 31
    ensures DayField(t) == Some(d) <==> t in DaySpellings(d)
  {
    if DayField(t) == Some(d) {
      if |t| == 2 && t[0] == ' ' && '1' <= t[1] <= '9' {
        assert t == [' ', DigitChar(d)];
      } else if |t| == 1 {
        OneDigit(t);
      } else {
        TwoDigits(t);
      }
    }
    if t in DaySpellings(d) {
      if t == Pad2(d) {
        SmallNumberOfPad2(d, 1, 31);
      } else if t == [DigitChar(d)] {
        OneDigit(t);
      }
    }
  }

  lemma MonthFieldSpellings(t: string, m: int)
    requires 1 <= m <= 12
    ensures MonthField(t) == Some(m) <==> t in MonthSpellings(m)
  {
    if MonthField(t) == Some(m) {
      if |t| == 1 {
        OneDigit(t);
      } else {
        TwoDigits(t);
      }
    }
    if t in MonthSpellings(m) {
      if t == Pad2(m) {
        SmallNumberOfPad2(m, 1, 12);
      } else {
        OneDigit(t);
      }
    }
  }

  lemma YearFieldSpelling(t: string, y: int)
    requires MinYear <= y <= MaxYear
    ensures YearField(t) == Some(y) <==> t == Pad4(y)
  {
    if YearField(t) == Some(y) {
      var p := Pad4(y);
      assert t[..3][..2] == t[..2] && t[..2][..1] == [t[0]] && t[..1][..0] == [];
      assert p[..3][..2] == p[..2] && p[..2][..1] == [p[0]] && p[..1][..0] == [];
      DigitsDetermine(t, p);
    }
  }

  /** A number's last decimal digit and the rest are determined by the number. */
  lemma LastDigitDetermined(x: nat, d: nat, y: nat, e: nat)
    requires d < 10 && e < 10 && 10 * x + d == 10 * y + e
    ensures x == y && d == e
  {
  }

  /** Two equally long digit runs with the same value are equal. */
  lemma {:induction false} DigitsDetermine(a: string, b: string)
    requires |a| == |b| && AllDigits(a) && AllDigits(b) && DigitsValue(a) == DigitsValue(b)
    ensures a == b
  {
    if a != [] {
      var n := |a| - 1;
      assert DigitsValue(a) == 10 * DigitsValue(a[..n]) + DigitValue(a[n]);
      assert DigitsValue(b) == 10 * DigitsValue(b[..n]) + DigitValue(b[n]);
      LastDigitDetermined(DigitsValue(a[..n]), DigitValue(a[n]), DigitsValue(b[..n]), DigitValue(b[n]));
      DigitsDetermine(a[..n], b[..n]);
      assert a == a[..n] + [a[n]] && b == b[..n] + [b[n]];
    }
  }

  /** The spellings `%d-%m-%Y` accepts for a date. */
  predicate SpellsDate(s: string, t: DateTime)
    requires Valid(t)
  {
    exists dd, mm :: dd in DaySpellings(t.day) && mm in MonthSpellings(t.month) && s == dd + "-" + mm + "-" + Pad4(t.year)
  }

  lemma DateOfSpellings(dd: string, mm: string, yyyy: string, t: DateTime)
    requires Valid(t) && t.hour == 0 && t.minute == 0 && t.second == 0
    ensures DateOf(dd, mm, yyyy) == Some(t) <==>
      dd in DaySpellings(t.day) && mm in MonthSpellings(t.month) && yyyy == Pad4(t.year)
  {
    DayFieldSpellings(dd, t.day);
    MonthFieldSpellings(mm, t.month);
    YearFieldSpelling(yyyy, t.year);
  }

  /** Every string `%d-%m-%Y` accepts is a spelling of the date it yields. */
  lemma ParsedDateIsSpelled(s: string)
    requires ParseDayMonthYear(s).Some?
    ensures SpellsDate(s, ParseDayMonthYear(s).value)
  {
    var t := ParseDayMonthYear(s).value;
    var (dd, rest) := SplitAtFirst(s, '-').value;
    var (mm, yyyy) := SplitAtFirst(rest, '-').value;
    assert DateOf(dd, mm, yyyy) == Some(t);
    DateOfSpellings(dd, mm, yyyy, t);
    assert s == dd + "-" + mm + "-" + Pad4(t.year);
  }

  lemma SpellingsHaveNoDash(dd: string, d: int, mm: string, m: int)
    requires 1 <= d <= 31 && 1 <= m <= 12
    requires dd in DaySpellings(d) && mm in MonthSpellings(m)
    ensures '-' !in dd && '-' !in mm
  {
    if dd == Pad2(d) {
      NoSeparatorInDigits(dd, '-');
    }
    if mm == Pad2(m) {
      NoSeparatorInDigits(mm, '-');
    }
  }

  /** Every spelling of a valid date is accepted and yields that date. */
  lemma SpelledDateIsParsed(s: string, t: DateTime)
    requires Valid(t) && t.hour == 0 && t.minute == 0 && t.second == 0
    requires SpellsDate(s, t)
    ensures ParseDayMonthYear(s) == Some(t)
  {
    var dd, mm :| dd in DaySpellings(t.day) && mm in MonthSpellings(t.month) && s == dd + "-" + mm + "-" + Pad4(t.year);
    SpellingsHaveNoDash(dd, t.day, mm, t.month);
    ParseDayMonthYearFields(dd, mm, Pad4(t.year));
    DateOfSpellings(dd, mm, Pad4(t.year), t);
  }

  /**
   * `%d-%m-%Y` accepts exactly the spellings of valid dates: day and month
   * padded or not (the day also with a leading space), the year in four
   * digits, fields in day-month-year order.
   */
  lemma ParseDayMonthYearExactly(s: string, t: DateTime)
    ensures ParseDayMonthYear(s) == Some(t) <==>
      Valid(t) && t.hour == 0 && t.minute == 0 && t.second == 0 && SpellsDate(s, t)
  {
    if ParseDayMonthYear(s) == Some(t) {
      ParsedDateIsSpelled(s);
    }
    if Valid(t) && t.hour == 0 && t.minute == 0 && t.second == 0 && SpellsDate(s, t) {
      SpelledDateIsParsed(s, t);
    }
  }

  /** The canonical `DD-MM-YYYY` text of a valid date parses back to it. */
  lemma DayMonthYearRoundTrip(t: DateTime)
    requires Valid(t) && t.hour == 0 && t.minute == 0 && t.second == 0
    ensures ParseDayMonthYear(DayMonthYearText(t)) == Some(t)
  {
    assert Pad2(t.day) in DaySpellings(t.day);
    assert Pad2(t.month) in MonthSpellings(t.month);
    SpelledDateIsParsed(DayMonthYearText(t), t);
  }

  /** A greedy `\s*` consumes the whole run of whitespace and stops at the first other character. */
  lemma {:induction false} DropSpacesOf(ws: string, rest: string)
    requires AllSpaces(ws) && (rest == [] || !IsRegexSpace(rest[0]))
    ensures DropSpaces(ws + rest) == rest
  {
    if ws != [] {
      assert (ws + rest)[1..] == ws[1..] + rest;
      DropSpacesOf(ws[1..], rest);
    }
  }

  /** Every spelling of a day is one or two characters, and none of them after the first is whitespace. */
  lemma DaySpellingShape(dd: string, d: int)
    requires 1 <= d <= 31 && dd in DaySpellings(d)
    ensures 1 <= |dd| <= 2 && forall i :: 1 <= i < |dd| ==> !IsRegexSpace(dd[i])
    ensures '-' !in dd
  {
    if dd == Pad2(d) {
      NoSeparatorInDigits(dd, '-');
    }
  }

  /** The day token ends at the whitespace run the format's space stands for. */
  lemma SplitDayAndClockOf(dd: string, d: int, ws: string, clock: string)
    requires 1 <= d <= 31 && dd in DaySpellings(d)
    requires ws != [] && AllSpaces(ws) && clock != [] && !IsRegexSpace(clock[0])
    ensures SplitDayAndClock(dd + ws + clock) == Some((dd, clock))
  {
    DaySpellingShape(dd, d);
    var r, rest := dd + ws + clock, ws + clock;
    ConcatAssoc(dd, ws, clock);
    assert r[|dd|] == rest[0] == ws[0];
    assert forall i :: 1 <= i < |dd| ==> r[i] == dd[i];
    var k := FirstSpace(r, 1);
    assert k == |dd|;
    assert r[..k] == dd && r[k..] == rest;
    DropSpacesOf(ws, clock);
  }

  /** The run of whitespace a greedy `\s*` removes from the front of `rest`. */
  function SpaceRun(rest: string): (ws: string)
    ensures rest == ws + DropSpaces(rest)
  {
    rest[..|rest| - |DropSpaces(rest)|]
  }

  lemma SpaceRunIsSpaces(rest: string)
    ensures AllSpaces(SpaceRun(rest))
  {
    var ws := SpaceRun(rest);
    forall i | 0 <= i < |ws|
      ensures IsRegexSpace(ws[i])
    {
      assert ws[i] == rest[i];
    }
  }

  lemma SpaceRunNonEmpty(rest: string)
    requires rest != [] && IsRegexSpace(rest[0])
    ensures SpaceRun(rest) != []
  {
  }

  /** What the split leaves around the whitespace run. */
  lemma SplitDayAndClockParts(s: string) returns (ws: string)
    requires SplitDayAndClock(s).Some?
    ensures ws != [] && AllSpaces(ws)
    ensures s == SplitDayAndClock(s).value.0 + ws + SplitDayAndClock(s).value.1
  {
    var k := FirstSpace(s, 1);
    var day, rest := s[..k], s[k..];
    assert SplitDayAndClock(s).value == (day, DropSpaces(rest));
    ws := SpaceRun(rest);
    SpaceRunIsSpaces(rest);
    SpaceRunNonEmpty(rest);
    assert s == day + rest;
    ConcatAssoc(day, ws, DropSpaces(rest));
  }

  lemma ConcatAssoc(a: string, b: string, c: string)
    ensures a + (b + c) == a + b + c
  {
  }

  lemma TimestampOfPadded(t: DateTime)
    requires Valid(t)
    ensures TimestampOf(Pad4(t.year), Pad2(t.month), Pad2(t.day), Pad2(t.hour), Pad2(t.minute), Pad2(t.second)) == Some(t)
  {
    YearFieldSpelling(Pad4(t.year), t.year);
    SmallNumberOfPad2(t.month, 1, 12);
    SmallNumberOfPad2(t.day, 1, 31);
    SmallNumberOfPad2(t.hour, 0, 23);
    SmallNumberOfPad2(t.minute, 0, 59);
    SmallNumberOfPad2(t.second, 0, 61);
  }

  /** A timestamp-shaped string is split into its six fields at its separators. */
  lemma ParseTimestampFields(yyyy: string, mm: string, dd: string, d: int, ws: string, hh: string, mi: string, ss: string)
    requires '-' !in yyyy && '-' !in mm && ':' !in hh && ':' !in mi
    requires 1 <= d <= 31 && dd in DaySpellings(d) && ws != [] && AllSpaces(ws)
    requires hh != [] && !IsRegexSpace(hh[0])
    ensures ParseTimestamp(yyyy + "-" + mm + "-" + dd + ws + hh + ":" + mi + ":" + ss) ==
      TimestampOf(yyyy, mm, dd, hh, mi, ss)
  {
    var r3 := mi + ":" + ss;
    var clock := hh + ":" + r3;
    var r2 := dd + ws + clock;
    var r1 := mm + "-" + r2;
    assert yyyy + "-" + mm + "-" + dd + ws + hh + ":" + mi + ":" + ss == yyyy + "-" + r1;
    SplitAtFirstOf(yyyy, '-', r1);
    SplitAtFirstOf(mm, '-', r2);
    SplitDayAndClockOf(dd, d, ws, clock);
    SplitAtFirstOf(hh, ':', r3);
    SplitAtFirstOf(mi, ':', ss);
  }

  /** The spellings `%H`, `%M` and `%S` accept for a clock field: two digits, or one below ten. */
  function ClockSpellings(n: int): set<string>
    requires 0 <= n < 100
  {
    {Pad2(n)} + (if n < 10 then {[DigitChar(n)]} else {})
  }

  lemma ClockFieldSpellings(t: string, n: int, most: nat)
    requires 0 <= n <= most < 100
    ensures SmallNumber(t, 0, most) == Some(n) <==> t in ClockSpellings(n)
  {
    if SmallNumber(t, 0, most) == Some(n) {
      if |t| == 1 {
        OneDigit(t);
      } else {
        TwoDigits(t);
      }
    }
    if t in ClockSpellings(n) {
      if t == Pad2(n) {
        SmallNumberOfPad2(n, 0, most);
      } else {
        OneDigit(t);
      }
    }
  }

  /** A clock spelling is one or two digits, so it holds no colon and starts with no whitespace. */
  lemma ClockSpellingShape(t: string, n: int)
    requires 0 <= n < 100 && t in ClockSpellings(n)
    ensures t != [] && AllDigits(t) && ':' !in t && !IsRegexSpace(t[0])
  {
    NoSeparatorInDigits(t, ':');
  }

  /**
   * The spellings `%Y-%m-%d %H:%M:%S` accepts for an instant: the year in
   * four digits, month, day and clock fields padded or not (the day also with
   * a leading space), and any non-empty run of whitespace between day and hour.
   */
  ghost predicate SpellsTimestamp(s: string, t: DateTime)
    requires Valid(t)
  {
    exists mm, dd, ws, hh, mi, ss ::
      mm in MonthSpellings(t.month) && dd in DaySpellings(t.day) && ws != [] && AllSpaces(ws) &&
      hh in ClockSpellings(t.hour) && mi in ClockSpellings(t.minute) && ss in ClockSpellings(t.second) &&
      s == Pad4(t.year) + "-" + mm + "-" + dd + ws + hh + ":" + mi + ":" + ss
  }

  lemma TimestampOfSpellings(yyyy: string, mm: string, dd: string, hh: string, mi: string, ss: string, t: DateTime)
    requires Valid(t)
    ensures TimestampOf(yyyy, mm, dd, hh, mi, ss) == Some(t) <==>
      yyyy == Pad4(t.year) && mm in MonthSpellings(t.month) && dd in DaySpellings(t.day) &&
      hh in ClockSpellings(t.hour) && mi in ClockSpellings(t.minute) && ss in ClockSpellings(t.second)
  {
    YearFieldSpelling(yyyy, t.year);
    MonthFieldSpellings(mm, t.month);
    DayFieldSpellings(dd, t.day);
    ClockFieldSpellings(hh, t.hour, 23);
    ClockFieldSpellings(mi, t.minute, 59);
    ClockFieldSpellings(ss, t.second, 61);
  }

  /** An accepted string, cut at its separators into the six fields and the whitespace run. */
  lemma ParseTimestampParts(s: string) returns (yyyy: string, mm: string, dd: string, ws: string, hh: string, mi: string, ss: string)
    requires ParseTimestamp(s).Some?
    ensures ws != [] && AllSpaces(ws)
    ensures s == yyyy + "-" + mm + "-" + dd + ws + hh + ":" + mi + ":" + ss
    ensures ParseTimestamp(s) == TimestampOf(yyyy, mm, dd, hh, mi, ss)
  {
    var r1, r2, clock, r3;
    yyyy, r1 := SplitAtFirst(s, '-').value.0, SplitAtFirst(s, '-').value.1;
    mm, r2 := SplitAtFirst(r1, '-').value.0, SplitAtFirst(r1, '-').value.1;
    dd, clock := SplitDayAndClock(r2).value.0, SplitDayAndClock(r2).value.1;
    hh, r3 := SplitAtFirst(clock, ':').value.0, SplitAtFirst(clock, ':').value.1;
    mi, ss := SplitAtFirst(r3, ':').value.0, SplitAtFirst(r3, ':').value.1;
    ws := SplitDayAndClockParts(r2);
    Reassemble(s, yyyy, r1, mm, r2, dd, ws, clock, hh, r3, mi, ss);
  }

  lemma Reassemble(s: string, yyyy: string, r1: string, mm: string, r2: string, dd: string, ws: string,
                   clock: string, hh: string, r3: string, mi: string, ss: string)
    requires s == yyyy + "-" + r1 && r1 == mm + "-" + r2 && r2 == dd + ws + clock
    requires clock == hh + ":" + r3 && r3 == mi + ":" + ss
    ensures s == yyyy + "-" + mm + "-" + dd + ws + hh + ":" + mi + ":" + ss
  {
  }

  /** Every string `%Y-%m-%d %H:%M:%S` accepts is a spelling of the instant it yields. */
  lemma ParsedTimestampIsSpelled(s: string)
    requires ParseTimestamp(s).Some?
    ensures SpellsTimestamp(s, ParseTimestamp(s).value)
  {
    var t := ParseTimestamp(s).value;
    var yyyy, mm, dd, ws, hh, mi, ss := ParseTimestampParts(s);
    TimestampOfSpellings(yyyy, mm, dd, hh, mi, ss, t);
    assert mm in MonthSpellings(t.month) && dd in DaySpellings(t.day) && ws != [] && AllSpaces(ws) &&
      hh in ClockSpellings(t.hour) && mi in ClockSpellings(t.minute) && ss in ClockSpellings(t.second) &&
      s == Pad4(t.year) + "-" + mm + "-" + dd + ws + hh + ":" + mi + ":" + ss;
  }

  /** Every spelling of a valid instant is accepted and yields that instant. */
  lemma SpelledTimestampIsParsed(s: string, t: DateTime)
    requires Valid(t) && SpellsTimestamp(s, t)
    ensures ParseTimestamp(s) == Some(t)
  {
    var mm, dd, ws, hh, mi, ss :|
      mm in MonthSpellings(t.month) && dd in DaySpellings(t.day) && ws != [] && AllSpaces(ws) &&
      hh in ClockSpellings(t.hour) && mi in ClockSpellings(t.minute) && ss in ClockSpellings(t.second) &&
      s == Pad4(t.year) + "-" + mm + "-" + dd + ws + hh + ":" + mi + ":" + ss;
    SpelledFieldsParse(mm, dd, ws, hh, mi, ss, t);
  }

  lemma SpelledFieldsParse(mm: string, dd: string, ws: string, hh: string, mi: string, ss: string, t: DateTime)
    requires Valid(t) && mm in MonthSpellings(t.month) && dd in DaySpellings(t.day) && ws != [] && AllSpaces(ws)
    requires hh in ClockSpellings(t.hour) && mi in ClockSpellings(t.minute) && ss in ClockSpellings(t.second)
    ensures ParseTimestamp(Pad4(t.year) + "-" + mm + "-" + dd + ws + hh + ":" + mi + ":" + ss) == Some(t)
  {
    NoSeparatorInDigits(Pad4(t.year), '-');
    SpellingsHaveNoDash(dd, t.day, mm, t.month);
    ClockSpellingShape(hh, t.hour);
    ClockSpellingShape(mi, t.minute);
    ParseTimestampFields(Pad4(t.year), mm, dd, t.day, ws, hh, mi, ss);
    TimestampOfSpellings(Pad4(t.year), mm, dd, hh, mi, ss, t);
  }

  /**
   * `%Y-%m-%d %H:%M:%S` accepts exactly the spellings of valid instants:
   * seconds up to 59 though `%S` matches up to 61, and any whitespace run
   * where the format has its space.
   */
  lemma ParseTimestampExactly(s: string, t: DateTime)
    ensures ParseTimestamp(s) == Some(t) <==> Valid(t) && SpellsTimestamp(s, t)
  {
    if ParseTimestamp(s) == Some(t) {
      ParsedTimestampIsSpelled(s);
    }
    if Valid(t) && SpellsTimestamp(s, t) {
      SpelledTimestampIsParsed(s, t);
    }
  }

  /** The upstream's `YYYY-MM-DD HH:MM:SS` text of a valid instant parses back to it. */
  lemma TimestampRoundTrip(t: DateTime)
    requires Valid(t)
    ensures ParseTimestamp(TimestampText(t)) == Some(t)
  {
    var yyyy, mm, dd, hh, mi, ss := Pad4(t.year), Pad2(t.month), Pad2(t.day), Pad2(t.hour), Pad2(t.minute), Pad2(t.second);
    NoSeparatorInDigits(yyyy, '-');
    NoSeparatorInDigits(mm, '-');
    NoSeparatorInDigits(hh, ':');
    NoSeparatorInDigits(mi, ':');
    assert dd in DaySpellings(t.day);
    ParseTimestampFields(yyyy, mm, dd, t.day, " ", hh, mi, ss);
    TimestampOfPadded(t);
  }

  /** The date in the bot's own usage example is accepted. */
  lemma UsageExampleAccepted()
    ensures ParseDayMonthYear("13-12-2025") == Some(DateTime(2025, 12, 13, 0, 0, 0))
  {
    var t := DateTime(2025, 12, 13, 0, 0, 0);
    assert Pad2(13) == "13";
    assert Pad2(12) == "12";
    assert Pad2(20) == "20";
    assert Pad2(25) == "25";
    assert Pad4(2025) == "2025";
    assert DayMonthYearText(t) == "13-12-2025";
    DayMonthYearRoundTrip(t);
  }

  /** A string with two dashes is split into its three `%d-%m-%Y` fields there. */
  lemma ParseDayMonthYearFields(dd: string, mm: string, yyyy: string)
    requires '-' !in dd && '-' !in mm
    ensures ParseDayMonthYear(dd + "-" + mm + "-" + yyyy) == DateOf(dd, mm, yyyy)
  {
    SplitAtFirstOf(dd, '-', mm + "-" + yyyy);
    assert dd + "-" + mm + "-" + yyyy == dd + "-" + (mm + "-" + yyyy);
    SplitAtFirstOf(mm, '-', yyyy);
  }

  /** The 31st of February is rejected whatever the year, like a malformed string. */
  lemma DayOutOfMonthRejected(yyyy: string)
    ensures ParseDayMonthYear("31" + "-" + "02" + "-" + yyyy) == None
  {
    ParseDayMonthYearFields("31", "02", yyyy);
    assert DayField("31") == Some(31) by { TwoDigits("31"); }
    assert MonthField("02") == Some(2) by { TwoDigits("02"); }
  }

  /** The 29th of February is accepted exactly in the leap years `%Y` spells. */
  lemma LeapDay(yyyy: string)
    ensures ParseDayMonthYear("29" + "-" + "02" + "-" + yyyy).Some? <==>
      YearField(yyyy).Some? && YearField(yyyy).value >= MinYear && IsLeapYear(YearField(yyyy).value)
  {
    ParseDayMonthYearFields("29", "02", yyyy);
    assert DayField("29") == Some(29) by { TwoDigits("29"); }
    assert MonthField("02") == Some(2) by { TwoDigits("02"); }
  }

  /** Day zero is not a `%d` token. */
  lemma DayZeroRejected(mm: string, yyyy: string)
    requires '-' !in mm
    ensures ParseDayMonthYear("00" + "-" + mm + "-" + yyyy) == None
  {
    ParseDayMonthYearFields("00", mm, yyyy);
    assert DayField("00") == None by { TwoDigits("00"); }
  }

  /** Year zero passes `%Y` but not `datetime.date`. */
  lemma YearZeroRejected(dd: string, mm: string)
    requires '-' !in dd && '-' !in mm
    ensures ParseDayMonthYear(dd + "-" + mm + "-" + "0000") == None
  {
    ParseDayMonthYearFields(dd, mm, "0000");
    assert Pad2(0) == "00" && Pad4(0) == "0000";
    assert YearField("0000") == Some(0) by {
      assert YearField(Pad4(0)) == Some(DigitsValue(Pad4(0)));
    }
  }

  /** A date written year first is rejected: a four-digit year is not a `%d` token. */
  lemma YearFirstRejected(t: DateTime)
    requires Valid(t)
    ensures ParseDayMonthYear(Pad4(t.year) + "-" + Pad2(t.month) + "-" + Pad2(t.day)) == None
  {
    NoSeparatorInDigits(Pad4(t.year), '-');
    NoSeparatorInDigits(Pad2(t.month), '-');
    ParseDayMonthYearFields(Pad4(t.year), Pad2(t.month), Pad2(t.day));
  }
}
