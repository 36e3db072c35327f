/**
 * The date handling of the `/panchang` command: the user's `DD-MM-YYYY`
 * argument is parsed, and the instant asked about is that date at the
 * India Standard Time clock reading of the moment the message arrived.
 */
module Instant {
  import opened Wrappers
  import opened PyText
  import opened Calendar
  import opened Strptime
  import opened Payload
  import opened Marks

  const SecondsPerDay := 86400

  /** Seconds since midnight of a clock reading. */
  function SecondOfDay(t: DateTime): int
  {
    t.hour * 3600 + t.minute * 60 + t.second
  }

  /**
   * The hour, minute and second in India Standard Time (UTC+5:30) of an
   * arrival given in seconds since the Unix epoch.
   */
  function IstClock(arrival: int): (c: (int, int, int))
    ensures ValidTime(c.0, c.1, c.2)
    ensures c.0 * 3600 + c.1 * 60 + c.2 == (arrival + IstOffsetSeconds) % SecondsPerDay
  {
    var s := (arrival + IstOffsetSeconds) % SecondsPerDay;
    (s / 3600, s % 3600 / 60, s % 60)
  }

  /** The local clock repeats every day. */
  lemma IstClockDaily(arrival: int, days: int)
    ensures IstClock(arrival + days * SecondsPerDay) == IstClock(arrival)
  {
    assert (arrival + days * SecondsPerDay + IstOffsetSeconds) % SecondsPerDay
        == (arrival + IstOffsetSeconds) % SecondsPerDay;
  }

  /** 18:30 UTC is midnight in India; 00:00 UTC is 05:30 there. */
  lemma IstClockExamples(day: int)
    ensures IstClock(day * SecondsPerDay + 18 * 3600 + 30 * 60) == (0, 0, 0)
    ensures IstClock(day * SecondsPerDay) == (5, 30, 0)
  {
    IstClockDaily(18 * 3600 + 30 * 60, day);
    IstClockDaily(0, day);
  }

  /** The `datetime(...)` built at jojo.py:179-186. */
  function CombineInstant(date: DateTime, arrival: int): (t: DateTime)
    requires Valid(date)
    ensures Valid(t)
    ensures t.year == date.year && t.month == date.month && t.day == date.day
    ensures SecondOfDay(t) == (arrival + IstOffsetSeconds) % SecondsPerDay
  {
    var (h, m, s) := IstClock(arrival);
    DateTime(date.year, date.month, date.day, h, m, s)
  }

  /** The clock part of an instant is determined by its second of the day. */
  lemma {:induction false} ClockFromSecondOfDay(t: DateTime, u: DateTime)
    requires ValidTime(t.hour, t.minute, t.second) && ValidTime(u.hour, u.minute, u.second)
    requires SecondOfDay(t) == SecondOfDay(u)
    ensures t.hour == u.hour && t.minute == u.minute && t.second == u.second
  {
    var s := SecondOfDay(t);
    assert t.hour == s / 3600 && u.hour == s / 3600;
    assert t.minute * 60 + t.second == s % 3600 == u.minute * 60 + u.second;
  }

  const UsageText: string := "Please provide a date in the format DD-MM-YYYY. Example: /panchang 13-12-2025"

  const InvalidDateOpening: string := ErrorMark + " Invalid date format: '"
  const InvalidDateClosing: string := "'. Please use DD-MM-YYYY (e.g., 13-12-2025)."

  /** The reply to an argument that is not a date: the argument, quoted verbatim. */
  function InvalidDateText(dateText: string): (r: string)
    ensures |r| == |InvalidDateOpening| + |dateText| + |InvalidDateClosing|
    ensures r[..|InvalidDateOpening|] == InvalidDateOpening && r[|r| - |InvalidDateClosing|..] == InvalidDateClosing
  {
    InvalidDateOpening + dateText + InvalidDateClosing
  }

  /** The argument a rejection quotes, recovered from the reply's text. */
  function QuotedArgument(reply: string): string
    requires |reply| >= |InvalidDateOpening| + |InvalidDateClosing|
  {
    reply[|InvalidDateOpening|..|reply| - |InvalidDateClosing|]
  }

  /** The rejection names the argument it rejects, so distinct arguments get distinct replies. */
  lemma InvalidDateTextQuotes(dateText: string)
    ensures QuotedArgument(InvalidDateText(dateText)) == dateText
  {
    var r := InvalidDateText(dateText);
    assert r == InvalidDateOpening + dateText + InvalidDateClosing;
  }

  const FetchingOpening: string := HourglassMark + " Fetching Full Panchang details for "
  const FetchingClosing: string := " (Theni, IST)..."

  /** `%d-%m-%Y` as `strftime` prints it with glibc: the year is not zero-padded. */
  function ProgressDate(t: DateTime): string
    requires Valid(t)
  {
    Pad2(t.day) + "-" + Pad2(t.month) + "-" + NatToString(t.year)
  }

  /** `%H:%M:%S`. */
  function ProgressClock(t: DateTime): string
    requires Valid(t)
  {
    Pad2(t.hour) + ":" + Pad2(t.minute) + ":" + Pad2(t.second)
  }

  /** The progress reply sent before the request, naming the instant asked about. */
  function FetchingText(t: DateTime): (r: string)
    requires Valid(t)
    ensures |r| >= |FetchingOpening| + 7 + 12 + |FetchingClosing|
    ensures r[..|FetchingOpening|] == FetchingOpening && r[|r| - |FetchingClosing|..] == FetchingClosing
  {
    FetchingOpening + ProgressDate(t) + " at " + ProgressClock(t) + FetchingClosing
  }

  /** The date the progress reply names, cut out of the reply's text. */
  function NamedDate(reply: string): string
    requires |reply| >= |FetchingOpening| + 12 + |FetchingClosing|
  {
    reply[|FetchingOpening|..|reply| - |FetchingClosing| - 12]
  }

  /** The clock the progress reply names, cut out of the reply's text. */
  function NamedClock(reply: string): string
    requires |reply| >= 8 + |FetchingClosing|
  {
    reply[|reply| - |FetchingClosing| - 8..|reply| - |FetchingClosing|]
  }

  /**
   * The progress reply reads back to the instant it names: ` at ` sits
   * before the eight-character `HH:MM:SS` clock, whose fields are the
   * instant's; the date before it is read by `%d-%m-%Y` as the instant's day
   * exactly when the year has four digits, and refused for years below 1000,
   * whose unpadded spelling `%Y` does not accept.
   */
  lemma FetchingTextReadsBack(t: DateTime)
    requires Valid(t)
    ensures var r := FetchingText(t);
      r[|r| - |FetchingClosing| - 12..|r| - |FetchingClosing| - 8] == " at "
    ensures var c := NamedClock(FetchingText(t));
      |c| == 8 && c[2] == ':' && c[5] == ':' && AllDigits(c[..2]) && AllDigits(c[3..5]) && AllDigits(c[6..]) &&
      DigitsValue(c[..2]) == t.hour && DigitsValue(c[3..5]) == t.minute && DigitsValue(c[6..]) == t.second
    ensures ParseDayMonthYear(NamedDate(FetchingText(t))) == Some(DateTime(t.year, t.month, t.day, 0, 0, 0)) <==> 1000 <= t.year
    ensures t.year < 1000 ==> ParseDayMonthYear(NamedDate(FetchingText(t))) == None
  {
    var r, date, clock := FetchingText(t), ProgressDate(t), ProgressClock(t);
    var n := |r| - |FetchingClosing|;
    assert r == (FetchingOpening + date) + (" at " + clock + FetchingClosing);
    assert |clock| == 8;
    assert r[|FetchingOpening|..n - 12] == date;
    assert r[n - 12..n - 8] == " at ";
    assert r[n - 8..n] == clock;
    ClockParts(t);
    DatePartReadsBack(t);
  }

  /** Where the fields sit in the `HH:MM:SS` clock. */
  lemma ClockParts(t: DateTime)
    requires Valid(t)
    ensures var c := ProgressClock(t);
      |c| == 8 && c[2] == ':' && c[5] == ':' && c[..2] == Pad2(t.hour) && c[3..5] == Pad2(t.minute) && c[6..] == Pad2(t.second)
  {
  }

  /** The unpadded `%d-%m-%Y` date read back by `%d-%m-%Y`. */
  lemma DatePartReadsBack(t: DateTime)
    requires Valid(t)
    ensures ParseDayMonthYear(ProgressDate(t)) == Some(DateTime(t.year, t.month, t.day, 0, 0, 0)) <==> 1000 <= t.year
    ensures t.year < 1000 ==> ParseDayMonthYear(ProgressDate(t)) == None
  {
    var y := NatToString(t.year);
    NoSeparatorInDigits(Pad2(t.day), '-');
    NoSeparatorInDigits(Pad2(t.month), '-');
    ParseDayMonthYearFields(Pad2(t.day), Pad2(t.month), y);
    NatToStringWidth(t.year, 3);
    NatToStringWidth(t.year, 4);
    assert Pow10(3) == 1000 && Pow10(4) == 10000;
    if 1000 <= t.year {
      NatToStringValue(t.year);
      assert YearField(y) == Some(t.year);
      SmallNumberOfPad2(t.month, 1, 12);
      SmallNumberOfPad2(t.day, 1, 31);
      assert DayField(Pad2(t.day)) == Some(t.day);
    } else {
      assert YearField(y) == None;
    }
  }

  /** What the command handler does with its arguments before any request is sent. */
  datatype CommandStep =
    | AskForDate(text: string)
    | RejectDate(text: string)
    | Request(instant: DateTime, payload: ApiPayload, progress: string)

  /**
   * `panchang_command` up to the request. Without an argument the usage is
   * sent; an argument that is not a valid `DD-MM-YYYY` date gets the
   * invalid-date reply, and then no request is built; otherwise the request
   * asks about the date at the arrival's IST clock reading.
   */
  function PanchangCommand(args: seq<string>, arrival: int): (r: CommandStep)
    ensures r.AskForDate? <==> args == []
    ensures r.AskForDate? ==> r.text == UsageText
    ensures r.RejectDate? <==> args != [] && ParseDayMonthYear(args[0]) == None
    ensures r.RejectDate? ==> r.text == InvalidDateText(args[0])
    ensures r.Request? ==>
              Valid(r.instant) &&
              ParseDayMonthYear(args[0]) == Some(DateTime(r.instant.year, r.instant.month, r.instant.day, 0, 0, 0))
    ensures r.Request? ==> SecondOfDay(r.instant) == (arrival + IstOffsetSeconds) % SecondsPerDay
    ensures r.Request? ==> RequestedInstant(r.payload) == r.instant
    ensures r.Request? ==> r.progress == FetchingText(r.instant)
    ensures r.Request? ==>
              r.payload.config == ApiConfig && r.payload.latitude == Latitude &&
              r.payload.longitude == Longitude && r.payload.timezone == TimezoneHours
  {
    if args == [] then AskForDate(UsageText)
    else match ParseDayMonthYear(args[0])
      case None => RejectDate(InvalidDateText(args[0]))
      case Some(date) =>
        var t := CombineInstant(date, arrival);
        Request(t, BuildApiPayload(t), FetchingText(t))
  }

  /**
   * The progress reply names the day the user asked for, read the way the
   * argument was read, unless the year has fewer than four digits; and it
   * names the arrival's IST clock reading.
   */
  lemma ProgressNamesArgument(args: seq<string>, arrival: int)
    requires PanchangCommand(args, arrival).Request?
    ensures var r := PanchangCommand(args, arrival);
      ParseDayMonthYear(NamedDate(r.progress)) == ParseDayMonthYear(args[0]) <==> 1000 <= r.instant.year
    ensures var c := NamedClock(PanchangCommand(args, arrival).progress);
      AllDigits(c[..2]) && AllDigits(c[3..5]) && AllDigits(c[6..]) &&
      DigitsValue(c[..2]) * 3600 + DigitsValue(c[3..5]) * 60 + DigitsValue(c[6..]) == (arrival + IstOffsetSeconds) % SecondsPerDay
  {
    var r := PanchangCommand(args, arrival);
    FetchingTextReadsBack(r.instant);
  }

  /** A request is only ever made for a date the user spelled, at the arrival's clock. */
  lemma RequestMatchesArgument(args: seq<string>, arrival: int, t: DateTime)
    requires Valid(t)
    requires args != [] && SpellsDate(args[0], DateTime(t.year, t.month, t.day, 0, 0, 0))
    ensures PanchangCommand(args, arrival).Request?
    ensures PanchangCommand(args, arrival).instant.year == t.year
    ensures PanchangCommand(args, arrival).instant.month == t.month
    ensures PanchangCommand(args, arrival).instant.day == t.day
    ensures SecondOfDay(t) == (arrival + IstOffsetSeconds) % SecondsPerDay ==> PanchangCommand(args, arrival).instant == t
  {
    var d := DateTime(t.year, t.month, t.day, 0, 0, 0);
    SpelledDateIsParsed(args[0], d);
    var r := PanchangCommand(args, arrival);
    if SecondOfDay(t) == (arrival + IstOffsetSeconds) % SecondsPerDay {
      ClockFromSecondOfDay(r.instant, t);
    }
  }

  /** The bot's own example, 13-12-2025, asks about that day. */
  lemma UsageExampleRequested(arrival: int)
    ensures PanchangCommand(["13-12-2025"], arrival).Request?
    ensures PanchangCommand(["13-12-2025"], arrival).payload.date == 13
  {
    UsageExampleAccepted();
  }

  /** 31-02-2025 gets the invalid-date reply, which repeats the argument. */
  lemma InvalidExampleRejected(arrival: int)
    ensures PanchangCommand(["31-02-2025"], arrival) == RejectDate(InvalidDateText("31-02-2025"))
  {
    var s := "31-02-2025";
    assert s == "31" + "-" + "02" + "-" + "2025";
    DayOutOfMonthRejected("2025");
    assert ["31-02-2025"][0] == s;
  }
}
