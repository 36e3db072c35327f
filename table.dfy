/**
 * `format_panchang_table`: the reply sent for a decoded API response. A
 * truthy `error` entry is reported as it is; otherwise the message is a
 * header followed by three code blocks (tithi, nakshatra, yoga and karana)
 * of `label: value` lines, and then every full stop and hyphen in it is
 * escaped.
 */
module Table {
  import opened Wrappers
  import opened PyText
  import opened Calendar
  import opened Strptime
  import opened Json
  import opened Escape
  import opened Lines
  import opened Marks

  const NA: string := "N/A"
  const Fence: string := "```"

  const ErrorPrefix: string := ErrorMark + " *Error:* "
  const TithiTitle: string := "*" + MoonMark + " Tithi \\(Lunar Day\\):*"
  const NakshatraTitle: string := "*" + StarMark + " Nakshatra \\(Lunar Mansion\\):*"
  const YogaKaranaTitle: string := "*" + YogaMark + " Yoga & Karana:*"

  /** `%I:%M:%S %p, %b %d`, the rendering of an upstream timestamp. */
  function CompletionText(t: DateTime): string
    requires Valid(t)
  {
    Clock12(t) + ", " + MonthAbbreviation(t.month) + " " + Pad2(t.day)
  }

  /**
   * The rendered timestamp is a 12-hour clock reading 01..12 with AM or PM,
   * minutes and seconds unchanged, then the month's abbreviation and the
   * two-digit day; the hour and marker read back to the 24-hour hour.
   */
  lemma CompletionTextFields(t: DateTime)
    requires Valid(t)
    ensures var r := CompletionText(t);
      |r| == 19 && r[..2] == Pad2(Hour12(t.hour)) && r[2] == ':' && r[3..5] == Pad2(t.minute) &&
      r[5] == ':' && r[6..8] == Pad2(t.second) && r[8] == ' ' && r[9..11] == Meridiem(t.hour) &&
      r[11..13] == ", " && r[13..16] == MonthAbbreviation(t.month) && r[16] == ' ' &&
      r[17..] == Pad2(t.day)
    ensures var r := CompletionText(t);
      1 <= DigitsValue(r[..2]) <= 12 && Hour24(DigitsValue(r[..2]), r[9..11] == "PM") == t.hour
  {
    var r := CompletionText(t);
    assert r == Pad2(Hour12(t.hour)) + ":" + Pad2(t.minute) + ":" + Pad2(t.second) + " "
      + Meridiem(t.hour) + ", " + MonthAbbreviation(t.month) + " " + Pad2(t.day);
    Hour12RoundTrip(t.hour);
  }

  /**
   * `format_completion_time`: a falsy value and a string `strptime` rejects
   * are shown as "N/A", and `strptime` raises on a truthy non-string.
   */
  function FormatCompletionTime(v: Json): (r: Result<string, PyError>)
    ensures r.Err? <==> Truthy(v) && !v.Str?
  {
    if !Truthy(v) then Ok(NA)
    else if !v.Str? then Err(TypeError)
    else match ParseTimestamp(v.s)
      case None => Ok(NA)
      case Some(t) => Ok(CompletionText(t))
  }

  /** The upstream's own timestamp format is rendered, never replaced by "N/A". */
  lemma CompletionOfWireTimestamp(t: DateTime)
    requires Valid(t)
    ensures FormatCompletionTime(Str(TimestampText(t))) == Ok(CompletionText(t))
    ensures CompletionText(t) != NA
  {
    TimestampRoundTrip(t);
    var v := Str(TimestampText(t));
    assert |TimestampText(t)| == 19;
    assert Truthy(v);
    CompletionTimeFallback(v);
    CompletionTextFields(t);
  }

  /**
   * "N/A" stands exactly for a falsy value or a string `strptime` rejects; any
   * other string is rendered.
   */
  lemma CompletionTimeFallback(v: Json)
    ensures FormatCompletionTime(v) == Ok(NA) <==> !Truthy(v) || (v.Str? && ParseTimestamp(v.s).None?)
    ensures v.Str? && ParseTimestamp(v.s).Some? ==>
      FormatCompletionTime(v) == Ok(CompletionText(ParseTimestamp(v.s).value))
  {
    if v.Str? && ParseTimestamp(v.s).Some? {
      CompletionTextFields(ParseTimestamp(v.s).value);
    }
  }

  /**
   * "N/A" stands exactly for a falsy value or a string that spells no valid
   * instant in `%Y-%m-%d %H:%M:%S`; a string that spells one is shown as that
   * instant.
   */
  lemma CompletionNAExactly(v: Json)
    ensures FormatCompletionTime(v) == Ok(NA) <==>
      !Truthy(v) || (v.Str? && forall t :: Valid(t) ==> !SpellsTimestamp(v.s, t))
    ensures forall t :: v.Str? && Valid(t) && SpellsTimestamp(v.s, t) ==> FormatCompletionTime(v) == Ok(CompletionText(t))
  {
    CompletionTimeFallback(v);
    if v.Str? {
      forall t | Valid(t)
        ensures SpellsTimestamp(v.s, t) <==> ParseTimestamp(v.s) == Some(t)
      {
        ParseTimestampExactly(v.s, t);
      }
      if ParseTimestamp(v.s).Some? {
        ParsedTimestampIsSpelled(v.s);
      }
    }
  }

  /** `section.get(key, default)`: only a dictionary has `.get`. */
  function Member(section: Json, key: string, default: Json): (r: Result<Json, PyError>)
    ensures r.Err? <==> !section.Obj?
    ensures section.Obj? && !HasKey(section.entries, key) ==> r == Ok(default)
  {
    if section.Obj? then Ok(Get(section.entries, key, default)) else Err(AttributeError)
  }

  /** The value shown under `key` is not a string, so `.title()` raises on it. */
  predicate NotTitleable(section: Json, key: string)
    requires section.Obj?
  {
    !Get(section.entries, key, Str(NA)).Str?
  }

  /** The value under `key` is truthy but not a string, so `strptime` raises on it. */
  predicate NotParseable(section: Json, key: string)
    requires section.Obj?
  {
    var v := Get(section.entries, key, Null);
    Truthy(v) && !v.Str?
  }

  /** `section.get(key, 'N/A').title()`: the value must be a string. */
  function TitledMember(section: Json, key: string): (r: Result<string, PyError>)
    ensures r.Err? <==> !section.Obj? || NotTitleable(section, key)
    ensures section.Obj? && !HasKey(section.entries, key) ==> r == Ok(NA)
    ensures r.Ok? ==> r.value == Title(Get(section.entries, key, Str(NA)).s)
  {
    TitleOfPlaceholder();
    var v :- Member(section, key, Str(NA));
    if v.Str? then Ok(Title(v.s)) else Err(AttributeError)
  }

  /** `{section.get(key, 'N/A')}` in an f-string. */
  function ShownMember(section: Json, key: string): (r: Result<string, PyError>)
    ensures section.Obj? && !HasKey(section.entries, key) ==> r == Ok(NA)
    ensures r.Ok? <==> section.Obj?
    ensures r.Ok? ==> r.value == Show(Get(section.entries, key, Str(NA)))
  {
    var v :- Member(section, key, Str(NA));
    Ok(Show(v))
  }

  /** `format_completion_time(section.get(key))`. */
  function TimeMember(section: Json, key: string): (r: Result<string, PyError>)
    ensures r.Err? <==> !section.Obj? || NotParseable(section, key)
    ensures section.Obj? && !HasKey(section.entries, key) ==> r == Ok(NA)
    ensures r.Ok? ==> section.Obj? && r == FormatCompletionTime(Get(section.entries, key, Null))
  {
    var v :- Member(section, key, Null);
    FormatCompletionTime(v)
  }

  /** The parts of the response the message shows (jojo.py:99-108). */
  datatype Sections = Sections(tithi: Json, nakshatra: Json, yoga: Json, karana: Json, sunRise: Json, sunSet: Json)

  /**
   * The lookups of the response: a missing part defaults to an empty
   * dictionary (or "N/A" for the sun's times), and yoga and karana are looked
   * up under their key "1" only, which raises when that part is not a
   * dictionary.
   */
  function SelectSections(entries: seq<(string, Json)>): (r: Result<Sections, PyError>)
    ensures r.Err? <==> !Get(entries, "yoga", EmptyObj).Obj? || !Get(entries, "karana", EmptyObj).Obj?
  {
    var yoga :- Member(Get(entries, "yoga", EmptyObj), "1", EmptyObj);
    var karana :- Member(Get(entries, "karana", EmptyObj), "1", EmptyObj);
    Ok(Sections(Get(entries, "tithi", EmptyObj), Get(entries, "nakshatra", EmptyObj), yoga, karana,
                Get(entries, "sun_rise", Str(NA)), Get(entries, "sun_set", Str(NA))))
  }

  /**
   * Only a yoga or karana part that is present and not a dictionary makes the
   * lookups raise; a missing part is an empty dictionary, or "N/A" for the
   * sun's times.
   */
  lemma SelectSectionsDefaults(entries: seq<(string, Json)>)
    ensures SelectSections(entries).Err? ==> HasKey(entries, "yoga") || HasKey(entries, "karana")
    ensures var r := SelectSections(entries);
      r.Ok? ==>
        (!HasKey(entries, "tithi") ==> r.value.tithi == EmptyObj) &&
        (!HasKey(entries, "nakshatra") ==> r.value.nakshatra == EmptyObj) &&
        (!HasKey(entries, "yoga") ==> r.value.yoga == EmptyObj) &&
        (!HasKey(entries, "karana") ==> r.value.karana == EmptyObj) &&
        (!HasKey(entries, "sun_rise") ==> r.value.sunRise == Str(NA)) &&
        (!HasKey(entries, "sun_set") ==> r.value.sunSet == Str(NA))
  {
    NoKeysInEmpty();
  }

  predicate StartsWith(s: string, prefix: string)
  {
    |prefix| <= |s| && s[..|prefix|] == prefix
  }

  /** A `label: value` line of a code block. */
  function Row(caption: string, value: string): string
  {
    caption + ": " + value
  }

  /**
   * The tithi block's lines; its remaining share is under the key
   * "left_precentage".
   */
  function TithiLines(tithi: Json): (r: Result<seq<string>, PyError>)
    ensures r.Ok? ==> |r.value| == 4
  {
    var name :- TitledMember(tithi, "name");
    var number := ShownMember(tithi, "number").value;
    var paksha :- TitledMember(tithi, "paksha");
    var completes :- TimeMember(tithi, "completes_at");
    var remaining := ShownMember(tithi, "left_precentage").value;
    Ok([Row("Name", name + " (" + number + ")"), Row("Paksha", paksha),
        Row("Completes", completes), Row("Remaining", remaining + "%")])
  }

  /**
   * The nakshatra block's lines; its remaining share is under the key
   * "left_percentage".
   */
  function NakshatraLines(nakshatra: Json): (r: Result<seq<string>, PyError>)
    ensures r.Ok? ==> |r.value| == 4
  {
    var name :- TitledMember(nakshatra, "name");
    var number := ShownMember(nakshatra, "number").value;
    var starts :- TimeMember(nakshatra, "starts_at");
    var ends :- TimeMember(nakshatra, "ends_at");
    var remaining := ShownMember(nakshatra, "left_percentage").value;
    Ok([Row("Name", name + " (" + number + ")"), Row("Starts", starts),
        Row("Ends", ends), Row("Remaining", remaining + "%")])
  }

  /** The yoga and karana block's lines. */
  function YogaKaranaLines(yoga: Json, karana: Json): (r: Result<seq<string>, PyError>)
    ensures r.Ok? ==> |r.value| == 4
  {
    var yogaName :- TitledMember(yoga, "name");
    var yogaNumber := ShownMember(yoga, "number").value;
    var yogaEnd :- TimeMember(yoga, "completion");
    var karanaName :- TitledMember(karana, "name");
    var karanaNumber := ShownMember(karana, "number").value;
    var karanaEnd :- TimeMember(karana, "completion");
    Ok([Row("Yoga", yogaName + " (" + yogaNumber + ")"), Row("Yoga Completion", yogaEnd),
        Row("Karana", karanaName + " (" + karanaNumber + ")"), Row("Karana Completion", karanaEnd)])
  }

  /**
   * The tithi block raises exactly when the tithi is not a dictionary, its
   * name or paksha is not a string, or its end time is truthy but not a
   * string.
   */
  lemma TithiLinesRaise(tithi: Json)
    ensures TithiLines(tithi).Err? <==>
      (!tithi.Obj? || NotTitleable(tithi, "name") || NotTitleable(tithi, "paksha") || NotParseable(tithi, "completes_at"))
  {
  }

  /** The nakshatra block raises exactly when it is not a dictionary, its name is not a string, or a time is truthy but not a string. */
  lemma NakshatraLinesRaise(nakshatra: Json)
    ensures NakshatraLines(nakshatra).Err? <==>
      (!nakshatra.Obj? || NotTitleable(nakshatra, "name") || NotParseable(nakshatra, "starts_at")
       || NotParseable(nakshatra, "ends_at"))
  {
  }

  /** The yoga and karana block raises exactly when either is not a dictionary, has a name that is not a string, or a completion time that is truthy but not a string. */
  lemma YogaKaranaLinesRaise(yoga: Json, karana: Json)
    ensures YogaKaranaLines(yoga, karana).Err? <==>
      (!yoga.Obj? || NotTitleable(yoga, "name") || NotParseable(yoga, "completion")
       || !karana.Obj? || NotTitleable(karana, "name") || NotParseable(karana, "completion"))
  {
  }

  lemma RowCaption(caption: string, value: string)
    ensures StartsWith(Row(caption, value), caption + ": ")
  {
    assert Row(caption, value) == (caption + ": ") + value;
  }

  /** The tithi block's four lines carry the captions Name, Paksha, Completes and Remaining, in that order. */
  lemma TithiCaptions(tithi: Json)
    requires TithiLines(tithi).Ok?
    ensures var ls := TithiLines(tithi).value;
      StartsWith(ls[0], "Name: ") && StartsWith(ls[1], "Paksha: ") && StartsWith(ls[2], "Completes: ")
      && StartsWith(ls[3], "Remaining: ")
  {
    var name, number := TitledMember(tithi, "name").value, ShownMember(tithi, "number").value;
    var paksha, completes := TitledMember(tithi, "paksha").value, TimeMember(tithi, "completes_at").value;
    var remaining := ShownMember(tithi, "left_precentage").value;
    RowCaption("Name", name + " (" + number + ")");
    RowCaption("Paksha", paksha);
    RowCaption("Completes", completes);
    RowCaption("Remaining", remaining + "%");
  }

  /** The nakshatra block's four lines carry the captions Name, Starts, Ends and Remaining, in that order. */
  lemma NakshatraCaptions(nakshatra: Json)
    requires NakshatraLines(nakshatra).Ok?
    ensures var ls := NakshatraLines(nakshatra).value;
      StartsWith(ls[0], "Name: ") && StartsWith(ls[1], "Starts: ") && StartsWith(ls[2], "Ends: ")
      && StartsWith(ls[3], "Remaining: ")
  {
    var name, number := TitledMember(nakshatra, "name").value, ShownMember(nakshatra, "number").value;
    var starts, ends := TimeMember(nakshatra, "starts_at").value, TimeMember(nakshatra, "ends_at").value;
    var remaining := ShownMember(nakshatra, "left_percentage").value;
    RowCaption("Name", name + " (" + number + ")");
    RowCaption("Starts", starts);
    RowCaption("Ends", ends);
    RowCaption("Remaining", remaining + "%");
  }

  /** The last block's four lines carry the captions Yoga, Yoga Completion, Karana and Karana Completion. */
  lemma YogaKaranaCaptions(yoga: Json, karana: Json)
    requires YogaKaranaLines(yoga, karana).Ok?
    ensures var ls := YogaKaranaLines(yoga, karana).value;
      StartsWith(ls[0], "Yoga: ") && StartsWith(ls[1], "Yoga Completion: ") && StartsWith(ls[2], "Karana: ")
      && StartsWith(ls[3], "Karana Completion: ")
  {
    var yogaName, yogaNumber := TitledMember(yoga, "name").value, ShownMember(yoga, "number").value;
    var karanaName, karanaNumber := TitledMember(karana, "name").value, ShownMember(karana, "number").value;
    var yogaEnd, karanaEnd := TimeMember(yoga, "completion").value, TimeMember(karana, "completion").value;
    RowCaption("Yoga", yogaName + " (" + yogaNumber + ")");
    RowCaption("Yoga Completion", yogaEnd);
    RowCaption("Karana", karanaName + " (" + karanaNumber + ")");
    RowCaption("Karana Completion", karanaEnd);
  }

  /** The first line of the message, ended by a line break (jojo.py:111). */
  function DateLine(dt: DateTime): string
    requires Valid(dt)
  {
    OmMark + " *Panchang Details for:* `" + LongDate(dt) + "`"
  }

  function TimeLine(dt: DateTime): string
    requires Valid(dt)
  {
    "_Time of Calculation: " + Clock12(dt) + " IST \\(Theni, TN\\)_ "
  }

  function SunLine(sunRise: string, sunSet: string): string
  {
    "_Sunrise: " + sunRise + " | Sunset: " + sunSet + "_"
  }

  /**
   * What jojo.py:112-113 append. They are raw strings, so each `\n` in them
   * is a backslash followed by `n`, not a line break: the time and the sun's
   * times stay on one line, which the tithi title then ends.
   */
  function HeaderTail(dt: DateTime, sunRise: string, sunSet: string): string
    requires Valid(dt)
  {
    (TimeLine(dt) + "\\n") + (SunLine(sunRise, sunSet) + "\\n\\n")
  }

  /**
   * The text the two raw strings append holds a line break only where a sun
   * time does: right after the time line come a backslash and `n`, and it
   * ends with two such pairs.
   */
  lemma HeaderTailText(dt: DateTime, sunRise: string, sunSet: string)
    requires Valid(dt)
    ensures var r := HeaderTail(dt, sunRise, sunSet);
      |r| == |TimeLine(dt)| + |SunLine(sunRise, sunSet)| + 6 && ('\n' in r <==> '\n' in sunRise || '\n' in sunSet)
    ensures var r, n := HeaderTail(dt, sunRise, sunSet), |TimeLine(dt)|;
      r[n..n + 2] == "\\n" && r[|r| - 4..] == "\\n\\n"
  {
    var r := HeaderTail(dt, sunRise, sunSet);
    TimeLineHasNoBreak(dt);
    SunLineBreaks(sunRise, sunSet);
    assert r == TimeLine(dt) + ("\\n" + SunLine(sunRise, sunSet) + "\\n\\n");
  }

  lemma TimeLineHasNoBreak(dt: DateTime)
    requires Valid(dt)
    ensures '\n' !in TimeLine(dt)
  {
    var t := Pad2(Hour12(dt.hour)) + ":" + Pad2(dt.minute) + ":" + Pad2(dt.second) + " " + Meridiem(dt.hour);
    NoSeparatorInDigits(Pad2(Hour12(dt.hour)), '\n');
    NoSeparatorInDigits(Pad2(dt.minute), '\n');
    NoSeparatorInDigits(Pad2(dt.second), '\n');
    assert Clock12(dt) == t;
  }

  lemma SunLineBreaks(sunRise: string, sunSet: string)
    ensures '\n' in SunLine(sunRise, sunSet) <==> '\n' in sunRise || '\n' in sunSet
  {
  }

  function CodeBlock(title: string, body: seq<string>): seq<string>
  {
    [title, Fence] + body + [Fence]
  }

  /** Header lines, then the three code blocks, the first of them titled `opening`. */
  function Assemble(head: seq<string>, opening: string, tithi: seq<string>, nakshatra: seq<string>,
                    yogaKarana: seq<string>): seq<string>
  {
    head + CodeBlock(opening, tithi) + CodeBlock(NakshatraTitle, nakshatra) + CodeBlock(YogaKaranaTitle, yogaKarana)
  }

  /** The lines of the three blocks and the sections they show, or the first exception raised. */
  datatype Blocks = Blocks(sections: Sections, tithi: seq<string>, nakshatra: seq<string>, yogaKarana: seq<string>)

  function TableBlocks(entries: seq<(string, Json)>): (r: Result<Blocks, PyError>)
    ensures r.Ok? ==> |r.value.tithi| == 4 && |r.value.nakshatra| == 4 && |r.value.yogaKarana| == 4
  {
    var s :- SelectSections(entries);
    var tithi :- TithiLines(s.tithi);
    var nakshatra :- NakshatraLines(s.nakshatra);
    var yogaKarana :- YogaKaranaLines(s.yoga, s.karana);
    Ok(Blocks(s, tithi, nakshatra, yogaKarana))
  }

  /**
   * The message before the final escape, line by line: the date line, then
   * the three blocks, the tithi's title coming after the header's time and
   * sun text on the same line.
   */
  function TableLines(dt: DateTime, entries: seq<(string, Json)>): (r: Result<seq<string>, PyError>)
    requires Valid(dt)
    ensures r.Err? <==> TableBlocks(entries).Err?
    ensures r.Ok? ==> |r.value| == 22 && r.value[0] == DateLine(dt)
  {
    var b :- TableBlocks(entries);
    Ok(Assemble([DateLine(dt)], HeaderTail(dt, Show(b.sections.sunRise), Show(b.sections.sunSet)) + TithiTitle,
                b.tithi, b.nakshatra, b.yogaKarana))
  }

  /**
   * What `format_panchang_table(data, dt)` returns, or the exception it
   * raises: `.get` on a non-dictionary raises, a truthy error is answered as
   * it is, and otherwise the table is escaped so that removing the escapes
   * gives its lines back.
   */
  function PanchangMessage(data: Json, dt: DateTime): (r: Result<string, PyError>)
    requires Valid(dt)
    ensures !data.Obj? ==> r == Err(AttributeError)
    ensures r.Err? <==> !data.Obj? || (!Truthy(Get(data.entries, "error", Null)) && TableBlocks(data.entries).Err?)
    ensures r.Ok? && !Truthy(Get(data.entries, "error", Null)) ==>
      Unescape(r.value) == JoinLines(TableLines(dt, data.entries).value)
  {
    if !data.Obj? then Err(AttributeError)
    else
      var err := Get(data.entries, "error", Null);
      if Truthy(err) then Ok(ErrorPrefix + Show(err))
      else
        var ls :- TableLines(dt, data.entries);
        UnescapeEscape(JoinLines(ls));
        Ok(EscapeDotDash(JoinLines(ls)))
  }

  /** A code block of four lines after `done`, as the text its appends produce. */
  lemma UnlinesCodeBlock(done: seq<string>, title: string, body: seq<string>)
    requires |body| == 4
    ensures Unlines(done + CodeBlock(title, body)) ==
      Unlines(done) + (title + "\n") + (Fence + "\n") + (body[0] + "\n") + (body[1] + "\n")
        + (body[2] + "\n") + (body[3] + "\n") + (Fence + "\n")
  {
    var p6 := OpenBlock(done, title, body);
    assert done + CodeBlock(title, body) == p6 + [Fence];
    UnlinesSnoc(p6, Fence);
  }

  /** The last block: its closing fence ends the message, with no newline after it. */
  lemma JoinLastBlock(done: seq<string>, title: string, body: seq<string>)
    requires |body| == 4
    ensures JoinLines(done + CodeBlock(title, body)) ==
      Unlines(done) + (title + "\n") + (Fence + "\n") + (body[0] + "\n") + (body[1] + "\n")
        + (body[2] + "\n") + (body[3] + "\n") + Fence
  {
    var p6 := OpenBlock(done, title, body);
    var ls := done + CodeBlock(title, body);
    assert ls == p6 + [Fence];
    assert ls[..|ls| - 1] == p6;
  }

  /** The lines of a code block before its closing fence, appended one by one. */
  lemma OpenBlock(done: seq<string>, title: string, body: seq<string>) returns (p6: seq<string>)
    requires |body| == 4
    ensures p6 == done + [title, Fence] + body
    ensures Unlines(p6) ==
      Unlines(done) + (title + "\n") + (Fence + "\n") + (body[0] + "\n") + (body[1] + "\n")
        + (body[2] + "\n") + (body[3] + "\n")
  {
    var p1 := done + [title];
    var p2 := p1 + [Fence];
    var p3 := p2 + [body[0]];
    var p4 := p3 + [body[1]];
    var p5 := p4 + [body[2]];
    p6 := p5 + [body[3]];
    UnlinesSnoc(done, title);
    UnlinesSnoc(p1, Fence);
    UnlinesSnoc(p2, body[0]);
    UnlinesSnoc(p3, body[1]);
    UnlinesSnoc(p4, body[2]);
    UnlinesSnoc(p5, body[3]);
    assert body == [body[0], body[1], body[2], body[3]];
  }

  /**
   * `format_panchang_table`, growing the message by appends as the source
   * does and escaping it at the end. The ghost `done` holds the lines
   * finished so far and `pending` the text of the line not yet ended.
   */
  method FormatPanchangTable(data: Json, dt: DateTime) returns (r: Result<string, PyError>)
    requires Valid(dt)
    ensures r == PanchangMessage(data, dt)
  {
    if !data.Obj? {
      return Err(AttributeError);
    }
    var err := Get(data.entries, "error", Null);
    if Truthy(err) {
      return Ok(ErrorPrefix + Show(err));
    }

    var tithi := Get(data.entries, "tithi", EmptyObj);
    var nakshatra := Get(data.entries, "nakshatra", EmptyObj);
    var yoga1 := Member(Get(data.entries, "yoga", EmptyObj), "1", EmptyObj);
    if yoga1.Err? {
      return Err(yoga1.error);
    }
    var karana1 := Member(Get(data.entries, "karana", EmptyObj), "1", EmptyObj);
    if karana1.Err? {
      return Err(karana1.error);
    }
    var queryDate := LongDate(dt);
    var queryTime := Clock12(dt);
    var sunRise := Get(data.entries, "sun_rise", Str(NA));
    var sunSet := Get(data.entries, "sun_set", Str(NA));
    assert SelectSections(data.entries) == Ok(Sections(tithi, nakshatra, yoga1.value, karana1.value, sunRise, sunSet));

    var dateLine := OmMark + " *Panchang Details for:* `" + queryDate + "`";
    var output := dateLine + "\n";
    var timeLine := "_Time of Calculation: " + queryTime + " IST \\(Theni, TN\\)_ ";
    output := output + (timeLine + "\\n");
    var sunLine := "_Sunrise: " + Show(sunRise) + " | Sunset: " + Show(sunSet) + "_";
    output := output + (sunLine + "\\n\\n");
    ghost var done := [dateLine];
    ghost var pending := HeaderTail(dt, Show(sunRise), Show(sunSet));
    UnlinesSnoc([], dateLine);
    assert [] + [dateLine] == done;
    assert Unlines(done) == dateLine + "\n";
    assert pending == (timeLine + "\\n") + (sunLine + "\\n\\n");
    assert output == Unlines(done) + pending;

    var withTithi := AppendTithi(output, done, pending, tithi);
    if withTithi.Err? {
      return Err(withTithi.error);
    }
    output, done := withTithi.value, done + CodeBlock(pending + TithiTitle, TithiLines(tithi).value);

    var withNakshatra := AppendNakshatra(output, done, nakshatra);
    if withNakshatra.Err? {
      return Err(withNakshatra.error);
    }
    output, done := withNakshatra.value, done + CodeBlock(NakshatraTitle, NakshatraLines(nakshatra).value);

    var complete := AppendYogaKarana(output, done, yoga1.value, karana1.value);
    if complete.Err? {
      return Err(complete.error);
    }
    output := complete.value;
    ghost var sections := Sections(tithi, nakshatra, yoga1.value, karana1.value, sunRise, sunSet);
    ghost var blocks := Blocks(sections, TithiLines(tithi).value, NakshatraLines(nakshatra).value,
                               YogaKaranaLines(yoga1.value, karana1.value).value);
    assert TableBlocks(data.entries) == Ok(blocks);
    ghost var ls := done + CodeBlock(YogaKaranaTitle, blocks.yogaKarana);
    assert TableLines(dt, data.entries) == Ok(ls);
    assert output == JoinLines(ls);

    ChainedReplaceEscapes(output);
    r := Ok(ReplaceChar(ReplaceChar(output, '.', "\\."), '-', "\\-"));
  }

  /**
   * The tithi section appended to `output`: its title, which ends the line
   * `pending` has begun, then its lines inside a code fence.
   */
  method AppendTithi(output: string, ghost done: seq<string>, ghost pending: string, tithi: Json)
    returns (r: Result<string, PyError>)
    requires output == Unlines(done) + pending
    ensures TithiLines(tithi).Err? ==> r == Err(TithiLines(tithi).error)
    ensures TithiLines(tithi).Ok? ==> r == Ok(Unlines(done + CodeBlock(pending + TithiTitle, TithiLines(tithi).value)))
  {
    var output := output + (TithiTitle + "\n");
    assert output == Unlines(done) + ((pending + TithiTitle) + "\n");
    output := output + (Fence + "\n");
    var name := TitledMember(tithi, "name");
    if name.Err? { return Err(name.error); }
    var number := ShownMember(tithi, "number").value;
    var nameLine := Row("Name", name.value + " (" + number + ")");
    output := output + (nameLine + "\n");
    var paksha := TitledMember(tithi, "paksha");
    if paksha.Err? { return Err(paksha.error); }
    var pakshaLine := Row("Paksha", paksha.value);
    output := output + (pakshaLine + "\n");
    var completes := TimeMember(tithi, "completes_at");
    if completes.Err? { return Err(completes.error); }
    var completesLine := Row("Completes", completes.value);
    output := output + (completesLine + "\n");
    var remainingLine := Row("Remaining", ShownMember(tithi, "left_precentage").value + "%");
    output := output + (remainingLine + "\n");
    output := output + (Fence + "\n");
    assert TithiLines(tithi) == Ok([nameLine, pakshaLine, completesLine, remainingLine]);
    UnlinesCodeBlock(done, pending + TithiTitle, TithiLines(tithi).value);
    r := Ok(output);
  }

  /** The nakshatra section appended to `output`: its title, then its lines inside a code fence. */
  method AppendNakshatra(output: string, ghost done: seq<string>, nakshatra: Json) returns (r: Result<string, PyError>)
    requires output == Unlines(done)
    ensures NakshatraLines(nakshatra).Err? ==> r == Err(NakshatraLines(nakshatra).error)
    ensures NakshatraLines(nakshatra).Ok? ==> r == Ok(Unlines(done + CodeBlock(NakshatraTitle, NakshatraLines(nakshatra).value)))
  {
    var output := output + (NakshatraTitle + "\n");
    output := output + (Fence + "\n");
    var name := TitledMember(nakshatra, "name");
    if name.Err? { return Err(name.error); }
    var number := ShownMember(nakshatra, "number").value;
    var nameLine := Row("Name", name.value + " (" + number + ")");
    output := output + (nameLine + "\n");
    var starts := TimeMember(nakshatra, "starts_at");
    if starts.Err? { return Err(starts.error); }
    var startsLine := Row("Starts", starts.value);
    output := output + (startsLine + "\n");
    var ends := TimeMember(nakshatra, "ends_at");
    if ends.Err? { return Err(ends.error); }
    var endsLine := Row("Ends", ends.value);
    output := output + (endsLine + "\n");
    var remainingLine := Row("Remaining", ShownMember(nakshatra, "left_percentage").value + "%");
    output := output + (remainingLine + "\n");
    output := output + (Fence + "\n");
    assert NakshatraLines(nakshatra) == Ok([nameLine, startsLine, endsLine, remainingLine]);
    UnlinesCodeBlock(done, NakshatraTitle, NakshatraLines(nakshatra).value);
    r := Ok(output);
  }

  /**
   * The yoga and karana section appended to `output`, from the entries under
   * the key "1" of each; the closing fence ends the message, with no newline
   * after it.
   */
  method AppendYogaKarana(output: string, ghost done: seq<string>, yoga1: Json, karana1: Json)
    returns (r: Result<string, PyError>)
    requires output == Unlines(done)
    ensures YogaKaranaLines(yoga1, karana1).Err? ==> r == Err(YogaKaranaLines(yoga1, karana1).error)
    ensures YogaKaranaLines(yoga1, karana1).Ok? ==>
      r == Ok(JoinLines(done + CodeBlock(YogaKaranaTitle, YogaKaranaLines(yoga1, karana1).value)))
  {
    var output := output + (YogaKaranaTitle + "\n");
    output := output + (Fence + "\n");
    var name := TitledMember(yoga1, "name");
    if name.Err? { return Err(name.error); }
    var number := ShownMember(yoga1, "number").value;
    var yogaLine := Row("Yoga", name.value + " (" + number + ")");
    output := output + (yogaLine + "\n");
    var completion := TimeMember(yoga1, "completion");
    if completion.Err? { return Err(completion.error); }
    var yogaEndLine := Row("Yoga Completion", completion.value);
    output := output + (yogaEndLine + "\n");
    name := TitledMember(karana1, "name");
    if name.Err? { return Err(name.error); }
    number := ShownMember(karana1, "number").value;
    var karanaLine := Row("Karana", name.value + " (" + number + ")");
    output := output + (karanaLine + "\n");
    completion := TimeMember(karana1, "completion");
    if completion.Err? { return Err(completion.error); }
    var karanaEndLine := Row("Karana Completion", completion.value);
    output := output + (karanaEndLine + "\n");
    output := output + Fence;
    assert YogaKaranaLines(yoga1, karana1) == Ok([yogaLine, yogaEndLine, karanaLine, karanaEndLine]);
    JoinLastBlock(done, YogaKaranaTitle, YogaKaranaLines(yoga1, karana1).value);
    r := Ok(output);
  }

  /** The rows of three blocks after `m` header lines that are code fences. */
  function FenceRowsAfter(m: int): set<int>
  {
    {m + 1, m + 6, m + 8, m + 13, m + 15, m + 20}
  }

  /** The fence rows of the table: the date line, then the three blocks. */
  const FenceRows: set<int> := {2, 7, 9, 14, 16, 21}

  /** A line that starts with a character other than a backquote is not a fence. */
  lemma NotFence(line: string, c: char)
    requires line != [] && line[0] == c && c != '`'
    ensures line != Fence
  {
  }

  lemma RowNotFence(caption: string, value: string)
    requires caption != [] && caption[0] != '`'
    ensures Row(caption, value) != Fence
  {
    NotFence(Row(caption, value), caption[0]);
  }

  /** Four lines none of which is a fence, inside a block, give fences at its rows 1 and 6 only. */
  lemma CodeBlockFences(title: string, body: seq<string>)
    requires |body| == 4 && title != Fence && forall k :: 0 <= k < 4 ==> body[k] != Fence
    ensures |CodeBlock(title, body)| == 7
    ensures forall k :: 0 <= k < 7 ==> (CodeBlock(title, body)[k] == Fence <==> k == 1 || k == 6)
  {
    var b := CodeBlock(title, body);
    assert b == [title, Fence, body[0], body[1], body[2], body[3], Fence];
  }

  lemma TithiLinesShape(tithi: Json)
    requires TithiLines(tithi).Ok?
    ensures forall k :: 0 <= k < 4 ==> TithiLines(tithi).value[k] != Fence
  {
    var name, number := TitledMember(tithi, "name").value, ShownMember(tithi, "number").value;
    var paksha, completes := TitledMember(tithi, "paksha").value, TimeMember(tithi, "completes_at").value;
    var remaining := ShownMember(tithi, "left_precentage").value;
    assert TithiLines(tithi).value == [Row("Name", name + " (" + number + ")"), Row("Paksha", paksha),
      Row("Completes", completes), Row("Remaining", remaining + "%")];
    RowNotFence("Name", name + " (" + number + ")");
    RowNotFence("Paksha", paksha);
    RowNotFence("Completes", completes);
    RowNotFence("Remaining", remaining + "%");
  }

  lemma NakshatraLinesShape(nakshatra: Json)
    requires NakshatraLines(nakshatra).Ok?
    ensures forall k :: 0 <= k < 4 ==> NakshatraLines(nakshatra).value[k] != Fence
  {
    var name, number := TitledMember(nakshatra, "name").value, ShownMember(nakshatra, "number").value;
    var starts, ends := TimeMember(nakshatra, "starts_at").value, TimeMember(nakshatra, "ends_at").value;
    var remaining := ShownMember(nakshatra, "left_percentage").value;
    assert NakshatraLines(nakshatra).value == [Row("Name", name + " (" + number + ")"), Row("Starts", starts),
      Row("Ends", ends), Row("Remaining", remaining + "%")];
    RowNotFence("Name", name + " (" + number + ")");
    RowNotFence("Starts", starts);
    RowNotFence("Ends", ends);
    RowNotFence("Remaining", remaining + "%");
  }

  lemma YogaKaranaLinesShape(yoga: Json, karana: Json)
    requires YogaKaranaLines(yoga, karana).Ok?
    ensures forall k :: 0 <= k < 4 ==> YogaKaranaLines(yoga, karana).value[k] != Fence
  {
    var yogaName, yogaNumber := TitledMember(yoga, "name").value, ShownMember(yoga, "number").value;
    var karanaName, karanaNumber := TitledMember(karana, "name").value, ShownMember(karana, "number").value;
    var yogaEnd, karanaEnd := TimeMember(yoga, "completion").value, TimeMember(karana, "completion").value;
    assert YogaKaranaLines(yoga, karana).value == [Row("Yoga", yogaName + " (" + yogaNumber + ")"), Row("Yoga Completion", yogaEnd),
      Row("Karana", karanaName + " (" + karanaNumber + ")"), Row("Karana Completion", karanaEnd)];
    RowNotFence("Yoga", yogaName + " (" + yogaNumber + ")");
    RowNotFence("Yoga Completion", yogaEnd);
    RowNotFence("Karana", karanaName + " (" + karanaNumber + ")");
    RowNotFence("Karana Completion", karanaEnd);
  }

  /** None of the three blocks' lines is a fence. */
  lemma BlocksShape(b: Blocks)
    requires TithiLines(b.sections.tithi) == Ok(b.tithi)
    requires NakshatraLines(b.sections.nakshatra) == Ok(b.nakshatra)
    requires YogaKaranaLines(b.sections.yoga, b.sections.karana) == Ok(b.yogaKarana)
    ensures |b.tithi| == 4 && forall k :: 0 <= k < 4 ==> b.tithi[k] != Fence
    ensures |b.nakshatra| == 4 && forall k :: 0 <= k < 4 ==> b.nakshatra[k] != Fence
    ensures |b.yogaKarana| == 4 && forall k :: 0 <= k < 4 ==> b.yogaKarana[k] != Fence
  {
    TithiLinesShape(b.sections.tithi);
    NakshatraLinesShape(b.sections.nakshatra);
    YogaKaranaLinesShape(b.sections.yoga, b.sections.karana);
  }

  /** The computed blocks are the lines of the selected sections. */
  lemma TableBlocksParts(entries: seq<(string, Json)>)
    requires TableBlocks(entries).Ok?
    ensures var b := TableBlocks(entries).value;
      SelectSections(entries) == Ok(b.sections) &&
      TithiLines(b.sections.tithi) == Ok(b.tithi) && NakshatraLines(b.sections.nakshatra) == Ok(b.nakshatra) &&
      YogaKaranaLines(b.sections.yoga, b.sections.karana) == Ok(b.yogaKarana)
  {
  }

  /**
   * Header lines that are not fences, followed by the three blocks of four
   * non-fence lines: the block titles sit `m`, `m + 7` and `m + 14` lines
   * in, where `m` is the number of header lines, and the fences are
   * exactly at `FenceRowsAfter(m)`.
   */
  lemma AssembleShape(head: seq<string>, opening: string, t: seq<string>, n: seq<string>, y: seq<string>)
    requires forall k :: 0 <= k < |head| ==> head[k] != Fence
    requires opening != Fence
    requires |t| == 4 && forall k :: 0 <= k < 4 ==> t[k] != Fence
    requires |n| == 4 && forall k :: 0 <= k < 4 ==> n[k] != Fence
    requires |y| == 4 && forall k :: 0 <= k < 4 ==> y[k] != Fence
    ensures var ls, m := Assemble(head, opening, t, n, y), |head|;
      |ls| == m + 21 && ls[..m] == head && ls[m] == opening && ls[m + 7] == NakshatraTitle && ls[m + 14] == YogaKaranaTitle
    ensures var ls := Assemble(head, opening, t, n, y);
      forall k :: 0 <= k < |ls| ==> (ls[k] == Fence <==> k in FenceRowsAfter(|head|))
  {
    var bt, bn, bk := CodeBlock(opening, t), CodeBlock(NakshatraTitle, n), CodeBlock(YogaKaranaTitle, y);
    NotFence(NakshatraTitle, '*');
    NotFence(YogaKaranaTitle, '*');
    CodeBlockFences(opening, t);
    CodeBlockFences(NakshatraTitle, n);
    CodeBlockFences(YogaKaranaTitle, y);
    var ls, m := Assemble(head, opening, t, n, y), |head|;
    assert ls == head + bt + bn + bk;
    forall k | 0 <= k < |ls|
      ensures ls[k] == Fence <==> k in FenceRowsAfter(m)
    {
      if k < m {
        assert ls[k] == head[k];
      } else if k < m + 7 {
        assert ls[k] == bt[k - m];
      } else if k < m + 14 {
        assert ls[k] == bn[k - m - 7];
      } else {
        assert ls[k] == bk[k - m - 14];
      }
    }
  }

  /** The yoga and karana lines are the four lines after the last block's opening fence. */
  lemma AssembleRows(head: seq<string>, opening: string, t: seq<string>, n: seq<string>, y: seq<string>)
    requires |t| == 4 && |n| == 4 && |y| == 4
    ensures forall k :: 0 <= k < 4 ==> Assemble(head, opening, t, n, y)[|head| + 16 + k] == y[k]
  {
    var ls := Assemble(head, opening, t, n, y);
    assert ls == (head + CodeBlock(opening, t) + CodeBlock(NakshatraTitle, n)) + ([YogaKaranaTitle, Fence] + y + [Fence]);
  }

  lemma HeaderTailNotFence(dt: DateTime, sunRise: string, sunSet: string)
    requires Valid(dt)
    ensures HeaderTail(dt, sunRise, sunSet) + TithiTitle != Fence
  {
    NotFence(HeaderTail(dt, sunRise, sunSet) + TithiTitle, '_');
  }

  /**
   * Before the escape, the table is 22 lines: the date line, which starts
   * with the header's mark, then the line holding the time and sun text and
   * the tithi title, and then the blocks, the nakshatra title at line 8 and
   * the yoga & karana title at line 15; exactly the six lines at
   * `FenceRows` are fences.
   */
  lemma TableShape(dt: DateTime, entries: seq<(string, Json)>)
    requires Valid(dt) && TableLines(dt, entries).Ok?
    ensures var ls, sec := TableLines(dt, entries).value, SelectSections(entries).value;
      |ls| == 22 && ls[0] == DateLine(dt) && ls[1] == HeaderTail(dt, Show(sec.sunRise), Show(sec.sunSet)) + TithiTitle &&
      ls[8] == NakshatraTitle && ls[15] == YogaKaranaTitle
    ensures var ls := TableLines(dt, entries).value;
      ls[0] != [] && ls[0][0] == OmMark[0]
    ensures var ls := TableLines(dt, entries).value;
      forall k :: 0 <= k < |ls| ==> (ls[k] == Fence <==> k in FenceRows)
  {
    var b := TableBlocks(entries).value;
    TableBlocksParts(entries);
    BlocksShape(b);
    var opening := HeaderTail(dt, Show(b.sections.sunRise), Show(b.sections.sunSet)) + TithiTitle;
    NotFence(DateLine(dt), OmMark[0]);
    HeaderTailNotFence(dt, Show(b.sections.sunRise), Show(b.sections.sunSet));
    AssembleShape([DateLine(dt)], opening, b.tithi, b.nakshatra, b.yogaKarana);
    assert FenceRowsAfter(1) == FenceRows;
  }

  /** Escaping yields a fence exactly from a fence. */
  lemma EscapedFence(s: string)
    ensures EscapeDotDash(s) == Fence <==> s == Fence
  {
    EscapeLeavesPlainText(Fence);
    UnescapeEscape(s);
    assert Unescape(Fence) == Fence;
  }

  /** Past the error check, the message is the table's lines joined and escaped. */
  lemma MessageOfTable(data: Json, dt: DateTime)
    requires Valid(dt) && data.Obj? && !Truthy(Get(data.entries, "error", Null))
    requires TableLines(dt, data.entries).Ok?
    ensures PanchangMessage(data, dt) == Ok(EscapeDotDash(JoinLines(TableLines(dt, data.entries).value)))
  {
  }

  /** The block titles hold no full stop or hyphen, so the escape leaves them as they are. */
  lemma TithiTitlePlain()
    ensures EscapeDotDash(TithiTitle) == TithiTitle
  {
    EscapeLeavesPlainText(TithiTitle);
  }

  lemma NakshatraTitlePlain()
    ensures EscapeDotDash(NakshatraTitle) == NakshatraTitle
  {
    EscapeLeavesPlainText(NakshatraTitle);
  }

  lemma YogaKaranaTitlePlain()
    ensures EscapeDotDash(YogaKaranaTitle) == YogaKaranaTitle
  {
    EscapeLeavesPlainText(YogaKaranaTitle);
  }

  /** Escaping newline-free lines joined by line breaks gives back the lines, each escaped on its own. */
  lemma EscapedLines(ls: seq<string>)
    requires ls != [] && NoNewlines(ls)
    ensures SplitLines(EscapeDotDash(JoinLines(ls))) == EscapeEach(ls)
    ensures forall k :: 0 <= k < |ls| ==> (EscapeEach(ls)[k] == Fence <==> ls[k] == Fence)
  {
    EscapeJoinLines(ls);
    var es := EscapeEach(ls);
    forall k | 0 <= k < |es|
      ensures '\n' !in es[k]
    {
      EscapeNoNewline(ls[k]);
    }
    SplitJoin(es);
    forall k | 0 <= k < |es|
      ensures es[k] == Fence <==> ls[k] == Fence
    {
      EscapedFence(ls[k]);
    }
  }

  /** The escape of the message's second line: the `\n` pairs the header appends pass through it. */
  lemma EscapedOpening(time: string, sun: string, title: string)
    requires EscapeDotDash(title) == title
    ensures EscapeDotDash((time + "\\n") + (sun + "\\n\\n") + title) ==
      (EscapeDotDash(time) + "\\n") + (EscapeDotDash(sun) + "\\n\\n") + title
  {
    EscapeConcat((time + "\\n") + (sun + "\\n\\n"), title);
    EscapeConcat(time + "\\n", sun + "\\n\\n");
    EscapeConcat(time, "\\n");
    EscapeConcat(sun, "\\n\\n");
    EscapeLeavesPlainText("\\n");
    EscapeLeavesPlainText("\\n\\n");
  }

  /**
   * When no value shown in the table holds a line break, the message the
   * formatter returns is 22 lines, the table's lines each escaped on its own.
   * Line 1 carries the time of calculation, a backslash and `n`, the sunrise
   * and sunset, two more such pairs and the tithi title; then the nakshatra and
   * yoga & karana titles follow at lines 8 and 15, and the fences at
   * `FenceRows` open and close the three code blocks.
   */
  lemma ThreeCodeBlocks(data: Json, dt: DateTime)
    requires Valid(dt) && data.Obj? && !Truthy(Get(data.entries, "error", Null))
    requires TableLines(dt, data.entries).Ok? && NoNewlines(TableLines(dt, data.entries).value)
    ensures PanchangMessage(data, dt).Ok?
    ensures var lines, sec := SplitLines(PanchangMessage(data, dt).value), SelectSections(data.entries).value;
      |lines| == 22 && lines[8] == NakshatraTitle && lines[15] == YogaKaranaTitle &&
      lines[1] == (EscapeDotDash(TimeLine(dt)) + "\\n")
        + (EscapeDotDash(SunLine(Show(sec.sunRise), Show(sec.sunSet))) + "\\n\\n") + TithiTitle
    ensures var lines := SplitLines(PanchangMessage(data, dt).value);
      forall k :: 0 <= k < |lines| ==>
        (lines[k] == Fence <==> k in FenceRows) && lines[k] == EscapeDotDash(TableLines(dt, data.entries).value[k])
  {
    var sec := SelectSections(data.entries).value;
    var ls := TableLines(dt, data.entries).value;
    TableShape(dt, data.entries);
    MessageOfTable(data, dt);
    EscapedTable(ls, TimeLine(dt), SunLine(Show(sec.sunRise), Show(sec.sunSet)));
  }

  /** The escaped message of any 22 newline-free lines laid out as the table is. */
  lemma EscapedTable(ls: seq<string>, time: string, sun: string)
    requires |ls| == 22 && NoNewlines(ls)
    requires ls[1] == (time + "\\n") + (sun + "\\n\\n") + TithiTitle
    requires ls[8] == NakshatraTitle && ls[15] == YogaKaranaTitle
    requires forall k :: 0 <= k < |ls| ==> (ls[k] == Fence <==> k in FenceRows)
    ensures var lines := SplitLines(EscapeDotDash(JoinLines(ls)));
      |lines| == 22 && lines[8] == NakshatraTitle && lines[15] == YogaKaranaTitle &&
      lines[1] == (EscapeDotDash(time) + "\\n") + (EscapeDotDash(sun) + "\\n\\n") + TithiTitle
    ensures var lines := SplitLines(EscapeDotDash(JoinLines(ls)));
      forall k :: 0 <= k < |lines| ==> (lines[k] == Fence <==> k in FenceRows) && lines[k] == EscapeDotDash(ls[k])
  {
    EscapedLines(ls);
    NakshatraTitlePlain();
    YogaKaranaTitlePlain();
    TithiTitlePlain();
    EscapedOpening(time, sun, TithiTitle);
  }

  /** Escaping joined lines keeps the first character when it is not escaped. */
  lemma EscapedFirst(ls: seq<string>, c: char)
    requires |ls| > 1 && ls[0] != [] && ls[0][0] == c && !Escaped(c)
    ensures EscapeDotDash(JoinLines(ls)) != [] && EscapeDotDash(JoinLines(ls))[0] == c
  {
    JoinLinesCons(ls[0], ls[1..]);
    assert ls == [ls[0]] + ls[1..];
    var text := JoinLines(ls);
    assert text[0] == c;
    EscapeConcat([text[0]], text[1..]);
    assert text == [text[0]] + text[1..];
  }

  /** A truthy `error` entry is answered with the error line and nothing else, unescaped. */
  lemma ErrorShortCircuit(data: Json, dt: DateTime)
    requires Valid(dt) && data.Obj? && Truthy(Get(data.entries, "error", Null))
    ensures PanchangMessage(data, dt) == Ok(ErrorPrefix + Show(Get(data.entries, "error", Null)))
  {
  }

  /** Only the error answer starts with the error prefix: a table starts with the header's own mark. */
  lemma OnlyErrorsStartWithErrorPrefix(data: Json, dt: DateTime)
    requires Valid(dt) && data.Obj?
    requires PanchangMessage(data, dt).Ok? && StartsWith(PanchangMessage(data, dt).value, ErrorPrefix)
    ensures Truthy(Get(data.entries, "error", Null))
  {
    assert ErrorPrefix[0] != OmMark[0];
    if !Truthy(Get(data.entries, "error", Null)) {
      assert TableLines(dt, data.entries).Ok?;
      TableShape(dt, data.entries);
      MessageOfTable(data, dt);
      EscapedFirst(TableLines(dt, data.entries).value, OmMark[0]);
    }
  }

  /** The lines of each block when none of its keys is present. */
  const TithiPlaceholders: seq<string> :=
    [Row("Name", NA + " (" + NA + ")"), Row("Paksha", NA), Row("Completes", NA), Row("Remaining", NA + "%")]
  const NakshatraPlaceholders: seq<string> :=
    [Row("Name", NA + " (" + NA + ")"), Row("Starts", NA), Row("Ends", NA), Row("Remaining", NA + "%")]
  const YogaKaranaPlaceholders: seq<string> :=
    [Row("Yoga", NA + " (" + NA + ")"), Row("Yoga Completion", NA),
     Row("Karana", NA + " (" + NA + ")"), Row("Karana Completion", NA)]

  lemma TithiDefaults(tithi: Json)
    requires tithi.Obj?
    requires !HasKey(tithi.entries, "name") && !HasKey(tithi.entries, "number") && !HasKey(tithi.entries, "paksha")
    requires !HasKey(tithi.entries, "completes_at") && !HasKey(tithi.entries, "left_precentage")
    ensures TithiLines(tithi) == Ok(TithiPlaceholders)
  {
    assert Show(Str(NA)) == NA;
  }

  lemma NakshatraDefaults(nakshatra: Json)
    requires nakshatra.Obj?
    requires !HasKey(nakshatra.entries, "name") && !HasKey(nakshatra.entries, "number")
    requires !HasKey(nakshatra.entries, "starts_at") && !HasKey(nakshatra.entries, "ends_at")
    requires !HasKey(nakshatra.entries, "left_percentage")
    ensures NakshatraLines(nakshatra) == Ok(NakshatraPlaceholders)
  {
    assert Show(Str(NA)) == NA;
  }

  lemma YogaKaranaDefaults(yoga: Json, karana: Json)
    requires yoga.Obj? && karana.Obj?
    requires !HasKey(yoga.entries, "name") && !HasKey(yoga.entries, "number") && !HasKey(yoga.entries, "completion")
    requires !HasKey(karana.entries, "name") && !HasKey(karana.entries, "number") && !HasKey(karana.entries, "completion")
    ensures YogaKaranaLines(yoga, karana) == Ok(YogaKaranaPlaceholders)
  {
    assert Show(Str(NA)) == NA;
  }

  /**
   * A response holding none of the keys the table reads, such as `{}`, is
   * still rendered in full, every value shown as "N/A".
   */
  lemma MissingSectionsShowPlaceholders(dt: DateTime, entries: seq<(string, Json)>)
    requires Valid(dt)
    requires !HasKey(entries, "tithi") && !HasKey(entries, "nakshatra") && !HasKey(entries, "yoga")
    requires !HasKey(entries, "karana") && !HasKey(entries, "sun_rise") && !HasKey(entries, "sun_set")
    ensures TableLines(dt, entries) == Ok(Assemble([DateLine(dt)], HeaderTail(dt, NA, NA) + TithiTitle,
      TithiPlaceholders, NakshatraPlaceholders, YogaKaranaPlaceholders))
  {
    assert !HasKey(EmptyObj.entries, "1");
    assert SelectSections(entries) == Ok(Sections(EmptyObj, EmptyObj, EmptyObj, EmptyObj, Str(NA), Str(NA)));
    NoKeysInEmpty();
    TithiDefaults(EmptyObj);
    NakshatraDefaults(EmptyObj);
    YogaKaranaDefaults(EmptyObj, EmptyObj);
  }

  lemma NoKeysInEmpty()
    ensures forall key :: !HasKey(EmptyObj.entries, key)
  {
  }

  /**
   * The tithi's remaining share is read under the key "left_precentage" and
   * the nakshatra's under "left_percentage", so each block shows "N/A%" for
   * the other spelling.
   */
  lemma RemainingKeys(tithi: Json, nakshatra: Json)
    ensures TithiLines(tithi).Ok? ==>
      TithiLines(tithi).value[3] == Row("Remaining", Show(Get(tithi.entries, "left_precentage", Str(NA))) + "%")
    ensures NakshatraLines(nakshatra).Ok? ==>
      NakshatraLines(nakshatra).value[3] == Row("Remaining", Show(Get(nakshatra.entries, "left_percentage", Str(NA))) + "%")
  {
  }

  /** A tithi that spells its share as the nakshatra does shows only placeholders. */
  lemma TithiIgnoresOtherSpelling(share: Json)
    ensures TithiLines(Obj([("left_percentage", share)])) == Ok(TithiPlaceholders)
  {
    var t := Obj([("left_percentage", share)]);
    assert !HasKey(t.entries, "left_precentage");
    assert !HasKey(t.entries, "name") && !HasKey(t.entries, "number") && !HasKey(t.entries, "paksha");
    assert !HasKey(t.entries, "completes_at");
    TithiDefaults(t);
  }

  /** A nakshatra that spells its share as the tithi does shows only placeholders. */
  lemma NakshatraIgnoresOtherSpelling(share: Json)
    ensures NakshatraLines(Obj([("left_precentage", share)])) == Ok(NakshatraPlaceholders)
  {
    var n := Obj([("left_precentage", share)]);
    assert !HasKey(n.entries, "left_percentage");
    assert !HasKey(n.entries, "name") && !HasKey(n.entries, "number");
    assert !HasKey(n.entries, "starts_at") && !HasKey(n.entries, "ends_at");
    NakshatraDefaults(n);
  }

  /** The table's lines are the date line and the three blocks of its sections. */
  lemma TableLinesParts(dt: DateTime, entries: seq<(string, Json)>) returns (sec: Sections)
    requires Valid(dt) && TableLines(dt, entries).Ok?
    ensures SelectSections(entries) == Ok(sec)
    ensures TithiLines(sec.tithi).Ok? && NakshatraLines(sec.nakshatra).Ok? && YogaKaranaLines(sec.yoga, sec.karana).Ok?
    ensures TableLines(dt, entries).value ==
      Assemble([DateLine(dt)], HeaderTail(dt, Show(sec.sunRise), Show(sec.sunSet)) + TithiTitle,
               TithiLines(sec.tithi).value, NakshatraLines(sec.nakshatra).value,
               YogaKaranaLines(sec.yoga, sec.karana).value)
  {
    sec := SelectSections(entries).value;
  }

  /** The yoga's lines when it has none of its keys. */
  lemma YogaPlaceholders(yoga: Json, karana: Json)
    requires yoga.Obj? && !HasKey(yoga.entries, "name") && !HasKey(yoga.entries, "number")
    requires !HasKey(yoga.entries, "completion") && YogaKaranaLines(yoga, karana).Ok?
    ensures YogaKaranaLines(yoga, karana).value[0] == YogaKaranaPlaceholders[0]
    ensures YogaKaranaLines(yoga, karana).value[1] == YogaKaranaPlaceholders[1]
  {
    assert Show(Str(NA)) == NA;
  }

  /** The karana's lines when it has none of its keys. */
  lemma KaranaPlaceholders(yoga: Json, karana: Json)
    requires karana.Obj? && !HasKey(karana.entries, "name") && !HasKey(karana.entries, "number")
    requires !HasKey(karana.entries, "completion") && YogaKaranaLines(yoga, karana).Ok?
    ensures YogaKaranaLines(yoga, karana).value[2] == YogaKaranaPlaceholders[2]
    ensures YogaKaranaLines(yoga, karana).value[3] == YogaKaranaPlaceholders[3]
  {
    assert Show(Str(NA)) == NA;
  }

  lemma SelectedFirst(entries: seq<(string, Json)>)
    requires SelectSections(entries).Ok?
    ensures SelectSections(entries).value.yoga == Get(Get(entries, "yoga", EmptyObj).entries, "1", EmptyObj)
    ensures SelectSections(entries).value.karana == Get(Get(entries, "karana", EmptyObj).entries, "1", EmptyObj)
  {
  }

  /**
   * Only the entry under "1" of the yoga dictionary is read: one without it
   * shows the yoga as "N/A" (lines 17 and 18) whatever other entries it has.
   */
  lemma OnlyFirstYoga(dt: DateTime, entries: seq<(string, Json)>)
    requires Valid(dt) && TableLines(dt, entries).Ok?
    requires Get(entries, "yoga", EmptyObj).Obj? && !HasKey(Get(entries, "yoga", EmptyObj).entries, "1")
    ensures TableLines(dt, entries).value[17] == YogaKaranaPlaceholders[0]
    ensures TableLines(dt, entries).value[18] == YogaKaranaPlaceholders[1]
  {
    var sec := TableLinesParts(dt, entries);
    SelectedFirst(entries);
    assert sec.yoga == EmptyObj;
    NoKeysInEmpty();
    var y := YogaKaranaLines(sec.yoga, sec.karana).value;
    YogaPlaceholders(sec.yoga, sec.karana);
    AssembleRows([DateLine(dt)], HeaderTail(dt, Show(sec.sunRise), Show(sec.sunSet)) + TithiTitle,
      TithiLines(sec.tithi).value, NakshatraLines(sec.nakshatra).value, y);
  }

  /** Likewise only the entry under "1" of the karana dictionary is read (lines 19 and 20). */
  lemma OnlyFirstKarana(dt: DateTime, entries: seq<(string, Json)>)
    requires Valid(dt) && TableLines(dt, entries).Ok?
    requires Get(entries, "karana", EmptyObj).Obj? && !HasKey(Get(entries, "karana", EmptyObj).entries, "1")
    ensures TableLines(dt, entries).value[19] == YogaKaranaPlaceholders[2]
    ensures TableLines(dt, entries).value[20] == YogaKaranaPlaceholders[3]
  {
    var sec := TableLinesParts(dt, entries);
    SelectedFirst(entries);
    NoKeysInEmpty();
    var y := YogaKaranaLines(sec.yoga, sec.karana).value;
    KaranaPlaceholders(sec.yoga, sec.karana);
    AssembleRows([DateLine(dt)], HeaderTail(dt, Show(sec.sunRise), Show(sec.sunSet)) + TithiTitle,
      TithiLines(sec.tithi).value, NakshatraLines(sec.nakshatra).value, y);
  }

  /** The rendering of the instant 2025-12-13 21:14:07. */
  lemma ExampleCompletion()
    ensures CompletionText(DateTime(2025, 12, 13, 21, 14, 7)) == "09:14:07 PM, Dec 13"
  {
    LongDateExample();
    assert Pad2(13) == "13";
  }

  /** The API's lower-case names, as the blocks show them. */
  lemma ExampleTitles()
    ensures Title("purnima") == "Purnima" && Title("shukla") == "Shukla"
  {
    TitleOfLowerWord("purnima");
    TitleOfLowerWord("shukla");
  }

  /**
   * The header as its three appends evidently mean it: the time line, the
   * sun line and an empty line, each ended by a line break, before the tithi
   * title.
   */
  function IntendedHeader(dt: DateTime, sunRise: string, sunSet: string): (r: seq<string>)
    requires Valid(dt)
    ensures |r| == 4 && r[0] == DateLine(dt) && r[3] == ""
  {
    [DateLine(dt), TimeLine(dt), SunLine(sunRise, sunSet), ""]
  }

  /** The table with the intended header: 25 lines, the tithi title on a line of its own. */
  function IntendedTableLines(dt: DateTime, entries: seq<(string, Json)>): (r: Result<seq<string>, PyError>)
    requires Valid(dt)
    ensures r.Err? <==> TableBlocks(entries).Err?
    ensures r.Ok? ==> |r.value| == 25
  {
    var b :- TableBlocks(entries);
    Ok(Assemble(IntendedHeader(dt, Show(b.sections.sunRise), Show(b.sections.sunSet)), TithiTitle,
                b.tithi, b.nakshatra, b.yogaKarana))
  }

  /** The table's lines after the tithi title, which both headers share. */
  function BlocksAfterTitle(tithi: seq<string>, nakshatra: seq<string>, yogaKarana: seq<string>): seq<string>
  {
    [Fence] + tithi + [Fence] + CodeBlock(NakshatraTitle, nakshatra) + CodeBlock(YogaKaranaTitle, yogaKarana)
  }

  lemma AssembleAfterTitle(head: seq<string>, opening: string, bt: seq<string>, bn: seq<string>, bk: seq<string>)
    ensures Assemble(head, opening, bt, bn, bk) == head + [opening] + BlocksAfterTitle(bt, bn, bk)
  {
    assert CodeBlock(opening, bt) == [opening] + ([Fence] + bt + [Fence]);
  }

  /** Both tables, as written and as intended, from the same blocks. */
  lemma BothTablesOf(dt: DateTime, entries: seq<(string, Json)>)
    requires Valid(dt) && TableBlocks(entries).Ok?
    ensures var b := TableBlocks(entries).value;
      var rise, sunset := Show(b.sections.sunRise), Show(b.sections.sunSet);
      TableLines(dt, entries) == Ok(Assemble([DateLine(dt)], HeaderTail(dt, rise, sunset) + TithiTitle,
                                             b.tithi, b.nakshatra, b.yogaKarana)) &&
      IntendedTableLines(dt, entries) == Ok(Assemble(IntendedHeader(dt, rise, sunset), TithiTitle,
                                                     b.tithi, b.nakshatra, b.yogaKarana))
  {
  }

  /** What the raw strings put between the time line, the sun line and the title. */
  lemma RunTogether(time: string, sun: string, title: string)
    ensures time + "\\n" + sun + "\\n" + "" + "\\n" + title == (time + "\\n") + (sun + "\\n\\n") + title
  {
    assert "\\n" + "" + "\\n" == "\\n\\n";
  }

  /**
   * The table as written is the intended one with its lines 1 to 4 (time,
   * sun, empty and tithi title) run together, a backslash and `n` between
   * each two where a line break was meant.
   */
  lemma HeaderRunsIntoTithiTitle(dt: DateTime, entries: seq<(string, Json)>)
    requires Valid(dt)
    ensures TableLines(dt, entries).Err? <==> IntendedTableLines(dt, entries).Err?
    ensures TableLines(dt, entries).Ok? ==>
      var ls, il := TableLines(dt, entries).value, IntendedTableLines(dt, entries).value;
      ls == [il[0], il[1] + "\\n" + il[2] + "\\n" + il[3] + "\\n" + il[4]] + il[5..]
  {
    if TableLines(dt, entries).Ok? {
      var b := TableBlocks(entries).value;
      var rise, sunset := Show(b.sections.sunRise), Show(b.sections.sunSet);
      var rest := BlocksAfterTitle(b.tithi, b.nakshatra, b.yogaKarana);
      BothTablesOf(dt, entries);
      AssembleAfterTitle([DateLine(dt)], HeaderTail(dt, rise, sunset) + TithiTitle, b.tithi, b.nakshatra, b.yogaKarana);
      AssembleAfterTitle(IntendedHeader(dt, rise, sunset), TithiTitle, b.tithi, b.nakshatra, b.yogaKarana);
      RunLinesTogether(DateLine(dt), TimeLine(dt), SunLine(rise, sunset), rest);
    }
  }

  /** The lines of the two headers, over any date, time and sun lines and any rest. */
  lemma RunLinesTogether(date: string, time: string, sun: string, rest: seq<string>)
    ensures var ls, il := [date] + [((time + "\\n") + (sun + "\\n\\n")) + TithiTitle] + rest,
                          [date, time, sun, ""] + [TithiTitle] + rest;
      ls == [il[0], il[1] + "\\n" + il[2] + "\\n" + il[3] + "\\n" + il[4]] + il[5..]
  {
    var il := [date, time, sun, ""] + [TithiTitle] + rest;
    assert il[..5] == [date, time, sun, "", TithiTitle];
    assert il[5..] == rest;
    RunTogether(time, sun, TithiTitle);
  }

  /** The fence rows of the intended table, after its four header lines. */
  const IntendedFenceRows: set<int> := {5, 10, 12, 17, 19, 24}

  lemma IntendedHeaderNotFence(dt: DateTime, sunRise: string, sunSet: string)
    requires Valid(dt)
    ensures forall k :: 0 <= k < 4 ==> IntendedHeader(dt, sunRise, sunSet)[k] != Fence
  {
    var h := IntendedHeader(dt, sunRise, sunSet);
    NotFence(DateLine(dt), OmMark[0]);
    NotFence(TimeLine(dt), '_');
    NotFence(SunLine(sunRise, sunSet), '_');
    assert h[3] == "";
  }

  /**
   * The intended table line by line: 25 lines, the date, time and sun lines,
   * an empty line, and the three blocks under their titles at lines 4, 11
   * and 18, with the fences at `IntendedFenceRows`.
   */
  lemma IntendedShape(dt: DateTime, entries: seq<(string, Json)>)
    requires Valid(dt) && IntendedTableLines(dt, entries).Ok?
    ensures var ls, sec := IntendedTableLines(dt, entries).value, SelectSections(entries).value;
      |ls| == 25 && ls[0] == DateLine(dt) && ls[1] == TimeLine(dt) &&
      ls[2] == SunLine(Show(sec.sunRise), Show(sec.sunSet)) && ls[3] == "" &&
      ls[4] == TithiTitle && ls[11] == NakshatraTitle && ls[18] == YogaKaranaTitle
    ensures var ls := IntendedTableLines(dt, entries).value;
      forall k :: 0 <= k < |ls| ==> (ls[k] == Fence <==> k in IntendedFenceRows)
  {
    var b := TableBlocks(entries).value;
    TableBlocksParts(entries);
    BlocksShape(b);
    var rise, sunset := Show(b.sections.sunRise), Show(b.sections.sunSet);
    var h := IntendedHeader(dt, rise, sunset);
    IntendedHeaderNotFence(dt, rise, sunset);
    NotFence(TithiTitle, '*');
    AssembleShape(h, TithiTitle, b.tithi, b.nakshatra, b.yogaKarana);
    assert FenceRowsAfter(4) == IntendedFenceRows;
    var ls := Assemble(h, TithiTitle, b.tithi, b.nakshatra, b.yogaKarana);
    assert IntendedTableLines(dt, entries) == Ok(ls);
    assert ls[..4] == h == [DateLine(dt), TimeLine(dt), SunLine(rise, sunset), ""];
    assert ls[0] == h[0] && ls[1] == h[1] && ls[2] == h[2] && ls[3] == h[3];
  }

  /**
   * With the intended header and no line break in any shown value, the
   * escaped message is 25 lines: the date, the time of calculation, the
   * sunrise and sunset, an empty line, and the three blocks under their
   * titles at lines 4, 11 and 18, with the fences at `IntendedFenceRows`.
   */
  lemma IntendedLayout(dt: DateTime, entries: seq<(string, Json)>)
    requires Valid(dt) && IntendedTableLines(dt, entries).Ok? && NoNewlines(IntendedTableLines(dt, entries).value)
    ensures var lines, sec := SplitLines(EscapeDotDash(JoinLines(IntendedTableLines(dt, entries).value))),
                              SelectSections(entries).value;
      |lines| == 25 && lines[1] == EscapeDotDash(TimeLine(dt)) &&
      lines[2] == EscapeDotDash(SunLine(Show(sec.sunRise), Show(sec.sunSet))) && lines[3] == "" &&
      lines[4] == TithiTitle && lines[11] == NakshatraTitle && lines[18] == YogaKaranaTitle
    ensures var lines := SplitLines(EscapeDotDash(JoinLines(IntendedTableLines(dt, entries).value)));
      forall k :: 0 <= k < |lines| ==> (lines[k] == Fence <==> k in IntendedFenceRows)
  {
    var ls, sec := IntendedTableLines(dt, entries).value, SelectSections(entries).value;
    IntendedShape(dt, entries);
    EscapedIntendedTable(ls, TimeLine(dt), SunLine(Show(sec.sunRise), Show(sec.sunSet)));
  }

  /** The escaped message of any 25 newline-free lines laid out as the intended table is. */
  lemma EscapedIntendedTable(ls: seq<string>, time: string, sun: string)
    requires |ls| == 25 && NoNewlines(ls) && ls[1] == time && ls[2] == sun && ls[3] == ""
    requires ls[4] == TithiTitle && ls[11] == NakshatraTitle && ls[18] == YogaKaranaTitle
    requires forall k :: 0 <= k < |ls| ==> (ls[k] == Fence <==> k in IntendedFenceRows)
    ensures var lines := SplitLines(EscapeDotDash(JoinLines(ls)));
      |lines| == 25 && lines[1] == EscapeDotDash(time) && lines[2] == EscapeDotDash(sun) && lines[3] == "" &&
      lines[4] == TithiTitle && lines[11] == NakshatraTitle && lines[18] == YogaKaranaTitle
    ensures var lines := SplitLines(EscapeDotDash(JoinLines(ls)));
      forall k :: 0 <= k < |lines| ==> (lines[k] == Fence <==> k in IntendedFenceRows)
  {
    EscapedLines(ls);
    assert EscapeDotDash(ls[3]) == "";
    TithiTitlePlain();
    NakshatraTitlePlain();
    YogaKaranaTitlePlain();
  }
}
