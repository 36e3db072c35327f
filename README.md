# Panchang bot: a Dafny model of its data path

`jojo.py` is a Telegram bot answering `/panchang DD-MM-YYYY` with the
Hindu calendar details (tithi, nakshatra, yoga, karana) of that date, as
seen from Theni, Tamil Nadu. This project models the part of the bot that
is pure data handling, and proves properties of that model:

- the `/panchang` handler up to the request (`panchang_command`): it parses
  the argument as `datetime.strptime(..., '%d-%m-%Y')` does, rejects
  malformed and calendrically invalid dates with the invalid-date reply, and
  otherwise pairs the date with the India Standard Time clock reading of the
  message's arrival (modules `Strptime`, `Calendar`, `Instant`);
- `build_api_payload`, the request record with its fixed location and
  settings (module `Payload`);
- `format_completion_time`, which re-renders an upstream
  `YYYY-MM-DD HH:MM:SS` timestamp as `II:MM:SS AM|PM, Mon DD` or gives
  `N/A` (module `Table`);
- `format_panchang_table`: the error short-circuit, the dictionary lookups
  with their defaults, the message grown by appends into a header and three
  code blocks, and the final escaping of every `.` and `-` (modules `Table`,
  `Escape`, `Lines`, `Json`, `PyText`).

The decoded API response is a `Json` value. A Python exception the
formatter would raise on a value of an unexpected type is an `Err` of
`PyError`: `AttributeError` for `.get` on a non-dictionary or `.title()` on
a non-string, and `TypeError` for `strptime` on a truthy non-string. The
formatter is an imperative method (`Table.FormatPanchangTable` with its
three block-appending helpers). It builds the `output` string by the same
appends as the source, in the same order. It is proved equal to the function
`Table.PanchangMessage`, which describes the message line by line and
about which the layout lemmas are stated.

The header's second and third appends (jojo.py:112-113) are raw f-strings,
so each `\n` in them is a backslash followed by `n`, not a line break. The
model keeps that: before escaping, the table has 22 lines. Line 0 is the date
line. Line 1 runs together the time of calculation, a backslash-`n` pair,
the sunrise and sunset, two more such pairs and the tithi title. The
nakshatra title is line 8 and the yoga & karana title line 15, and the
fences sit at lines 2, 7, 9, 14, 16 and 21. The 25-line layout with real
line breaks, which the code evidently intends, is modelled beside it under
"## Findings".

The message clock and the network are parameters: the arrival is given
in seconds since the Unix epoch, and the decoded API response is an input.

Three behaviours of the code are worth stating because a reader might
expect otherwise:
- the paksha is shown title-cased as the response gives it (for example
  "Shukla"); no other wording is substituted;
- the formatter reads the sections at the top level of the response; it
  does not look inside any wrapping object;
- only `.` and `-` are escaped, not every character MarkdownV2 reserves.

## Model

| member | source | states |
|---|---|---|
| `Instant.PanchangCommand` | jojo.py:164-190 | With no argument the usage text is sent. An argument the parser rejects gets the invalid-date reply quoting it, and no request is built. Otherwise the request's date is the parsed date, its clock is the arrival shifted by +5:30 modulo one day, its payload asks for exactly that instant with the fixed settings, and its progress reply is the one `Instant.FetchingText` gives for that instant. |
| `Instant.RequestMatchesArgument` | jojo.py:172-186 | Every accepted spelling of a date leads to a request for that day; at the matching clock reading the instant is exactly the one meant. |
| `Instant.UsageExampleRequested` | jojo.py:165 | The usage text's own example, 13-12-2025, leads to a request for the 13th. |
| `Instant.InvalidExampleRejected` | jojo.py:188-189 | 31-02-2025 gets the invalid-date reply quoting it. |
| `Instant.InvalidDateText` | jojo.py:189 | The reply is the fixed opening, the argument verbatim, then the fixed closing. |
| `Instant.InvalidDateTextQuotes` | jojo.py:189 | The argument can be read back out of the reply, so different arguments get different replies. |
| `Instant.FetchingText` | jojo.py:196 | The progress reply starts with the hourglass mark and "Fetching Full Panchang details for " and ends with " (Theni, IST)...". |
| `Instant.FetchingTextReadsBack` | jojo.py:196 | The reply has " at " before an eight-character `HH:MM:SS` clock whose fields are the instant's hour, minute and second. `%d-%m-%Y` reads the date before it back as the instant's day exactly when the year has four digits; an unpadded year below 1000 is refused. |
| `Instant.ProgressNamesArgument` | jojo.py:168-196 | For a request, the date in the progress reply reads the same as the user's argument exactly when the year has four digits. Its clock's second of the day is the arrival's IST second of the day. |
| `Instant.IstClock` | jojo.py:175-176 | The IST clock of an arrival is a valid time whose second of the day is (arrival + 19800) mod 86400. |
| `Instant.IstClockDaily` | jojo.py:175-176 | The IST clock reading repeats every day. |
| `Instant.IstClockExamples` | jojo.py:20-21 | 18:30 UTC is IST midnight; 00:00 UTC is 05:30 IST. |
| `Instant.CombineInstant` | jojo.py:179-186 | The built instant is valid, has the parsed year, month and day, and the arrival's IST second of the day. |
| `Instant.ClockFromSecondOfDay` | jojo.py:179-186 | Two valid clock readings with the same second of the day are equal. |
| `Strptime.ParseDayMonthYear` | jojo.py:172 | Whatever `%d-%m-%Y` accepts is a valid date at midnight. |
| `Strptime.ParseDayMonthYearExactly` | jojo.py:172 | `%d-%m-%Y` yields a date exactly when the string is one of that valid date's accepted spellings: the day and month padded or not, or the day with a leading space, then the four-digit year. |
| `Strptime.SpelledDateIsParsed` | jojo.py:172 | Every accepted spelling of a valid date parses to that date. |
| `Strptime.ParsedDateIsSpelled` | jojo.py:172 | Every accepted string spells the date it yields. |
| `Strptime.DateOfSpellings` | jojo.py:172 | The three fields give a date exactly when they are spellings of its day, its month and its padded year. |
| `Strptime.DayMonthYearRoundTrip` | jojo.py:172 | The canonical `DD-MM-YYYY` text of a valid date parses back to it. |
| `Strptime.UsageExampleAccepted` | jojo.py:172 | "13-12-2025" parses to 13 December 2025. |
| `Strptime.DayOutOfMonthRejected` | jojo.py:172 | The 31st of February is rejected whatever the year text. |
| `Strptime.LeapDay` | jojo.py:172 | The 29th of February is accepted exactly for a four-digit leap year from 0001 on. |
| `Strptime.DayZeroRejected` | jojo.py:172 | Day 00 is rejected. |
| `Strptime.YearZeroRejected` | jojo.py:172 | Year 0000 passes `%Y` but is rejected as a date. |
| `Strptime.YearFirstRejected` | jojo.py:172 | A date written year first (`YYYY-MM-DD`) is rejected. |
| `Strptime.DayFieldSpellings` | jojo.py:172 | The `%d` token reads day d exactly for that day's accepted spellings. |
| `Strptime.MonthFieldSpellings` | jojo.py:172 | The `%m` token reads month m exactly for that month's accepted spellings. |
| `Strptime.YearFieldSpelling` | jojo.py:172 | `%Y` reads year y (0001-9999) exactly from its four-digit spelling. |
| `Strptime.DigitsDetermine` | jojo.py:172 | Two equally long digit runs with the same value are the same text. |
| `Strptime.ParseTimestamp` | jojo.py:93 | Whatever `%Y-%m-%d %H:%M:%S` accepts is a valid instant. |
| `Strptime.ParseTimestampExactly` | jojo.py:93 | `%Y-%m-%d %H:%M:%S` yields an instant exactly when the string spells that valid instant. A spelling is the four-digit year, `-`, the month and `-`, then the day, each padded or not (the day may also have a leading space). Then come one or more whitespace characters and the hour, minute and second, each padded or not and separated by `:`. |
| `Strptime.ParsedTimestampIsSpelled` | jojo.py:93 | Every accepted timestamp spells the instant it yields. |
| `Strptime.SpelledTimestampIsParsed` | jojo.py:93 | Every spelling of a valid instant parses to that instant. |
| `Strptime.TimestampOfSpellings` | jojo.py:93 | The six fields give an instant exactly when each is a spelling of that instant's corresponding part. |
| `Strptime.ClockFieldSpellings` | jojo.py:93 | The `%H`, `%M` and `%S` tokens read n exactly from n's one- or two-digit spelling. |
| `Strptime.TimestampRoundTrip` | jojo.py:92-93 | The upstream's `YYYY-MM-DD HH:MM:SS` text of any valid instant parses back to that instant. |
| `Strptime.ParseTimestampFields` | jojo.py:93 | A timestamp spelled from its fields, with any whitespace run between date and clock, is split back into those six fields. |
| `Strptime.SplitAtFirst` | jojo.py:93 | The split is at the first separator, and fails exactly when there is none. |
| `Payload.BuildApiPayload` | jojo.py:39-52 | The payload's six time fields are the instant's. Latitude 10.0079, longitude 77.4735, timezone 5.5 and the topocentric/lahiri config are fixed. |
| `Payload.PayloadDeterminesInstant` | jojo.py:39-52 | Two payloads are equal exactly when their instants are. |
| `Payload.PayloadSettingsFixed` | jojo.py:48-51 | Location, timezone and configuration do not depend on the instant. |
| `Payload.TimezoneMatchesShift` | jojo.py:20-21 | The 5.5-hour timezone sent upstream is the 19800-second shift applied to the arrival. |
| `Table.FormatCompletionTime` | jojo.py:89-96 | The helper raises exactly for a truthy value that is not a string. |
| `Table.CompletionNAExactly` | jojo.py:89-96 | The helper gives "N/A" exactly for a falsy value or a string that spells no valid instant. A string spelling an instant is rendered as that instant. |
| `Table.CompletionTimeFallback` | jojo.py:89-96 | "N/A" exactly for a falsy value or a string the timestamp parser rejects; otherwise, for a string, the parsed instant's rendering. |
| `Table.CompletionOfWireTimestamp` | jojo.py:92-94 | A timestamp in the upstream's format is rendered, never replaced by "N/A". |
| `Table.CompletionTextFields` | jojo.py:94 | The 19-character rendering: the two-digit hour 01-12, unchanged minutes and seconds, AM/PM, the month's three-letter abbreviation and the two-digit day. The hour and marker read back to the 24-hour hour. |
| `Calendar.Hour12RoundTrip` | jojo.py:94 | The `%I` hour and `%p` marker together give back the 24-hour hour (0 is 12 AM, 12 is 12 PM, 13-23 are 1-11 PM). |
| `Table.ExampleCompletion` | jojo.py:94 | 2025-12-13 21:14:07 is rendered "09:14:07 PM, Dec 13". |
| `Calendar.Clock12ReadsBack` | jojo.py:106 | `%I:%M:%S %p` is 11 characters: three two-digit fields separated by colons, a space and AM or PM. The hour read with its marker, the minute and the second are the instant's. |
| `Calendar.LongDateDetermines` | jojo.py:105 | Two valid dates with the same `%A, %B %d, %Y` text have the same year, month and day. |
| `Calendar.LongDateExample` | jojo.py:105-106 | The header shows 2025-12-13 21:14:07 as "Saturday, December 13, 2025" and "09:14:07 PM". |
| `Calendar.NextDayAdvancesWeekday` | jojo.py:105 | The `%A` weekday of the next calendar day is the next weekday. |
| `Calendar.DaysInMonth` | jojo.py:172 | Months have 28 to 31 days; 31 for the long months, 30 for April, June, September and November, and 29 for February in leap years only. |
| `Json.FalsyValues` | jojo.py:85 | A value is falsy exactly when it is `None`, `False`, zero, or an empty string, list or dictionary. |
| `Json.ShowOfScalars` | jojo.py:118-139 | A field shows a string as it is, an int as its decimal digits with a minus sign exactly when negative, and `None`, `True`, `False` and a float as Python spells them. |
| `Json.ReprStringReadsBack` | jojo.py:86 | A string's `repr` is quoted at both ends, in double quotes exactly when the string holds a single quote and no double quote. Reading the text between the quotes gives the string back. |
| `Json.ReprBrackets` | jojo.py:86 | A list's `repr` is bracketed and a dictionary's braced. |
| `Json.GetFindsFirst` | jojo.py:99-108 | A lookup finds the value of the first entry holding the key. |
| `Table.FormatPanchangTable` | jojo.py:82-143 | The method builds the message by the source's appends, each of the header's `\n` pairs a backslash and `n`, and escapes it at the end; it returns exactly `PanchangMessage`. |
| `Table.PanchangMessage` | jojo.py:82-143 | A non-dictionary response raises. The result is an exception exactly when there is no truthy error and a section lookup raises. Past the error check, removing the escapes from the message gives the table's lines joined by line breaks. |
| `Table.AppendTithi` | jojo.py:115-122 | After the header text, appends the tithi title, fence, four lines and the closing fence, or passes the lookup's exception on. The title ends the line the header leaves open. |
| `Table.AppendNakshatra` | jojo.py:124-131 | Likewise for the nakshatra block. |
| `Table.AppendYogaKarana` | jojo.py:133-140 | Likewise for the yoga and karana block, which ends the message without a final newline. |
| `Table.TableLines` | jojo.py:110-140 | The table raises exactly when its blocks do. Otherwise it is 22 lines starting with the date line. |
| `Table.HeaderTailText` | jojo.py:112-113 | The two raw appends add the time line, a backslash and `n`, the sun line and two more such pairs. Their text holds a real line break only where a sunrise or sunset value does. |
| `Table.SelectSections` | jojo.py:99-108 | Selecting the sections raises exactly when the "yoga" or "karana" entry is not a dictionary. |
| `Table.SelectSectionsDefaults` | jojo.py:99-108 | Selecting raises only when the response has a "yoga" or "karana" key. A missing section is an empty dictionary, and a missing sunrise or sunset is "N/A". |
| `Table.TithiLinesRaise` | jojo.py:115-122 | The tithi block raises exactly when the tithi is not a dictionary, its name or paksha is present but not a string, or its completion time is truthy but not a string. |
| `Table.NakshatraLinesRaise` | jojo.py:124-131 | The nakshatra block raises exactly when the nakshatra is not a dictionary, its name is present but not a string, or its start or end time is truthy but not a string. |
| `Table.YogaKaranaLinesRaise` | jojo.py:133-140 | The yoga & karana block raises exactly when either entry is not a dictionary, its name is present but not a string, or its completion time is truthy but not a string. |
| `Table.TithiCaptions` | jojo.py:118-121 | The tithi lines begin "Name: ", "Paksha: ", "Completes: " and "Remaining: ". |
| `Table.NakshatraCaptions` | jojo.py:127-130 | The nakshatra lines begin "Name: ", "Starts: ", "Ends: " and "Remaining: ". |
| `Table.YogaKaranaCaptions` | jojo.py:136-139 | The yoga & karana lines begin "Yoga: ", "Yoga Completion: ", "Karana: " and "Karana Completion: ". |
| `Table.ErrorShortCircuit` | jojo.py:85-86 | A truthy `error` entry gives exactly the error prefix followed by the error's text, unescaped. |
| `Table.OnlyErrorsStartWithErrorPrefix` | jojo.py:85-86 | A message that is not an error answer never starts with the error prefix. |
| `Table.ThreeCodeBlocks` | jojo.py:110-143 | In the non-error path, when no shown value holds a line break, the message is 22 lines. Line 1 is the escaped time line, a backslash and `n`, the escaped sun line, two such pairs and the tithi title. The nakshatra and yoga & karana titles are at lines 8 and 15. The fences are exactly at lines 2, 7, 9, 14, 16 and 21. Each line is the escaped table line. |
| `Table.TableShape` | jojo.py:110-140 | Before escaping, the table is 22 lines: the date line with its mark; then the header tail run into the tithi title; the titles at lines 8 and 15; fences exactly at the fence rows. |
| `Table.AssembleShape` | jojo.py:110-140 | After any header of non-fence lines, the three blocks put their titles 0, 7 and 14 lines past the header and fences exactly at the rows `FenceRowsAfter` names. |
| `Table.TableLinesParts` | jojo.py:110-140 | The table is the date line followed by the tithi, nakshatra and yoga & karana blocks built from the selected sections. |
| `Table.MissingSectionsShowPlaceholders` | jojo.py:99-139 | A response with none of the keys shows "N/A" for the sunrise and sunset and the placeholder lines in every block. |
| `Table.TithiDefaults` | jojo.py:118-121 | A tithi without its keys shows "Name: N/A (N/A)", "Paksha: N/A", "Completes: N/A", "Remaining: N/A%". |
| `Table.NakshatraDefaults` | jojo.py:127-130 | A nakshatra without its keys shows name, start, end and remaining as placeholders. |
| `Table.YogaKaranaDefaults` | jojo.py:136-139 | A yoga and karana without their keys show placeholder lines. |
| `Table.OnlyFirstYoga` | jojo.py:101 | A yoga dictionary without the key "1" shows placeholder yoga lines (table lines 17 and 18), whatever else it holds. |
| `Table.OnlyFirstKarana` | jojo.py:102 | A karana dictionary without the key "1" shows placeholder karana lines (table lines 19 and 20), whatever else it holds. |
| `Table.SelectedFirst` | jojo.py:101-102 | The yoga and karana shown are the entries under "1". |
| `Table.RemainingKeys` | jojo.py:121-130 | The tithi's remaining share is read from "left_precentage" and the nakshatra's from "left_percentage". |
| `Table.TithiIgnoresOtherSpelling` | jojo.py:121 | A tithi giving its share under "left_percentage" shows "Remaining: N/A%". |
| `Table.NakshatraIgnoresOtherSpelling` | jojo.py:130 | A nakshatra giving its share under "left_precentage" shows "Remaining: N/A%". |
| `Table.Member` | jojo.py:99-102 | `.get` raises exactly on a non-dictionary and gives the default for a missing key. |
| `Table.TitledMember` | jojo.py:118-119 | Raises exactly on a non-dictionary or a present non-string value. A missing name shows "N/A"; a shown name is the title-cased string value. |
| `Table.ShownMember` | jojo.py:118-121 | A missing value shows "N/A"; a present one shows as Python's `str` prints it. |
| `Table.TimeMember` | jojo.py:120-129 | Raises exactly on a non-dictionary or a truthy non-string. A missing timestamp shows "N/A"; a present one is rendered by `format_completion_time`. |
| `Table.EscapedFence` | jojo.py:143 | The escape yields a fence from a fence and from nothing else. |
| `Table.EscapedLines` | jojo.py:143 | Escaping newline-free lines joined by line breaks gives one escaped line for each, with fences exactly where they were. |
| `Table.EscapedOpening` | jojo.py:143 | In the table's line 1 the escape acts on the time and sun text and leaves the backslash-`n` pairs and the title as they are. |
| `Table.TithiTitlePlain` | jojo.py:143 | The tithi title passes through the escape unchanged. |
| `Table.EscapedFirst` | jojo.py:143 | The escape keeps a first character that is neither `.` nor `-`. |
| `Table.HeaderRunsIntoTithiTitle` | jojo.py:112-113 | As written, the table is the intended one with its lines 1 to 4 (time, sun, empty line, tithi title) joined into one line, a backslash and `n` standing where each line break was meant. Both raise in the same cases. |
| `Table.IntendedTableLines` | jojo.py:110-140 | The intended table raises exactly when the blocks do, and is otherwise 25 lines. |
| `Table.IntendedShape` | jojo.py:110-140 | The intended table has the date, time and sun lines and an empty line. The three titles follow at lines 4, 11 and 18, and the fences are exactly at lines 5, 10, 12, 17, 19 and 24. |
| `Table.IntendedLayout` | jojo.py:110-143 | With the intended header and no line break in any shown value, the escaped message is those 25 lines, each escaped, with the same titles and fences. |
| `Escape.ChainedReplaceEscapes` | jojo.py:143 | The two chained `replace` calls equal one pass prefixing each `.` and `-` with a backslash. |
| `Escape.EscapeLength` | jojo.py:143 | The escaped text is longer by exactly the number of `.` and `-`. |
| `Escape.EscapeCounts` | jojo.py:143 | Every character other than the backslash occurs as often as before. The backslashes grow by the number of `.` and `-`. |
| `Escape.EscapedAreProtected` | jojo.py:143 | Every `.` and `-` in the escaped text is preceded by a backslash. |
| `Escape.UnescapeEscape` | jojo.py:143 | Dropping the added backslashes gives back the unescaped text. |
| `Escape.EscapeLeavesPlainText` | jojo.py:143 | Text without `.` and `-` passes unchanged. |
| `Escape.EscapeStartsSafely` | jojo.py:143 | The escaped text never starts with a bare `.` or `-`. |
| `Lines.EscapeJoinLines` | jojo.py:143 | The escape works line by line and never adds or removes a line break. |
| `Lines.SplitJoin` | jojo.py:110-140 | Splitting joined lines that hold no line break gives the lines back. |
| `Lines.UnlinesSnoc` | jojo.py:111-139 | Appending a line and its newline to the text extends the list of lines by that line. |
| `PyText.TitleAt` | jojo.py:118 | `title()` upper-cases each character that starts the string or follows an uncased one, and lower-cases the rest. |
| `PyText.TitleIdempotent` | jojo.py:118 | Title-casing twice is the same as once. |
| `PyText.TitleOfPlaceholder` | jojo.py:118 | The "N/A" default survives `.title()` unchanged. |
| `PyText.TitleOfLowerWord` | jojo.py:118 | A lower-case word is capitalised. |
| `Table.ExampleTitles` | jojo.py:118-119 | "purnima" and "shukla" are shown as "Purnima" and "Shukla". |
| `PyText.NatToStringValue` | jojo.py:118 | The decimal text of a number reads back to it. |

## Findings

| source | as written | input that shows it | evidently intended | confidence | as-written member | corrected member |
|---|---|---|---|---|---|---|
| jojo.py:112-113 | The two header appends are raw f-strings (`rf"..."`), so each `\n` in them is a backslash and the letter `n`, not a line break. The time line, the sun line, an empty line and the tithi title become one line. | Any response without a truthy error, for example `{}` at 2025-12-13 21:14:07: the message's line 1 is the time text, `\n`, the sun text, `\n\n` and the tithi title, and the message has 22 lines instead of 25. | Line breaks after the time line and the sun line, and an empty line before the tithi title, as the non-raw f-string on line 111 has. | not executed | `Table.HeaderRunsIntoTithiTitle` | `Table.IntendedLayout` |

The rest of the model follows the code as written: `Table.PanchangMessage`,
`Table.FormatPanchangTable` and the layout lemmas describe the 22-line
message. The intended table (`Table.IntendedTableLines`) exists only to
state the finding.

## Left out

- `fetch_panchang_data` (jojo.py:54-79) is not part of this model. It is an HTTP request; its decoded result is the formatter's input.
- The Telegram transport is not modelled: the replies, `start_command`, `help_command`, `main`, the webhook and environment settings, and logging. `Instant.PanchangCommand` returns the reply text or the request instead of sending it.
- The `pytz` time zone database is replaced by the fixed +5:30 offset that the code declares; India has no daylight saving time.
- `json.dumps` is left out: the payload is a record with the body's keys, not JSON bytes.
- Floating-point values are kept as the text Python's `repr` prints for them.
- `repr` of a string is modelled for the characters up to U+00FF and otherwise prints the character as it is. Python's printability table for the rest of Unicode is not modelled.
- `PyText.TitleAt`: only ASCII letters have case. Unicode case mapping is not modelled.
- `Strptime.ParseDayMonthYear`: `\d` matches ASCII digits only, not every Unicode decimal digit.
- `Strptime.ParseTimestamp`: `\d` matches ASCII digits only. The format's space matches any run of the whitespace Python's `\s` matches.
- `Json.Get`: a dictionary is a list of entries, and the lookup takes the first entry with the key. A decoded JSON object with a repeated key keeps the last value, so such entry lists stand for the deduplicated object.
- Years below 1000: `%Y` in `strftime` is printed as glibc prints it, without zero padding ("999"). `Calendar.LongDate` and `Instant.ProgressDate` follow that. Another C library or Python build may print "0999" instead.
- MarkdownV2 validity of the message beyond the `.`/`-` escape is not claimed.
- `Table.FormatCompletionTime`: the function's own contract states only when it raises. When it gives "N/A" and what it renders otherwise is stated by `Table.CompletionNAExactly` and `Table.CompletionTimeFallback`.
- `Table.ThreeCodeBlocks`: the layout is proved for values without line breaks. A value holding one would add lines.
- `Table.IntendedLayout`: the corrected layout is stated about the table lines, not about a second formatter method; the method follows the code as written.
