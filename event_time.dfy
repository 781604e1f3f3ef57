/**
 * `parseEndDate` and `isEventDone` of the events page: the end side of a
 * time range such as "9:00 AM – 3:00 PM" is read as a 12-hour clock time and
 * put on the event's day; an event is done once that instant has passed.
 *
 * Instants are milliseconds. The browser's parse of the event's date string
 * is an input: either invalid, or the instant of local midnight of that day.
 */
module EventTime {
  import opened Wrappers
  import opened JsText

  const MsPerMinute: int := 60_000
  const MsPerHour: int := 3_600_000
  const MsPerDay: int := 86_400_000

  /** `new Date(dateStr)`: NaN, or a valid time whose day starts at `midnightMs`. */
  datatype DateInput = InvalidDate | ValidDate(midnightMs: int)

  /** The separators of `timeRange.split(/–|—|-/)`: hyphen, en dash, em dash. */
  const RangeSeparators: set<char> := {'-', '\U{2013}', '\U{2014}'}

  /** `parts[1] ?? parts[0]`: the field after the first separator and before the next one, or the whole text. */
  function EndField(timeRange: string): string {
    var parts := Split(timeRange, RangeSeparators);
    if |parts| >= 2 then parts[1] else parts[0]
  }

  /** `(parts[1] ?? parts[0]).trim()`. */
  function EndPart(timeRange: string): string {
    Trim(EndField(timeRange))
  }

  /** With a separator, the end field is the first field of the text after it. */
  lemma EndFieldAfterSeparator(start: string, sep: char, rest: string)
    requires NoneIn(start, RangeSeparators) && sep in RangeSeparators
    ensures EndField(start + [sep] + rest) == Split(rest, RangeSeparators)[0]
  {
    SplitAtFirstSeparator(start, sep, rest, RangeSeparators);
  }

  /** Without a separator, the end field is the whole text. */
  lemma EndFieldWithoutSeparator(start: string)
    requires NoneIn(start, RangeSeparators)
    ensures EndField(start) == start
  {
    SplitNoSeparator(start, RangeSeparators);
  }

  /** With a separator, the end part is the trimmed first field of the text after it; with none, the trimmed whole text. */
  lemma EndPartFields(start: string, sep: char, rest: string)
    requires NoneIn(start, RangeSeparators) && sep in RangeSeparators
    ensures EndPart(start + [sep] + rest) == Trim(Split(rest, RangeSeparators)[0])
    ensures EndPart(start) == Trim(start)
  {
    EndFieldAfterSeparator(start, sep, rest);
    EndFieldWithoutSeparator(start);
  }

  datatype Meridiem = AM | PM

  /** The groups of one match of `/(\d{1,2})(?::(\d{2}))?\s*(AM|PM)/i`, as numbers. */
  datatype ClockMatch = ClockMatch(hour: nat, minute: nat, meridiem: Meridiem)

  /** The first index at or after `q` that is not `\s`. */
  function SkipSpaces(e: string, q: nat): (w: nat)
    requires q <= |e|
    ensures q <= w <= |e|
    ensures forall k :: q <= k < w ==> IsJsSpace(e[k])
    ensures w == |e| || !IsJsSpace(e[w])
    decreases |e| - q
  {
    if q < |e| && IsJsSpace(e[q]) then SkipSpaces(e, q + 1) else q
  }

  /** `AM` or `PM` in any letter case at index `w`. */
  function MeridiemAt(e: string, w: nat): Option<Meridiem> {
    if w + 2 <= |e| && UpperChar(e[w + 1]) == 'M' then
      if UpperChar(e[w]) == 'A' then Some(AM)
      else if UpperChar(e[w]) == 'P' then Some(PM)
      else None
    else None
  }

  /**
   * The match of the clock expression that starts at index `i`, if any.
   * Backtracking never finds a second way: giving up the second hour digit
   * or the `:MM` group leaves a digit or a colon where `\s*(AM|PM)` must
   * start, and a shorter `\s*` leaves a space there. So the longest hour,
   * the minutes group when present, and all following spaces are taken.
   */
  function MatchAt(e: string, i: nat): (m: Option<ClockMatch>)
    ensures m.Some? ==> i < |e| && IsDigit(e[i]) && m.value.hour <= 99 && m.value.minute <= 99
  {
    if i < |e| && IsDigit(e[i]) then
      var p := if i + 1 < |e| && IsDigit(e[i + 1]) then i + 2 else i + 1;
      var hasMinutes := p + 3 <= |e| && e[p] == ':' && IsDigit(e[p + 1]) && IsDigit(e[p + 2]);
      var q := if hasMinutes then p + 3 else p;
      var minute := if hasMinutes then DigitsValue(e[p + 1..p + 3]) else 0;
      match MeridiemAt(e, SkipSpaces(e, q))
      case None => None
      case Some(mer) => Some(ClockMatch(DigitsValue(e[i..p]), minute, mer))
    else None
  }

  /** The leftmost index at or after `i` where the clock expression matches. */
  function MatchIndexFrom(e: string, i: nat): (r: Option<nat>)
    ensures r.Some? ==> i <= r.value < |e| && MatchAt(e, r.value).Some?
    ensures r.Some? ==> forall k :: i <= k < r.value ==> MatchAt(e, k).None?
    ensures r.None? ==> forall k :: i <= k ==> MatchAt(e, k).None?
    decreases |e| - i
  {
    if i >= |e| then None
    else if MatchAt(e, i).Some? then Some(i)
    else MatchIndexFrom(e, i + 1)
  }

  /** `end.match(/(\d{1,2})(?::(\d{2}))?\s*(AM|PM)/i)`: the leftmost match, as numbers. */
  function FirstClockMatch(e: string): (r: Option<ClockMatch>)
    ensures r.Some? ==> r.value.hour <= 99 && r.value.minute <= 99
  {
    match MatchIndexFrom(e, 0)
    case None => None
    case Some(k) => MatchAt(e, k)
  }

  /**
   * One way `/(\d{1,2})(?::(\d{2}))?\s*(AM|PM)/i` can match at index `i`,
   * read off the pattern: the hour group is `e[i..p]` (one or two digits),
   * the optional `:MM` group is `e[p..q]`, `\s*` takes `e[q..w]`, and `AM`
   * or `PM` in either letter case stands at `w`.
   */
  ghost predicate ClockShapeAt(e: string, i: int, p: int, q: int, w: int) {
    && 0 <= i < p <= i + 2 && p <= q <= w && w + 2 <= |e|
    && AllDigits(e[i..p])
    && (q == p || (q == p + 3 && e[p] == ':' && IsDigit(e[p + 1]) && IsDigit(e[p + 2])))
    && (forall k :: q <= k < w ==> IsJsSpace(e[k]))
    && MeridiemAt(e, w).Some?
  }

  /** The groups of such a match, as numbers; a missing minutes group counts as 0. */
  ghost function ShapeGroups(e: string, i: int, p: int, q: int, w: int): ClockMatch
    requires ClockShapeAt(e, i, p, q, w)
  {
    ClockMatch(DigitsValue(e[i..p]), if q == p + 3 then DigitsValue(e[p + 1..p + 3]) else 0, MeridiemAt(e, w).value)
  }

  /** No match of the expression starts before index `i`. */
  ghost predicate NoShapeBefore(e: string, i: int) {
    forall i2, p, q, w :: i2 < i ==> !ClockShapeAt(e, i2, p, q, w)
  }

  /** Where `\s*(AM|PM)` matches from `q` to `w`, the character at `q` is neither a digit nor a colon. */
  lemma MeridiemTailStart(e: string, q: int, w: int)
    requires 0 <= q <= w && MeridiemAt(e, w).Some?
    requires forall k :: q <= k < w ==> IsJsSpace(e[k])
    ensures q < |e| && !IsDigit(e[q]) && e[q] != ':'
  {
    if q < w {
      assert IsJsSpace(e[q]);
    }
  }

  /** A way the expression matches at `i` is the one `MatchAt` computes: there is no other. */
  lemma ShapeIsGreedy(e: string, i: nat, p: int, q: int, w: int)
    requires ClockShapeAt(e, i, p, q, w)
    ensures MatchAt(e, i) == Some(ShapeGroups(e, i, p, q, w))
  {
    MeridiemTailStart(e, q, w);
    // the hour group cannot stop before a digit, nor the minutes group be skipped before a colon
    assert p < |e| && !IsDigit(e[p]);
    assert p == if i + 1 < |e| && IsDigit(e[i + 1]) then i + 2 else i + 1;
    assert q == if p + 3 <= |e| && e[p] == ':' && IsDigit(e[p + 1]) && IsDigit(e[p + 2]) then p + 3 else p;
    var w' := SkipSpaces(e, q);
    assert !IsJsSpace(e[w]);
  }

  /**
   * `MatchAt` is the regular expression's match at `i`: it succeeds exactly
   * when some way of matching exists, and then yields that way's groups.
   * Since every way yields the same groups, backtracking order does not matter.
   */
  lemma MatchAtIsRegexMatch(e: string, i: nat)
    ensures MatchAt(e, i).Some? <==> exists p, q, w :: ClockShapeAt(e, i, p, q, w)
    ensures forall p, q, w :: ClockShapeAt(e, i, p, q, w) ==> MatchAt(e, i) == Some(ShapeGroups(e, i, p, q, w))
  {
    forall p, q, w | ClockShapeAt(e, i, p, q, w)
      ensures MatchAt(e, i) == Some(ShapeGroups(e, i, p, q, w))
    {
      ShapeIsGreedy(e, i, p, q, w);
    }
    if MatchAt(e, i).Some? {
      var p := if i + 1 < |e| && IsDigit(e[i + 1]) then i + 2 else i + 1;
      var hasMinutes := p + 3 <= |e| && e[p] == ':' && IsDigit(e[p + 1]) && IsDigit(e[p + 2]);
      var q := if hasMinutes then p + 3 else p;
      var w := SkipSpaces(e, q);
      assert ClockShapeAt(e, i, p, q, w);
    }
  }

  /** `end.match(…)` finds nothing exactly when the expression matches nowhere in `e`. */
  lemma NoClockMatchIffNoShape(e: string)
    ensures FirstClockMatch(e).None? <==> forall i, p, q, w :: !ClockShapeAt(e, i, p, q, w)
  {
    var r := MatchIndexFrom(e, 0);
    forall i, p, q, w | ClockShapeAt(e, i, p, q, w)
      ensures r.Some?
    {
      MatchAtIsRegexMatch(e, i);
    }
    if r.Some? {
      MatchAtIsRegexMatch(e, r.value);
    }
  }

  /** `end.match(…)` yields the groups of the match at the first index where the expression matches. */
  lemma ClockMatchIsLeftmost(e: string, i: nat, p: int, q: int, w: int)
    requires ClockShapeAt(e, i, p, q, w) && NoShapeBefore(e, i)
    ensures FirstClockMatch(e) == Some(ShapeGroups(e, i, p, q, w))
  {
    var r := MatchIndexFrom(e, 0);
    MatchAtIsRegexMatch(e, i);
    assert r.Some? && r.value <= i;
    MatchAtIsRegexMatch(e, r.value);
  }

  /**
   * The 24-hour clock hour of a 12-hour reading (`h += 12` for PM except
   * 12 PM, `h = 0` for 12 AM). Hours outside 1..12 pass through the same
   * rules unchanged in kind: "13 PM" is 25.
   */
  function ClockHour(h: int, mer: Meridiem): (r: int)
    ensures 1 <= h <= 12 ==> 0 <= r <= 23
    ensures 1 <= h <= 12 && mer == AM ==> r < 12
    ensures 1 <= h <= 12 && mer == PM ==> r >= 12
  {
    if mer == PM && h != 12 then h + 12
    else if mer == AM && h == 12 then 0
    else h
  }

  /** On hours 1..12 the conversion is a bijection onto 0..23: 12 AM is 0, 12 PM is 12. */
  lemma ClockHourIsBijective()
    ensures forall h, mer :: 1 <= h <= 12 ==> 0 <= ClockHour(h, mer) <= 23
    ensures forall h1, m1, h2, m2 :: 1 <= h1 <= 12 && 1 <= h2 <= 12 && ClockHour(h1, m1) == ClockHour(h2, m2) ==> h1 == h2 && m1 == m2
    ensures forall t :: 0 <= t <= 23 ==> ClockHour(TwelveHour(t).0, TwelveHour(t).1) == t
  {
  }

  /** The 12-hour reading of a 24-hour clock hour. */
  function TwelveHour(t: int): (r: (int, Meridiem))
    requires 0 <= t <= 23
    ensures 1 <= r.0 <= 12
  {
    if t == 0 then (12, AM) else if t < 12 then (t, AM) else if t == 12 then (12, PM) else (t - 12, PM)
  }

  /** 23:59, the end time when no clock time can be read. */
  const DefaultEndOffset: int := 23 * MsPerHour + 59 * MsPerMinute

  /** The end's offset from the day's midnight (`setHours(h, min, 0, 0)`, which carries overflow into later days). */
  function EndOffset(timeRange: string): int {
    OffsetOf(FirstClockMatch(EndPart(timeRange)))
  }

  /** The offset a clock match sets, and 23:59 without one. */
  function OffsetOf(m: Option<ClockMatch>): int {
    match m
    case None => DefaultEndOffset
    case Some(c) => ClockHour(c.hour, c.meridiem) * MsPerHour + c.minute * MsPerMinute
  }

  /** The end instant `parseEndDate` computes; an invalid date yields the current instant. */
  function EndInstant(date: DateInput, timeRange: string, now: int): (end: int)
    ensures date.InvalidDate? ==> end == now
    ensures date.ValidDate? ==> end >= date.midnightMs
  {
    match date
    case InvalidDate => now
    case ValidDate(midnight) => midnight + EndOffset(timeRange)
  }

  /** The hour adjustment of `parseEndDate` and its `setHours(h, min, 0, 0)`, as an offset from midnight. */
  method ClockOffset(c: ClockMatch) returns (offset: int)
    ensures offset == OffsetOf(Some(c))
  {
    var h: int := c.hour;
    var min := c.minute;
    if c.meridiem == PM && h != 12 {
      h := h + 12;
    }
    if c.meridiem == AM && h == 12 {
      h := 0;
    }
    offset := h * MsPerHour + min * MsPerMinute;
  }

  /** `parseEndDate(dateStr, timeRange)`, with the clock read as `now`. */
  method ParseEndDate(date: DateInput, timeRange: string, now: int) returns (end: int)
    ensures end == EndInstant(date, timeRange, now)
  {
    var m := FirstClockMatch(EndPart(timeRange));
    if date.InvalidDate? {
      return now;
    }
    if m.Some? {
      var offset := ClockOffset(m.value);
      end := date.midnightMs + offset;
      return;
    }
    end := date.midnightMs + 23 * MsPerHour + 59 * MsPerMinute;
  }

  /**
   * `isEventDone(event)`: the end instant lies strictly before `Date.now()`.
   * The clock is read twice: `parseNow` is the reading `parseEndDate` takes
   * for an invalid date, `checkNow` the later `Date.now()`.
   */
  predicate IsEventDone(date: DateInput, timeRange: string, parseNow: int, checkNow: int) {
    EndInstant(date, timeRange, parseNow) < checkNow
  }

  /**
   * A readable time of 1..12 o'clock puts the end within the event's own
   * day, and an unreadable one puts it at 23:59 of that day.
   */
  lemma EndOffsetWithinDay(timeRange: string)
    ensures FirstClockMatch(EndPart(timeRange)).None? ==> EndOffset(timeRange) == DefaultEndOffset
    ensures var m := FirstClockMatch(EndPart(timeRange));
            m.Some? && 1 <= m.value.hour <= 12 && m.value.minute <= 59 ==> 0 <= EndOffset(timeRange) < MsPerDay
  {
  }

  /** Once done, an event stays done as the clock moves on. */
  lemma DoneStaysDone(date: DateInput, timeRange: string, parseNow: int, now1: int, now2: int)
    requires now1 <= now2 && IsEventDone(date, timeRange, parseNow, now1)
    ensures IsEventDone(date, timeRange, parseNow, now2)
  {
  }

  /**
   * With a valid date an event is done exactly when now is past its end: at
   * the end instant itself it is still open. The first clock reading plays no part.
   */
  lemma DoneIffPastEnd(date: DateInput, timeRange: string, parseNow: int, now: int)
    requires date.ValidDate?
    ensures IsEventDone(date, timeRange, parseNow, now) <==> date.midnightMs + EndOffset(timeRange) < now
    ensures !IsEventDone(date, timeRange, parseNow, date.midnightMs + EndOffset(timeRange))
  {
  }

  /**
   * An invalid date makes the end the first clock reading, so such an event
   * is done exactly when the clock has advanced by the second reading, and
   * open when both readings fall in the same millisecond.
   */
  lemma InvalidDateDoneIffClockAdvanced(timeRange: string, parseNow: int, checkNow: int)
    ensures IsEventDone(InvalidDate, timeRange, parseNow, checkNow) <==> parseNow < checkNow
    ensures !IsEventDone(InvalidDate, timeRange, checkNow, checkNow)
  {
  }

  // Steps of SampleEventClosesAtThree, kept apart so that each proof stays small.

  /** The first sample event's time range is two separator-free fields around an en dash. */
  lemma SampleRangeShape()
    ensures "9:00 AM \U{2013} 3:00 PM" == "9:00 AM " + ['\U{2013}'] + " 3:00 PM"
    ensures NoneIn("9:00 AM ", RangeSeparators) && NoneIn(" 3:00 PM", RangeSeparators)
  {
  }

  lemma SampleEndField()
    ensures EndPart("9:00 AM " + ['\U{2013}'] + " 3:00 PM") == Trim(Split(" 3:00 PM", RangeSeparators)[0])
  {
    SampleRangeShape();
    EndPartFields("9:00 AM ", '\U{2013}', " 3:00 PM");
  }

  /** The end part of the first sample event's time range. */
  lemma SampleEndPart()
    ensures EndPart("9:00 AM \U{2013} 3:00 PM") == "3:00 PM"
  {
    SampleRangeShape();
    SampleEndField();
    SplitNoSeparator(" 3:00 PM", RangeSeparators);
    SampleTrim();
  }

  lemma SampleTrim()
    ensures Trim(" 3:00 PM") == "3:00 PM"
  {
    var s := "3:00 PM";
    assert !IsJsSpace(s[0]) && !IsJsSpace(s[|s| - 1]);
    assert TrimStart(s) == s;
    assert TrimEnd(s) == s;
    assert (" " + s)[1..] == s;
    assert TrimStart(" " + s) == s;
  }

  /** "3:00 PM" reads as 3 o'clock, no minutes, PM. */
  lemma SampleClockMatch()
    ensures FirstClockMatch("3:00 PM") == Some(ClockMatch(3, 0, PM))
  {
    var e := "3:00 PM";
    assert e[2..4] == "00" && e[0..1] == "3";
    assert DigitsValue("00") == 0 && DigitsValue("3") == 3;
    assert SkipSpaces(e, 4) == 5;
    assert MatchAt(e, 0) == Some(ClockMatch(3, 0, PM));
  }

  /**
   * The first sample event, "9:00 AM – 3:00 PM": it ends at 15:00 of its day;
   * at 14:59 and at 15:00 exactly it is open, one millisecond later it is done.
   */
  lemma SampleEventClosesAtThree(midnight: int)
    ensures EndOffset("9:00 AM \U{2013} 3:00 PM") == 15 * MsPerHour
    ensures !IsEventDone(ValidDate(midnight), "9:00 AM \U{2013} 3:00 PM", midnight, midnight + 14 * MsPerHour + 59 * MsPerMinute)
    ensures !IsEventDone(ValidDate(midnight), "9:00 AM \U{2013} 3:00 PM", midnight, midnight + 15 * MsPerHour)
    ensures IsEventDone(ValidDate(midnight), "9:00 AM \U{2013} 3:00 PM", midnight, midnight + 15 * MsPerHour + 1)
  {
    SampleEndPart();
    SampleClockMatch();
  }
}
