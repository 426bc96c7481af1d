/** A room's weekly opening hours projected onto a search window
    (src/features/availability/server.ts: `parseRoomOpenHours`, `isWeekdayKey`,
    `parseTimeToMinutes`, `getLocalDayStartUtc`, `getWeekdayKey`, `buildRoomOpenIntervals`).
    Calendar days are computed with integer arithmetic on epoch milliseconds shifted by the
    UTC offset, which is what the source's `Date` calls amount to. */
module OpenHours {
  import opened Wrappers
  import opened Strings
  import opened Intervals
  import opened Grouping

  /** The JSON value stored in `rooms.open_hours`. Object fields are a map: a parsed JSON
      object has one value per key. */
  datatype Json =
    | JNull
    | JBool(b: bool)
    | JNumber(n: int)
    | JString(s: string)
    | JArray(items: seq<Json>)
    | JObject(fields: map<string, Json>)

  /** One opening period of a day, as written: `{ "start": "HH:MM", "end": "HH:MM" }`. */
  datatype Segment = Segment(start: string, end: string)

  /** Weekday key -> that day's segments. */
  type RoomOpenHours = map<string, seq<Segment>>

  const WeekdayKeys: seq<string> := ["sun", "mon", "tue", "wed", "thu", "fri", "sat"]

  predicate IsWeekdayKey(value: string) {
    value in WeekdayKeys
  }

  /** A segment object with string `start` and `end`; anything else is dropped. */
  function SegmentOf(j: Json): Option<Segment> {
    if j.JObject? && "start" in j.fields && "end" in j.fields
       && j.fields["start"].JString? && j.fields["end"].JString?
    then Some(Segment(j.fields["start"].s, j.fields["end"].s))
    else None
  }

  /** `data` is an object whose field `day` is a weekday key holding an array. */
  predicate DayArray(data: Json, day: string) {
    data.JObject? && day in data.fields && IsWeekdayKey(day) && data.fields[day].JArray?
  }

  /** `parseRoomOpenHours`: a non-object (or an array, whose keys are indices) gives no hours;
      otherwise each weekday key holding an array keeps its well-formed segments, and a day is
      kept only when at least one segment survives. */
  function ParseRoomOpenHours(data: Json): (hours: RoomOpenHours)
    ensures forall k :: k in hours ==> IsWeekdayKey(k) && hours[k] != []
    ensures forall k :: k in hours <==>
      DayArray(data, k) && exists j :: j in data.fields[k].items && SegmentOf(j).Some?
  {
    if !data.JObject? then map[]
    else
      DaysKeptIff(data);
      map k | k in data.fields && IsWeekdayKey(k) && data.fields[k].JArray? && Pick(data.fields[k].items, SegmentOf) != []
        :: Pick(data.fields[k].items, SegmentOf)
  }

  /** A day's array yields segments exactly when it holds a well-formed one. */
  lemma DaysKeptIff(data: Json)
    ensures forall k :: DayArray(data, k) ==>
      (Pick(data.fields[k].items, SegmentOf) != [] <==> exists j :: j in data.fields[k].items && SegmentOf(j).Some?)
  {
    forall k | DayArray(data, k)
      ensures Pick(data.fields[k].items, SegmentOf) != [] <==> exists j :: j in data.fields[k].items && SegmentOf(j).Some?
    {
      var items := data.fields[k].items;
      if exists j :: j in items && SegmentOf(j).Some? {
        var j :| j in items && SegmentOf(j).Some?;
        PickMembers(items, SegmentOf, SegmentOf(j).value);
      }
      if Pick(items, SegmentOf) != [] {
        PickMembers(items, SegmentOf, Pick(items, SegmentOf)[0]);
      }
    }
  }

  /** A day holds exactly the well-formed segments of that day's array, in array order
      (`Pick` keeps the order of its input), and nothing for any other key. */
  lemma ParsedDaySegments(data: Json, day: string)
    ensures Lookup(ParseRoomOpenHours(data), day)
      == if DayArray(data, day) then Pick(data.fields[day].items, SegmentOf) else []
  {
  }

  /** A segment is kept for a day exactly when a well-formed element of that day's array
      reads as it. */
  lemma ParsedSegmentsComeFromInput(data: Json, day: string, seg: Segment)
    ensures seg in Lookup(ParseRoomOpenHours(data), day) <==>
      DayArray(data, day) && exists j :: j in data.fields[day].items && SegmentOf(j) == Some(seg)
  {
    ParsedDaySegments(data, day);
    if DayArray(data, day) {
      PickMembers(data.fields[day].items, SegmentOf, seg);
    }
  }

  /** Order is kept: splitting a day's array at any index splits the day's segments there,
      so the segments of earlier elements come first. */
  lemma ParsedSegmentsInOrder(data: Json, day: string, i: int)
    requires DayArray(data, day) && 0 <= i <= |data.fields[day].items|
    ensures Lookup(ParseRoomOpenHours(data), day)
      == Pick(data.fields[day].items[..i], SegmentOf) + Pick(data.fields[day].items[i..], SegmentOf)
  {
    var items := data.fields[day].items;
    ParsedDaySegments(data, day);
    PickAppend(items[..i], items[i..], SegmentOf);
    assert items[..i] + items[i..] == items;
  }

  /** The shape `^(\d{2}):(\d{2})$` accepts: two ASCII digits, a colon, two ASCII digits. */
  predicate IsClockText(value: string) {
    |value| == 5 && IsDigit(value[0]) && IsDigit(value[1]) && value[2] == ':' && IsDigit(value[3]) && IsDigit(value[4])
  }

  /** `parseTimeToMinutes`: `HH:MM` gives `HH * 60 + MM`, with no range check on the digits;
      anything else gives 0. */
  function ParseTimeToMinutes(value: string): (minutes: int)
    ensures 0 <= minutes <= 99 * 60 + 99
    ensures !IsClockText(value) ==> minutes == 0
  {
    if IsClockText(value)
    then (DigitValue(value[0]) * 10 + DigitValue(value[1])) * 60 + DigitValue(value[3]) * 10 + DigitValue(value[4])
    else 0
  }

  /** On `HH:MM` text the result is the two decimal numbers `Number.parseInt` reads, as
      hours * 60 + minutes. */
  lemma ParseTimeDecimal(value: string)
    requires IsClockText(value)
    ensures AllDigits(value[..2]) && AllDigits(value[3..])
    ensures ParseTimeToMinutes(value) == DigitsValue(value[..2]) * 60 + DigitsValue(value[3..])
  {
    TwoDigits(value[..2]);
    TwoDigits(value[3..]);
  }

  /** The `HH:MM` text of a time of day. */
  function FormatTime(hours: nat, minutes: nat): string
    requires hours < 100 && minutes < 100
  {
    Pad2(hours) + ":" + Pad2(minutes)
  }

  lemma TwoDigits(s: string)
    requires |s| == 2 && AllDigits(s)
    ensures IsDigit(s[0]) && IsDigit(s[1]) && DigitsValue(s) == DigitValue(s[0]) * 10 + DigitValue(s[1])
  {
    assert s[..1] == [s[0]];
    assert s[..1][..0] == [];
    assert DigitsValue(s[..1]) == DigitValue(s[0]);
  }

  lemma ParseTimeRoundTrip(hours: nat, minutes: nat)
    requires hours < 100 && minutes < 100
    ensures ParseTimeToMinutes(FormatTime(hours, minutes)) == hours * 60 + minutes
  {
    var h, m := Pad2(hours), Pad2(minutes);
    TwoDigits(h);
    TwoDigits(m);
    var t := FormatTime(hours, minutes);
    assert t[0] == h[0] && t[1] == h[1] && t[2] == ':' && t[3] == m[0] && t[4] == m[1];
  }

  const DayMs: int := 24 * 60 * 60000

  /** `getLocalDayStartUtc`: the UTC instant of local midnight of the local day that holds
      `epochMs`. */
  function LocalDayStartUtc(epochMs: int, offsetMinutes: int): (dayStart: int)
    ensures dayStart <= epochMs < dayStart + DayMs
    ensures (dayStart + offsetMinutes * 60000) % DayMs == 0
  {
    var offsetMs := offsetMinutes * 60000;
    (epochMs + offsetMs) / DayMs * DayMs - offsetMs
  }

  /** `getWeekdayKey`: 0 = Sunday; the epoch (1970-01-01) was a Thursday. */
  function WeekdayIndex(epochMs: int, offsetMinutes: int): (i: int)
    ensures 0 <= i < 7
  {
    ((epochMs + offsetMinutes * 60000) / DayMs + 4) % 7
  }

  function WeekdayKey(epochMs: int, offsetMinutes: int): string {
    WeekdayKeys[WeekdayIndex(epochMs, offsetMinutes)]
  }

  /** Consecutive local days have consecutive weekdays. */
  lemma NextDayNextWeekday(epochMs: int, offsetMinutes: int)
    ensures WeekdayIndex(epochMs + DayMs, offsetMinutes) == (WeekdayIndex(epochMs, offsetMinutes) + 1) % 7
  {
    var local := epochMs + offsetMinutes * 60000;
    assert (local + DayMs) / DayMs == local / DayMs + 1;
  }

  /** The part of one segment of the local day starting at `dayStart` inside the window;
      `None` for a segment whose end is not after its start, or that misses the window. */
  function SegmentInterval(dayStart: int, rangeStart: int, rangeEnd: int): Segment -> Option<Interval> {
    (seg: Segment) =>
      var startMinutes := ParseTimeToMinutes(seg.start);
      var endMinutes := ParseTimeToMinutes(seg.end);
      var start := Max(dayStart + startMinutes * 60000, rangeStart);
      var end := Min(dayStart + endMinutes * 60000, rangeEnd);
      if endMinutes <= startMinutes || start >= end then None else Some(Interval(start, end))
  }

  /** The intervals one local day contributes. */
  function DayIntervals(hours: RoomOpenHours, dayStart: int, offsetMinutes: int, rangeStart: int, rangeEnd: int): seq<Interval> {
    Pick(Lookup(hours, WeekdayKey(dayStart, offsetMinutes)), SegmentInterval(dayStart, rangeStart, rangeEnd))
  }

  /** The intervals of the days from `dayStart` on, while the day starts before the window
      ends. */
  function OpenIntervalsFrom(hours: RoomOpenHours, dayStart: int, offsetMinutes: int, rangeStart: int, rangeEnd: int): seq<Interval>
    decreases rangeEnd - dayStart
  {
    if dayStart >= rangeEnd then []
    else
      DayIntervals(hours, dayStart, offsetMinutes, rangeStart, rangeEnd)
        + OpenIntervalsFrom(hours, dayStart + DayMs, offsetMinutes, rangeStart, rangeEnd)
  }

  /** What `buildRoomOpenIntervals` returns: the day-by-day intervals, or, when there are none,
      nothing if some hours are configured and the whole window if none are. */
  function RoomOpenIntervalsOf(hours: RoomOpenHours, rangeStart: int, rangeEnd: int, offsetMinutes: int): seq<Interval> {
    var found := OpenIntervalsFrom(hours, LocalDayStartUtc(rangeStart, offsetMinutes), offsetMinutes, rangeStart, rangeEnd);
    if found != [] then found
    else if hours != map[] then []
    else [Interval(rangeStart, rangeEnd)]
  }

  /** The body of the day loop of `buildRoomOpenIntervals`: the segments of the day's weekday,
      each clipped to the window, skipping inverted and empty ones. */
  method DayOpenIntervals(hours: RoomOpenHours, dayStart: int, offsetMinutes: int, rangeStart: int, rangeEnd: int)
    returns (day: seq<Interval>)
    ensures day == DayIntervals(hours, dayStart, offsetMinutes, rangeStart, rangeEnd)
  {
    var segments := Lookup(hours, WeekdayKey(dayStart, offsetMinutes));
    day := [];
    for j := 0 to |segments|
      invariant day == Pick(segments[..j], SegmentInterval(dayStart, rangeStart, rangeEnd))
    {
      PickStep(segments, j, SegmentInterval(dayStart, rangeStart, rangeEnd));
      var segment := segments[j];
      var startMinutes := ParseTimeToMinutes(segment.start);
      var endMinutes := ParseTimeToMinutes(segment.end);
      if endMinutes <= startMinutes {
        continue;
      }
      var start := Max(dayStart + startMinutes * 60000, rangeStart);
      var end := Min(dayStart + endMinutes * 60000, rangeEnd);
      if start < end {
        day := day + [Interval(start, end)];
      }
    }
    assert segments[..|segments|] == segments;
  }

  lemma OpenIntervalsStep(hours: RoomOpenHours, dayStart: int, offsetMinutes: int, rangeStart: int, rangeEnd: int,
                          done: seq<Interval>, day: seq<Interval>)
    requires dayStart < rangeEnd
    requires day == DayIntervals(hours, dayStart, offsetMinutes, rangeStart, rangeEnd)
    ensures done + OpenIntervalsFrom(hours, dayStart, offsetMinutes, rangeStart, rangeEnd)
      == (done + day) + OpenIntervalsFrom(hours, dayStart + DayMs, offsetMinutes, rangeStart, rangeEnd)
  {
    var rest := OpenIntervalsFrom(hours, dayStart + DayMs, offsetMinutes, rangeStart, rangeEnd);
    assert done + (day + rest) == (done + day) + rest;
  }

  /** `buildRoomOpenIntervals`. */
  method BuildRoomOpenIntervals(hours: RoomOpenHours, rangeStart: int, rangeEnd: int, offsetMinutes: int)
    returns (intervals: seq<Interval>)
    ensures intervals == RoomOpenIntervalsOf(hours, rangeStart, rangeEnd, offsetMinutes)
  {
    var first := LocalDayStartUtc(rangeStart, offsetMinutes);
    var dayStart := first;
    intervals := [];
    while dayStart < rangeEnd
      invariant intervals + OpenIntervalsFrom(hours, dayStart, offsetMinutes, rangeStart, rangeEnd)
        == OpenIntervalsFrom(hours, first, offsetMinutes, rangeStart, rangeEnd)
      decreases rangeEnd - dayStart
    {
      var day := DayOpenIntervals(hours, dayStart, offsetMinutes, rangeStart, rangeEnd);
      OpenIntervalsStep(hours, dayStart, offsetMinutes, rangeStart, rangeEnd, intervals, day);
      intervals := intervals + day;
      dayStart := dayStart + DayMs;
    }
    assert intervals == OpenIntervalsFrom(hours, first, offsetMinutes, rangeStart, rangeEnd) by {
      assert OpenIntervalsFrom(hours, dayStart, offsetMinutes, rangeStart, rangeEnd) == [];
    }
    if intervals == [] {
      intervals := if hours != map[] then [] else [Interval(rangeStart, rangeEnd)];
    }
  }

  lemma DayIntervalsInWindow(hours: RoomOpenHours, dayStart: int, offsetMinutes: int, rangeStart: int, rangeEnd: int, iv: Interval)
    requires iv in DayIntervals(hours, dayStart, offsetMinutes, rangeStart, rangeEnd)
    ensures NonEmpty(iv) && Within(iv, Interval(rangeStart, rangeEnd))
  {
    var f := SegmentInterval(dayStart, rangeStart, rangeEnd);
    PickMembers(Lookup(hours, WeekdayKey(dayStart, offsetMinutes)), f, iv);
  }

  lemma {:induction false} OpenIntervalsInWindow(hours: RoomOpenHours, dayStart: int, offsetMinutes: int, rangeStart: int, rangeEnd: int, iv: Interval)
    requires iv in OpenIntervalsFrom(hours, dayStart, offsetMinutes, rangeStart, rangeEnd)
    ensures NonEmpty(iv) && Within(iv, Interval(rangeStart, rangeEnd))
    decreases rangeEnd - dayStart
  {
    if iv in DayIntervals(hours, dayStart, offsetMinutes, rangeStart, rangeEnd) {
      DayIntervalsInWindow(hours, dayStart, offsetMinutes, rangeStart, rangeEnd, iv);
    } else {
      OpenIntervalsInWindow(hours, dayStart + DayMs, offsetMinutes, rangeStart, rangeEnd, iv);
    }
  }

  /** Every open interval is non-empty and inside the search window (for a non-empty window). */
  lemma RoomOpenIntervalsInWindow(hours: RoomOpenHours, rangeStart: int, rangeEnd: int, offsetMinutes: int, iv: Interval)
    requires rangeStart < rangeEnd
    requires iv in RoomOpenIntervalsOf(hours, rangeStart, rangeEnd, offsetMinutes)
    ensures NonEmpty(iv) && Within(iv, Interval(rangeStart, rangeEnd))
  {
    var first := LocalDayStartUtc(rangeStart, offsetMinutes);
    if iv in OpenIntervalsFrom(hours, first, offsetMinutes, rangeStart, rangeEnd) {
      OpenIntervalsInWindow(hours, first, offsetMinutes, rangeStart, rangeEnd, iv);
    }
  }

  lemma {:induction false} NoHoursNoIntervals(dayStart: int, offsetMinutes: int, rangeStart: int, rangeEnd: int)
    ensures OpenIntervalsFrom(map[], dayStart, offsetMinutes, rangeStart, rangeEnd) == []
    decreases rangeEnd - dayStart
  {
    if dayStart < rangeEnd {
      NoHoursNoIntervals(dayStart + DayMs, offsetMinutes, rangeStart, rangeEnd);
    }
  }

  /** A room with no opening hours configured is open for the whole window. */
  lemma NoHoursWholeWindow(rangeStart: int, rangeEnd: int, offsetMinutes: int)
    ensures RoomOpenIntervalsOf(map[], rangeStart, rangeEnd, offsetMinutes) == [Interval(rangeStart, rangeEnd)]
  {
    NoHoursNoIntervals(LocalDayStartUtc(rangeStart, offsetMinutes), offsetMinutes, rangeStart, rangeEnd);
  }
}
