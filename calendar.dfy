/** Calendar exceptions: periods in which reservations are closed for the whole tenant, a
    room, an equipment SKU or a staff member (src/features/reservations/calendar.ts). Raw
    records carry a PostgreSQL `tstzrange` literal; the context groups the parsed intervals by
    scope and target, each list sorted by start, and `FindClosedScope` reports the first
    exception that blocks a requested interval, in a fixed priority order. */
module Calendar {
  import opened Wrappers
  import opened Strings
  import opened Intervals
  import opened Grouping

  datatype Scope = Tenant | Room | Equipment | Staff

  /** One exception row. `range` is a range literal such as `[a,b)`; the endpoints are written
      as decimal epoch milliseconds in this model (see `ParseEndpoint`). */
  datatype CalendarExceptionRecord = CalendarExceptionRecord(scope: Scope, targetId: Option<string>, range: string)

  /** `!record.target_id` is false: a target id that is present and not the empty string. */
  predicate HasTarget(r: CalendarExceptionRecord) {
    r.targetId.Some? && r.targetId.value != ""
  }

  datatype CalendarContext = CalendarContext(
    tenantExceptions: seq<Interval>,
    roomExceptionsById: map<string, seq<Interval>>,
    equipmentExceptionsById: map<string, seq<Interval>>,
    equipmentGlobalExceptions: seq<Interval>,
    staffExceptionsById: map<string, seq<Interval>>,
    staffGlobalExceptions: seq<Interval>)

  datatype ClosedScopeReason = ClosedScopeReason(scope: Scope, targetId: Option<string>, interval: Interval)

  // ---------------------------------------------------------------------------------------
  // Range literals

  /** Index of the first occurrence of `c` in `s`, or -1. */
  function IndexOf(s: string, c: char): (k: int)
    ensures -1 <= k < |s|
    ensures k == -1 ==> forall i :: 0 <= i < |s| ==> s[i] != c
    ensures k >= 0 ==> s[k] == c && forall i :: 0 <= i < k ==> s[i] != c
  {
    if s == [] then -1
    else if s[0] == c then 0
    else var k := IndexOf(s[1..], c); if k == -1 then -1 else k + 1
  }

  predicate Lacks(s: string, c: char) {
    forall i :: 0 <= i < |s| ==> s[i] != c
  }

  /** A range endpoint. The instants stored in the database are written here as decimal epoch
      milliseconds; a text that is not one plays the part of `Date.parse` returning NaN. */
  function ParseEndpoint(s: string): Option<int> {
    ParseInt(s)
  }

  /** The shape accepted by `^([\[(])([^,]*),([^,\)]*)([)\]])$`: an opening bracket, a lower
      part without commas, one comma, an upper part without commas or `)`, a closing bracket.
      Returns the two parts. */
  function SplitRange(s: string): (r: Option<(string, string)>)
    ensures r.Some? ==> |s| >= 3 && (s[0] == '[' || s[0] == '(') && (s[|s| - 1] == ')' || s[|s| - 1] == ']')
    ensures r.Some? ==> s == [s[0]] + r.value.0 + "," + r.value.1 + [s[|s| - 1]]
    ensures r.Some? ==> Lacks(r.value.0, ',') && Lacks(r.value.1, ',') && Lacks(r.value.1, ')')
  {
    if |s| < 3 || !(s[0] == '[' || s[0] == '(') || !(s[|s| - 1] == ')' || s[|s| - 1] == ']') then None
    else
      var body := s[1..|s| - 1];
      var k := IndexOf(body, ',');
      if k < 0 then None
      else
        var lower := body[..k];
        var upper := body[k + 1..];
        if !Lacks(upper, ',') || !Lacks(upper, ')') then None
        else
          assert body == lower + "," + upper;
          assert s == [s[0]] + body + [s[|s| - 1]];
          Some((lower, upper))
  }

  /** `parsePgRange`: the half-open interval a range literal denotes, or None when the text is
      empty, malformed, has an empty or unparseable endpoint, or denotes no instant. An
      exclusive lower bound moves the start one millisecond later and an inclusive upper bound
      moves the end one millisecond later. */
  function ParsePgRange(range: string): (r: Option<Interval>)
    ensures r.Some? ==> NonEmpty(r.value)
    ensures range == [] ==> r.None?
  {
    if range == [] then None
    else match SplitRange(range)
      case None => None
      case Some(parts) =>
        var lowerText := Trim(parts.0);
        var upperText := Trim(parts.1);
        if lowerText == [] || upperText == [] then None
        else match (ParseEndpoint(lowerText), ParseEndpoint(upperText))
          case (Some(lo), Some(hi)) =>
            var start := if range[0] == '[' then lo else lo + 1;
            var end := if range[|range| - 1] == ']' then hi + 1 else hi;
            if start >= end then None else Some(Interval(start, end))
          case _ => None
  }

  /** The literal `[a,b)`, `(a,b]` etc. with the given bound kinds. */
  function RangeLiteral(lowerInclusive: bool, lo: int, hi: int, upperInclusive: bool): string {
    (if lowerInclusive then "[" else "(") + IntToString(lo) + "," + IntToString(hi)
    + (if upperInclusive then "]" else ")")
  }

  /** Every literal is read back as the interval its bounds denote, and rejected exactly when
      that interval is empty. */
  lemma RangeLiteralRoundTrip(lowerInclusive: bool, lo: int, hi: int, upperInclusive: bool)
    ensures var start := if lowerInclusive then lo else lo + 1;
            var end := if upperInclusive then hi + 1 else hi;
            ParsePgRange(RangeLiteral(lowerInclusive, lo, hi, upperInclusive))
            == if start < end then Some(Interval(start, end)) else None
  {
    var open := if lowerInclusive then '[' else '(';
    var close := if upperInclusive then ']' else ')';
    LiteralLayout(lowerInclusive, lo, hi, upperInclusive);
    EndpointText(lo);
    EndpointText(hi);
    ParseLiteral(RangeLiteral(lowerInclusive, lo, hi, upperInclusive), open, IntToString(lo), lo, IntToString(hi), hi, close);
  }

  lemma LiteralLayout(lowerInclusive: bool, lo: int, hi: int, upperInclusive: bool)
    ensures RangeLiteral(lowerInclusive, lo, hi, upperInclusive)
      == [if lowerInclusive then '[' else '('] + IntToString(lo) + "," + IntToString(hi) + [if upperInclusive then ']' else ')']
  {
  }

  /** A printed endpoint is non-empty, has no white space and no delimiter, and parses back
      to its value. */
  lemma EndpointText(i: int)
    ensures var t := IntToString(i);
      && t != [] && NoWhitespace(t) && Lacks(t, ',') && Lacks(t, ')') && ParseEndpoint(t) == Some(i)
  {
    IntToStringChars(i);
    NumeralText(IntToString(i));
    IntToStringRoundTrip(i);
  }

  lemma NumeralText(t: string)
    requires forall k :: 0 <= k < |t| ==> t[k] == '-' || IsDigit(t[k])
    ensures Lacks(t, ',') && Lacks(t, ')') && NoWhitespace(t)
  {
  }

  lemma ParseLiteral(s: string, open: char, lower: string, lo: int, upper: string, hi: int, close: char)
    requires s == [open] + lower + "," + upper + [close]
    requires open == '[' || open == '('
    requires close == ']' || close == ')'
    requires Lacks(lower, ',') && Lacks(upper, ',') && Lacks(upper, ')')
    requires lower != [] && upper != [] && NoWhitespace(lower) && NoWhitespace(upper)
    requires ParseEndpoint(lower) == Some(lo) && ParseEndpoint(upper) == Some(hi)
    ensures var start := if open == '[' then lo else lo + 1;
            var end := if close == ']' then hi + 1 else hi;
            ParsePgRange(s) == if start < end then Some(Interval(start, end)) else None
  {
    SplitLiteral(open, lower, upper, close);
    TrimIdentity(lower);
    TrimIdentity(upper);
    assert s[0] == open && s[|s| - 1] == close;
  }

  lemma SplitLiteral(open: char, lower: string, upper: string, close: char)
    requires open == '[' || open == '('
    requires close == ']' || close == ')'
    requires Lacks(lower, ',') && Lacks(upper, ',') && Lacks(upper, ')')
    ensures SplitRange([open] + lower + "," + upper + [close]) == Some((lower, upper))
  {
    var s := [open] + lower + "," + upper + [close];
    var body := s[1..|s| - 1];
    assert body == lower + "," + upper;
    assert IndexOf(body, ',') == |lower| by {
      assert body[|lower|] == ',';
      assert forall i :: 0 <= i < |lower| ==> body[i] == lower[i];
    }
    assert body[..|lower|] == lower && body[|lower| + 1..] == upper;
  }

  // ---------------------------------------------------------------------------------------
  // Building the context

  /** Which records a list of the context is built from. */
  datatype Selector =
    | AnyTarget(scope: Scope)        // records.filter(r => r.scope === scope)
    | NoTarget(scope: Scope)         // records.filter(r => r.scope === scope && !r.target_id)
    | ForTarget(scope: Scope, id: string)

  predicate Selects(sel: Selector, r: CalendarExceptionRecord) {
    match sel
    case AnyTarget(scope) => r.scope == scope
    case NoTarget(scope) => r.scope == scope && !HasTarget(r)
    case ForTarget(scope, id) => r.scope == scope && HasTarget(r) && r.targetId.value == id
  }

  function FilterRecords(rs: seq<CalendarExceptionRecord>, sel: Selector): (r: seq<CalendarExceptionRecord>)
    ensures forall x :: x in r <==> x in rs && Selects(sel, x)
  {
    if rs == [] then []
    else
      var init := FilterRecords(rs[..|rs| - 1], sel);
      assert rs == rs[..|rs| - 1] + [rs[|rs| - 1]];
      if Selects(sel, rs[|rs| - 1]) then init + [rs[|rs| - 1]] else init
  }

  /** A parser of range literals. The grouping below depends on the parser only through its
      results, so its laws are stated for any parser and used with `ParsePgRange`. */
  type RangeParser = string -> Option<Interval>

  /** A record's parsed range, if it parses. */
  function RangeOf(parse: RangeParser): CalendarExceptionRecord -> Option<Interval> {
    (r: CalendarExceptionRecord) => parse(r.range)
  }

  /** The intervals selected by `sel`, in record order. */
  function Selected(rs: seq<CalendarExceptionRecord>, sel: Selector, parse: RangeParser): seq<Interval> {
    Pick(FilterRecords(rs, sel), RangeOf(parse))
  }

  lemma SelectedMembers(rs: seq<CalendarExceptionRecord>, sel: Selector, parse: RangeParser, iv: Interval)
    ensures iv in Selected(rs, sel, parse) <==> exists r :: r in rs && Selects(sel, r) && parse(r.range) == Some(iv)
  {
    PickMembers(FilterRecords(rs, sel), RangeOf(parse), iv);
  }

  /** How `groupIntervalsByTarget` files a record of `scope`: under its target id, when it has
      one and its range parses. */
  function TargetEntry(scope: Scope, parse: RangeParser): CalendarExceptionRecord -> Option<(string, Interval)> {
    (r: CalendarExceptionRecord) => if r.scope == scope && HasTarget(r) && parse(r.range).Some? then Some((r.targetId.value, parse(r.range).value)) else None
  }

  lemma TargetEntryIff(scope: Scope, parse: RangeParser, r: CalendarExceptionRecord, id: string, iv: Interval)
    ensures TargetEntry(scope, parse)(r) == Some((id, iv)) <==>
      r.scope == scope && r.targetId == Some(id) && id != "" && parse(r.range) == Some(iv)
  {
  }

  function GroupedIntervals(rs: seq<CalendarExceptionRecord>, scope: Scope, parse: RangeParser): map<string, seq<Interval>> {
    SortGroups(GroupBy(rs, TargetEntry(scope, parse)))
  }

  /** The context `buildCalendarContext` derives from a list of records. */
  function CalendarContextOf(rs: seq<CalendarExceptionRecord>): CalendarContext {
    CalendarContext(
      SortByStart(Selected(rs, AnyTarget(Tenant), ParsePgRange)),
      GroupedIntervals(rs, Room, ParsePgRange),
      GroupedIntervals(rs, Equipment, ParsePgRange),
      SortByStart(Selected(rs, NoTarget(Equipment), ParsePgRange)),
      GroupedIntervals(rs, Staff, ParsePgRange),
      SortByStart(Selected(rs, NoTarget(Staff), ParsePgRange)))
  }

  /** `intervalsFromRecords`: the parsed intervals of `records`, sorted by start. */
  method IntervalsFromRecords(records: seq<CalendarExceptionRecord>) returns (intervals: seq<Interval>)
    ensures intervals == SortByStart(Pick(records, RangeOf(ParsePgRange)))
  {
    intervals := [];
    for i := 0 to |records|
      invariant intervals == Pick(records[..i], RangeOf(ParsePgRange))
    {
      PickStep(records, i, RangeOf(ParsePgRange));
      var parsed := ParsePgRange(records[i].range);
      if parsed.Some? {
        intervals := intervals + [parsed.value];
      }
    }
    assert records[..|records|] == records;
    intervals := SortByStart(intervals);
  }

  /** `groupIntervalsByTarget`: the intervals of the records of `scope` with a target id,
      grouped by that id, each group sorted by start. */
  method GroupIntervalsByTarget(records: seq<CalendarExceptionRecord>, scope: Scope)
    returns (groups: map<string, seq<Interval>>)
    ensures groups == GroupedIntervals(records, scope, ParsePgRange)
  {
    groups := map[];
    for i := 0 to |records|
      invariant groups == GroupBy(records[..i], TargetEntry(scope, ParsePgRange))
    {
      GroupByStep(records, i, TargetEntry(scope, ParsePgRange));
      var r := records[i];
      if r.scope != scope || !HasTarget(r) {
        continue;
      }
      var parsed := ParsePgRange(r.range);
      if parsed.None? {
        continue;
      }
      var list := Lookup(groups, r.targetId.value);
      groups := groups[r.targetId.value := list + [parsed.value]];
    }
    assert records[..|records|] == records;
    groups := map id | id in groups :: SortByStart(groups[id]);
  }

  /** `buildCalendarContext`. */
  method BuildCalendarContext(records: seq<CalendarExceptionRecord>) returns (ctx: CalendarContext)
    ensures ctx == CalendarContextOf(records)
  {
    var tenant := IntervalsFromRecords(FilterRecords(records, AnyTarget(Tenant)));
    var rooms := GroupIntervalsByTarget(records, Room);
    var equipment := GroupIntervalsByTarget(records, Equipment);
    var staff := GroupIntervalsByTarget(records, Staff);
    var equipmentGlobal := IntervalsFromRecords(FilterRecords(records, NoTarget(Equipment)));
    var staffGlobal := IntervalsFromRecords(FilterRecords(records, NoTarget(Staff)));
    ctx := CalendarContext(tenant, rooms, equipment, equipmentGlobal, staff, staffGlobal);
  }

  /** Where each parsed exception lands in the context: every tenant-scope record (with or
      without a target) in the tenant list, target-less equipment and staff records in the
      global lists, and records with a target under that id. Records whose range does not
      parse are dropped. */
  lemma CalendarContextPlacement(rs: seq<CalendarExceptionRecord>, id: string, iv: Interval)
    ensures var ctx := CalendarContextOf(rs);
      && (iv in ctx.tenantExceptions <==> exists r :: r in rs && r.scope == Tenant && ParsePgRange(r.range) == Some(iv))
      && (iv in ctx.equipmentGlobalExceptions <==>
            exists r :: r in rs && r.scope == Equipment && !HasTarget(r) && ParsePgRange(r.range) == Some(iv))
      && (iv in ctx.staffGlobalExceptions <==>
            exists r :: r in rs && r.scope == Staff && !HasTarget(r) && ParsePgRange(r.range) == Some(iv))
      && (iv in Lookup(ctx.roomExceptionsById, id) <==>
            exists r :: r in rs && r.scope == Room && r.targetId == Some(id) && id != "" && ParsePgRange(r.range) == Some(iv))
      && (iv in Lookup(ctx.equipmentExceptionsById, id) <==>
            exists r :: r in rs && r.scope == Equipment && r.targetId == Some(id) && id != "" && ParsePgRange(r.range) == Some(iv))
      && (iv in Lookup(ctx.staffExceptionsById, id) <==>
            exists r :: r in rs && r.scope == Staff && r.targetId == Some(id) && id != "" && ParsePgRange(r.range) == Some(iv))
  {
    var ctx := CalendarContextOf(rs);
    SelectedMembers(rs, AnyTarget(Tenant), ParsePgRange, iv);
    SortedMembers(Selected(rs, AnyTarget(Tenant), ParsePgRange), iv);
    SelectedMembers(rs, NoTarget(Equipment), ParsePgRange, iv);
    SortedMembers(Selected(rs, NoTarget(Equipment), ParsePgRange), iv);
    SelectedMembers(rs, NoTarget(Staff), ParsePgRange, iv);
    SortedMembers(Selected(rs, NoTarget(Staff), ParsePgRange), iv);
    TargetGroupMembers(rs, Room, ParsePgRange, id, iv);
    TargetGroupMembers(rs, Equipment, ParsePgRange, id, iv);
    TargetGroupMembers(rs, Staff, ParsePgRange, id, iv);
  }

  lemma SortedMembers(s: seq<Interval>, iv: Interval)
    ensures iv in SortByStart(s) <==> iv in s
  {
    Sorting.SameElements(SortByStart(s), s, iv);
  }

  lemma TargetGroupMembers(rs: seq<CalendarExceptionRecord>, scope: Scope, parse: RangeParser, id: string, iv: Interval)
    ensures iv in Lookup(GroupedIntervals(rs, scope, parse), id) <==>
      exists r :: r in rs && r.scope == scope && r.targetId == Some(id) && id != "" && parse(r.range) == Some(iv)
  {
    var f := TargetEntry(scope, parse);
    SortedGroupMembers(GroupBy(rs, f), id, iv);
    GroupMembers(rs, f, id, iv);
    forall r | r in rs
      ensures f(r) == Some((id, iv)) <==> r.scope == scope && r.targetId == Some(id) && id != "" && parse(r.range) == Some(iv)
    {
      TargetEntryIff(scope, parse, r, id, iv);
    }
  }

  // ---------------------------------------------------------------------------------------
  // Closed-scope detection

  /** Position of the first interval of `intervals` overlapping `target`; `|intervals|` when
      there is none. */
  function FirstOverlapIndex(intervals: seq<Interval>, target: Interval): (k: nat)
    ensures k <= |intervals|
    ensures forall j :: 0 <= j < k ==> !Overlaps(intervals[j], target)
    ensures k < |intervals| ==> Overlaps(intervals[k], target)
  {
    if intervals == [] || Overlaps(intervals[0], target) then 0
    else 1 + FirstOverlapIndex(intervals[1..], target)
  }

  /** The first interval of `intervals`, in list order, overlapping `target`. */
  function FirstOverlapping(intervals: seq<Interval>, target: Interval): (r: Option<Interval>)
    ensures r.None? <==> forall k :: 0 <= k < |intervals| ==> !Overlaps(intervals[k], target)
    ensures r.Some? ==> r.value in intervals && Overlaps(r.value, target)
  {
    var k := FirstOverlapIndex(intervals, target);
    if k < |intervals| then Some(intervals[k]) else None
  }

  /** `firstOverlap`. */
  method FirstOverlap(intervals: seq<Interval>, target: Interval) returns (hit: Option<Interval>)
    ensures hit == FirstOverlapping(intervals, target)
  {
    for i := 0 to |intervals|
      invariant FirstOverlapping(intervals, target) == FirstOverlapping(intervals[i..], target)
    {
      assert intervals[i..][1..] == intervals[i + 1..];
      if intervals[i].start < target.end && target.start < intervals[i].end {
        return Some(intervals[i]);
      }
    }
    return None;
  }

  /** One entry of the priority list that `findClosedScope` walks. */
  datatype ScopeCheck = ScopeCheck(scope: Scope, targetId: Option<string>, intervals: seq<Interval>)

  function IdChecks(scope: Scope, m: map<string, seq<Interval>>, ids: seq<string>): (r: seq<ScopeCheck>)
    ensures |r| == |ids|
    ensures forall k :: 0 <= k < |ids| ==> r[k] == ScopeCheck(scope, Some(ids[k]), Lookup(m, ids[k]))
  {
    seq(|ids|, k requires 0 <= k < |ids| => ScopeCheck(scope, Some(ids[k]), Lookup(m, ids[k])))
  }

  /** The priority order: tenant, the room, equipment-wide, each requested SKU in order,
      staff-wide, each requested staff member in order. */
  function ScopeChecks(ctx: CalendarContext, roomId: string, equipmentIds: seq<string>, staffIds: seq<string>): seq<ScopeCheck> {
    [ScopeCheck(Tenant, None, ctx.tenantExceptions)]
    + ([ScopeCheck(Room, Some(roomId), Lookup(ctx.roomExceptionsById, roomId))]
    + ([ScopeCheck(Equipment, None, ctx.equipmentGlobalExceptions)]
    + (IdChecks(Equipment, ctx.equipmentExceptionsById, equipmentIds)
    + ([ScopeCheck(Staff, None, ctx.staffGlobalExceptions)]
    + IdChecks(Staff, ctx.staffExceptionsById, staffIds)))))
  }

  predicate Hits(c: ScopeCheck, target: Interval) {
    FirstOverlapping(c.intervals, target).Some?
  }

  predicate NoHits(checks: seq<ScopeCheck>, target: Interval) {
    forall k :: 0 <= k < |checks| ==> !Hits(checks[k], target)
  }

  /** Position of the first check with an overlapping exception; `|checks|` when none has. */
  function FirstHitIndex(checks: seq<ScopeCheck>, target: Interval): (k: nat)
    ensures k <= |checks|
    ensures forall j :: 0 <= j < k ==> !Hits(checks[j], target)
    ensures k < |checks| ==> Hits(checks[k], target)
  {
    if checks == [] || Hits(checks[0], target) then 0
    else 1 + FirstHitIndex(checks[1..], target)
  }

  /** The reason reported for the first check with an overlapping exception: its scope, its
      target and the first overlapping interval in its list. */
  function FirstHit(checks: seq<ScopeCheck>, target: Interval): (r: Option<ClosedScopeReason>)
    ensures r.None? <==> NoHits(checks, target)
  {
    var k := FirstHitIndex(checks, target);
    if k < |checks| then
      Some(ClosedScopeReason(checks[k].scope, checks[k].targetId, FirstOverlapping(checks[k].intervals, target).value))
    else None
  }

  /** A reported reason comes from a check with an overlapping exception, every earlier check
      being clear. */
  lemma FirstHitReason(checks: seq<ScopeCheck>, target: Interval)
    requires FirstHit(checks, target).Some?
    ensures var r := FirstHit(checks, target).value;
      exists k :: 0 <= k < |checks|
        && (forall j :: 0 <= j < k ==> !Hits(checks[j], target))
        && FirstOverlapping(checks[k].intervals, target) == Some(r.interval)
        && r.scope == checks[k].scope && r.targetId == checks[k].targetId
  {
    var k := FirstHitIndex(checks, target);
    assert 0 <= k < |checks|;
  }

  lemma {:induction false} FirstHitIndexAppend(a: seq<ScopeCheck>, b: seq<ScopeCheck>, target: Interval)
    ensures FirstHitIndex(a + b, target)
      == if FirstHitIndex(a, target) < |a| then FirstHitIndex(a, target) else |a| + FirstHitIndex(b, target)
  {
    if a == [] {
      assert a + b == b;
    } else {
      assert (a + b)[0] == a[0];
      assert (a + b)[1..] == a[1..] + b;
      FirstHitIndexAppend(a[1..], b, target);
    }
  }

  lemma FirstHitAppend(a: seq<ScopeCheck>, b: seq<ScopeCheck>, target: Interval)
    ensures FirstHit(a + b, target) == if FirstHit(a, target).Some? then FirstHit(a, target) else FirstHit(b, target)
  {
    var k := FirstHitIndex(a, target);
    var m := FirstHitIndex(b, target);
    var i := FirstHitIndex(a + b, target);
    assert i == if k < |a| then k else |a| + m by {
      FirstHitIndexAppend(a, b, target);
    }
    if k < |a| {
      assert (a + b)[k] == a[k];
      assert FirstHit(a + b, target) == FirstHit(a, target);
    } else if m < |b| {
      assert (a + b)[|a| + m] == b[m];
      assert FirstHit(a + b, target) == FirstHit(b, target);
    } else {
      assert FirstHit(a + b, target) == None;
    }
  }

  /** Unfolds `FirstHit` by one check. */
  lemma FirstHitCons(checks: seq<ScopeCheck>, target: Interval)
    requires checks != []
    ensures FirstHit(checks, target) ==
      if Hits(checks[0], target)
      then Some(ClosedScopeReason(checks[0].scope, checks[0].targetId, FirstOverlapping(checks[0].intervals, target).value))
      else FirstHit(checks[1..], target)
  {
    if !Hits(checks[0], target) {
      var k := FirstHitIndex(checks[1..], target);
      if k < |checks| - 1 {
        assert checks[1..][k] == checks[k + 1];
      }
    }
  }

  /** The per-target part of `findClosedScope`: the requested ids in order. */
  method FirstTargetHit(scope: Scope, m: map<string, seq<Interval>>, ids: seq<string>, interval: Interval)
    returns (reason: Option<ClosedScopeReason>)
    ensures reason == FirstHit(IdChecks(scope, m, ids), interval)
  {
    ghost var checks := IdChecks(scope, m, ids);
    for i := 0 to |ids|
      invariant FirstHit(checks, interval) == FirstHit(checks[i..], interval)
    {
      FirstHitCons(checks[i..], interval);
      assert checks[i..][1..] == checks[i + 1..];
      var hit := FirstOverlap(Lookup(m, ids[i]), interval);
      if hit.Some? {
        return Some(ClosedScopeReason(scope, Some(ids[i]), hit.value));
      }
    }
    return None;
  }

  /** `findClosedScope`: walks the checks in priority order and reports the first exception
      that overlaps `interval`. */
  method FindClosedScope(ctx: CalendarContext, roomId: string, interval: Interval,
                         equipmentIds: seq<string>, staffIds: seq<string>)
    returns (reason: Option<ClosedScopeReason>)
    ensures reason == FirstHit(ScopeChecks(ctx, roomId, equipmentIds, staffIds), interval)
  {
    // The checks not yet made: the answer is always the first hit among them.
    ghost var rest := ScopeChecks(ctx, roomId, equipmentIds, staffIds);
    ghost var eq := IdChecks(Equipment, ctx.equipmentExceptionsById, equipmentIds);
    ghost var tail := [ScopeCheck(Staff, None, ctx.staffGlobalExceptions)]
      + IdChecks(Staff, ctx.staffExceptionsById, staffIds);

    FirstHitCons(rest, interval);
    var hit := FirstOverlap(ctx.tenantExceptions, interval);
    if hit.Some? {
      return Some(ClosedScopeReason(Tenant, None, hit.value));
    }
    rest := rest[1..];
    FirstHitCons(rest, interval);
    hit := FirstOverlap(Lookup(ctx.roomExceptionsById, roomId), interval);
    if hit.Some? {
      return Some(ClosedScopeReason(Room, Some(roomId), hit.value));
    }
    rest := rest[1..];
    FirstHitCons(rest, interval);
    hit := FirstOverlap(ctx.equipmentGlobalExceptions, interval);
    if hit.Some? {
      return Some(ClosedScopeReason(Equipment, None, hit.value));
    }
    rest := rest[1..];
    FirstHitAppend(eq, tail, interval);
    reason := FirstTargetHit(Equipment, ctx.equipmentExceptionsById, equipmentIds, interval);
    if reason.Some? {
      return;
    }
    rest := tail;
    FirstHitCons(rest, interval);
    hit := FirstOverlap(ctx.staffGlobalExceptions, interval);
    if hit.Some? {
      return Some(ClosedScopeReason(Staff, None, hit.value));
    }
    assert rest[1..] == IdChecks(Staff, ctx.staffExceptionsById, staffIds);
    reason := FirstTargetHit(Staff, ctx.staffExceptionsById, staffIds, interval);
  }

  /** `assertReservationOpen`: passes when no exception overlaps the interval, otherwise fails
      with the reason `FindClosedScope` reports. */
  method AssertReservationOpen(ctx: CalendarContext, roomId: string, interval: Interval,
                               equipmentIds: seq<string>, staffIds: seq<string>)
    returns (outcome: Outcome<ClosedScopeReason>)
    ensures outcome.Pass? <==> ClosedFor(ctx, roomId, interval, equipmentIds, staffIds).None?
    ensures outcome.Fail? ==> Some(outcome.error) == ClosedFor(ctx, roomId, interval, equipmentIds, staffIds)
  {
    var reason := FindClosedScope(ctx, roomId, interval, equipmentIds, staffIds);
    if reason.Some? {
      return Fail(reason.value);
    }
    return Pass;
  }

  function ClosedFor(ctx: CalendarContext, roomId: string, interval: Interval,
                     equipmentIds: seq<string>, staffIds: seq<string>): Option<ClosedScopeReason> {
    FirstHit(ScopeChecks(ctx, roomId, equipmentIds, staffIds), interval)
  }

  lemma NoHitsAppend(a: seq<ScopeCheck>, b: seq<ScopeCheck>, target: Interval)
    ensures NoHits(a + b, target) <==> NoHits(a, target) && NoHits(b, target)
  {
    if NoHits(a, target) && NoHits(b, target) {
      forall k | 0 <= k < |a + b| ensures !Hits((a + b)[k], target) {
        if k >= |a| { assert (a + b)[k] == b[k - |a|]; }
      }
    }
    if NoHits(a + b, target) {
      forall k | 0 <= k < |a| ensures !Hits(a[k], target) {
        assert (a + b)[k] == a[k];
      }
      forall k | 0 <= k < |b| ensures !Hits(b[k], target) {
        assert (a + b)[|a| + k] == b[k];
      }
    }
  }

  predicate Clear(intervals: seq<Interval>, target: Interval) {
    forall iv :: iv in intervals ==> !Overlaps(iv, target)
  }

  lemma NoHitsIdChecks(scope: Scope, m: map<string, seq<Interval>>, ids: seq<string>, target: Interval)
    ensures NoHits(IdChecks(scope, m, ids), target) <==> forall id :: id in ids ==> Clear(Lookup(m, id), target)
  {
    var checks := IdChecks(scope, m, ids);
    if NoHits(checks, target) {
      forall id | id in ids ensures Clear(Lookup(m, id), target) {
        var k :| 0 <= k < |ids| && ids[k] == id;
        assert !Hits(checks[k], target);
      }
    }
  }

  /** A reservation is open exactly when no exception that applies to it overlaps it: none in
      the tenant list, the room's list, the equipment-wide list, any requested SKU's list, the
      staff-wide list or any requested staff member's list. */
  lemma OpenIffNoApplicableException(ctx: CalendarContext, roomId: string, interval: Interval,
                                     equipmentIds: seq<string>, staffIds: seq<string>)
    ensures ClosedFor(ctx, roomId, interval, equipmentIds, staffIds).None? <==>
      && Clear(ctx.tenantExceptions, interval)
      && Clear(Lookup(ctx.roomExceptionsById, roomId), interval)
      && Clear(ctx.equipmentGlobalExceptions, interval)
      && (forall e :: e in equipmentIds ==> Clear(Lookup(ctx.equipmentExceptionsById, e), interval))
      && Clear(ctx.staffGlobalExceptions, interval)
      && (forall s :: s in staffIds ==> Clear(Lookup(ctx.staffExceptionsById, s), interval))
  {
    var c0 := ScopeCheck(Tenant, None, ctx.tenantExceptions);
    var c1 := ScopeCheck(Room, Some(roomId), Lookup(ctx.roomExceptionsById, roomId));
    var c2 := ScopeCheck(Equipment, None, ctx.equipmentGlobalExceptions);
    var eq := IdChecks(Equipment, ctx.equipmentExceptionsById, equipmentIds);
    var c3 := ScopeCheck(Staff, None, ctx.staffGlobalExceptions);
    var st := IdChecks(Staff, ctx.staffExceptionsById, staffIds);
    NoHitsAppend([c3], st, interval);
    NoHitsAppend(eq, [c3] + st, interval);
    NoHitsAppend([c2], eq + ([c3] + st), interval);
    NoHitsAppend([c1], [c2] + (eq + ([c3] + st)), interval);
    NoHitsAppend([c0], [c1] + ([c2] + (eq + ([c3] + st))), interval);
    NoHitsIdChecks(Equipment, ctx.equipmentExceptionsById, equipmentIds, interval);
    NoHitsIdChecks(Staff, ctx.staffExceptionsById, staffIds, interval);
    NoHitsSingle(c0, interval);
    NoHitsSingle(c1, interval);
    NoHitsSingle(c2, interval);
    NoHitsSingle(c3, interval);
  }

  lemma NoHitsSingle(c: ScopeCheck, target: Interval)
    ensures NoHits([c], target) <==> Clear(c.intervals, target)
  {
    assert [c][0] == c;
  }

  /** A reported reason names an exception that really overlaps the interval and really
      applies to it: tenant-wide or equipment/staff-wide ones carry no target, the room one
      names the room, SKU and staff ones name a requested id. */
  lemma ReasonIsGenuine(ctx: CalendarContext, roomId: string, interval: Interval,
                        equipmentIds: seq<string>, staffIds: seq<string>)
    requires ClosedFor(ctx, roomId, interval, equipmentIds, staffIds).Some?
    ensures var r := ClosedFor(ctx, roomId, interval, equipmentIds, staffIds).value;
      && Overlaps(r.interval, interval)
      && (r.scope == Tenant ==> r.targetId.None? && r.interval in ctx.tenantExceptions)
      && (r.scope == Room ==> r.targetId == Some(roomId) && r.interval in Lookup(ctx.roomExceptionsById, roomId))
      && (r.scope == Equipment && r.targetId.None? ==> r.interval in ctx.equipmentGlobalExceptions)
      && (r.scope == Equipment && r.targetId.Some? ==>
            r.targetId.value in equipmentIds && r.interval in Lookup(ctx.equipmentExceptionsById, r.targetId.value))
      && (r.scope == Staff && r.targetId.None? ==> r.interval in ctx.staffGlobalExceptions)
      && (r.scope == Staff && r.targetId.Some? ==>
            r.targetId.value in staffIds && r.interval in Lookup(ctx.staffExceptionsById, r.targetId.value))
  {
    var checks := ScopeChecks(ctx, roomId, equipmentIds, staffIds);
    var r := ClosedFor(ctx, roomId, interval, equipmentIds, staffIds).value;
    FirstHitReason(checks, interval);
    var k :| 0 <= k < |checks|
      && FirstOverlapping(checks[k].intervals, interval) == Some(r.interval)
      && r.scope == checks[k].scope && r.targetId == checks[k].targetId;
    ScopeCheckAt(ctx, roomId, equipmentIds, staffIds, k);
    var n := |equipmentIds|;
    assert r.interval in checks[k].intervals && Overlaps(r.interval, interval);
    if 3 <= k < 3 + n {
      assert equipmentIds[k - 3] in equipmentIds;
    } else if k > 3 + n {
      assert staffIds[k - 4 - n] in staffIds;
    }
  }

  /** The check at position `k` of the priority list. */
  lemma ScopeCheckAt(ctx: CalendarContext, roomId: string, equipmentIds: seq<string>, staffIds: seq<string>, k: int)
    requires 0 <= k < |ScopeChecks(ctx, roomId, equipmentIds, staffIds)|
    ensures var n := |equipmentIds|;
      ScopeChecks(ctx, roomId, equipmentIds, staffIds)[k] ==
        if k == 0 then ScopeCheck(Tenant, None, ctx.tenantExceptions)
        else if k == 1 then ScopeCheck(Room, Some(roomId), Lookup(ctx.roomExceptionsById, roomId))
        else if k == 2 then ScopeCheck(Equipment, None, ctx.equipmentGlobalExceptions)
        else if k < 3 + n then ScopeCheck(Equipment, Some(equipmentIds[k - 3]), Lookup(ctx.equipmentExceptionsById, equipmentIds[k - 3]))
        else if k == 3 + n then ScopeCheck(Staff, None, ctx.staffGlobalExceptions)
        else ScopeCheck(Staff, Some(staffIds[k - 4 - n]), Lookup(ctx.staffExceptionsById, staffIds[k - 4 - n]))
  {
    var eq := IdChecks(Equipment, ctx.equipmentExceptionsById, equipmentIds);
    var tail := [ScopeCheck(Staff, None, ctx.staffGlobalExceptions)] + IdChecks(Staff, ctx.staffExceptionsById, staffIds);
    var checks := ScopeChecks(ctx, roomId, equipmentIds, staffIds);
    if k >= 3 {
      assert checks[3..] == eq + tail;
      assert checks[k] == (eq + tail)[k - 3];
      if k >= 3 + |eq| {
        assert (eq + tail)[k - 3] == tail[k - 3 - |eq|];
      }
    }
  }

  lemma InIdChecks(scope: Scope, m: map<string, seq<Interval>>, ids: seq<string>, c: ScopeCheck)
    requires c in IdChecks(scope, m, ids)
    ensures c.scope == scope && c.targetId.Some? && c.targetId.value in ids
    ensures c.intervals == Lookup(m, c.targetId.value)
  {
    var k :| 0 <= k < |ids| && IdChecks(scope, m, ids)[k] == c;
  }

  /** Priority: an overlapping tenant exception is always the one reported, whatever else
      overlaps; a room exception is reported whenever no tenant exception overlaps. */
  lemma TenantThenRoomPriority(ctx: CalendarContext, roomId: string, interval: Interval,
                               equipmentIds: seq<string>, staffIds: seq<string>)
    ensures FirstOverlapping(ctx.tenantExceptions, interval).Some? ==>
      ClosedFor(ctx, roomId, interval, equipmentIds, staffIds)
      == Some(ClosedScopeReason(Tenant, None, FirstOverlapping(ctx.tenantExceptions, interval).value))
    ensures (FirstOverlapping(ctx.tenantExceptions, interval).None?
             && FirstOverlapping(Lookup(ctx.roomExceptionsById, roomId), interval).Some?) ==>
      ClosedFor(ctx, roomId, interval, equipmentIds, staffIds)
      == Some(ClosedScopeReason(Room, Some(roomId), FirstOverlapping(Lookup(ctx.roomExceptionsById, roomId), interval).value))
  {
    var checks := ScopeChecks(ctx, roomId, equipmentIds, staffIds);
    assert checks[0] == ScopeCheck(Tenant, None, ctx.tenantExceptions);
    assert checks[1..][0] == ScopeCheck(Room, Some(roomId), Lookup(ctx.roomExceptionsById, roomId));
  }
}
