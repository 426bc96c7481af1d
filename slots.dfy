/** Candidate slots and the result page of the availability search
    (src/features/availability/server.ts: `alignToInterval`, `generateCandidateSlots`,
    `buildCandidateSlotsForRooms`, `finalizeSlots`). Times are epoch milliseconds; turning a
    slot's instants into ISO text is not part of this model. */
module Slots {
  import opened Wrappers
  import opened Intervals
  import opened Grouping
  import Subtraction
  import OpenHours
  import Conflicts

  const SlotIntervalMinutes: int := 15
  const SlotIntervalMs: int := SlotIntervalMinutes * 60000

  // ---------------------------------------------------------------------------------------
  // Grid alignment

  /** A whole multiple of `step` is on the grid. */
  lemma MultipleOnGrid(k: int, step: int)
    requires step > 0
    ensures (k * step) % step == 0
  {
    var m := k * step;
    var q := m / step;
    var r := m % step;
    var d := k - q;
    assert m == q * step + r;
    assert d * step == k * step - q * step;
    assert d * step == r;
  }

  /** `alignToInterval`: `value` itself when it is on the grid, else `Math.ceil(value / step)`
      grid steps. */
  function AlignToInterval(value: int, step: int): (r: int)
    requires step > 0
    ensures r % step == 0 && value <= r < value + step
  {
    if value % step == 0 then value
    else
      var q := value / step;
      assert value == q * step + value % step;
      MultipleOnGrid(q + 1, step);
      (q + 1) * step
  }

  /** The aligned value is the least grid point not below `value`. */
  lemma AlignIsLeast(value: int, step: int, m: int)
    requires step > 0 && m % step == 0 && m >= value
    ensures AlignToInterval(value, step) <= m
  {
    var r := AlignToInterval(value, step);
    var k := m / step - r / step;
    assert m == m / step * step && r == r / step * step;
    assert m - r == k * step;
  }

  // ---------------------------------------------------------------------------------------
  // Candidates of one room

  /** A bookable start: the visible slot `[start, end)` and the occupied interval, buffers
      included. */
  datatype CandidateSlot = CandidateSlot(roomId: string, start: int, end: int, occupiedStart: int, occupiedEnd: int)

  function CandidateStart(c: CandidateSlot): int {
    c.start
  }

  function Visible(c: CandidateSlot): Interval {
    Interval(c.start, c.end)
  }

  function Occupied(c: CandidateSlot): Conflicts.OccupiedInterval {
    Conflicts.OccupiedInterval(c.occupiedStart, c.occupiedEnd)
  }

  /** The service's duration and buffers and the search window. */
  datatype SlotParams = SlotParams(durationMs: int, bufferBeforeMs: int, bufferAfterMs: int, rangeStartMs: int, rangeEndMs: int)

  function CandidateAt(roomId: string, start: int, p: SlotParams): CandidateSlot {
    CandidateSlot(roomId, start, start + p.durationMs, start - p.bufferBeforeMs, start + p.durationMs + p.bufferAfterMs)
  }

  /** The starts `current`, `current + step`, ... whose slot ends inside both the free interval
      and the window. */
  function Run(roomId: string, iv: Interval, current: int, p: SlotParams, step: int): seq<CandidateSlot>
    requires step > 0
    decreases iv.end - p.durationMs - current
  {
    if current + p.durationMs > iv.end || current + p.durationMs > p.rangeEndMs then []
    else [CandidateAt(roomId, current, p)] + Run(roomId, iv, current + step, p, step)
  }

  /** The first start tried in a free interval: its start (or the window start, if later)
      rounded up to the 15-minute grid. */
  function FirstStart(iv: Interval, p: SlotParams): int {
    AlignToInterval(Max(iv.start, p.rangeStartMs), SlotIntervalMs)
  }

  function StepMs(slotIntervalMs: int): int {
    Max(slotIntervalMs, SlotIntervalMs)
  }

  function GeneratedCandidates(ivs: seq<Interval>, roomId: string, p: SlotParams, slotIntervalMs: int): seq<CandidateSlot> {
    if ivs == [] then []
    else
      var last := ivs[|ivs| - 1];
      GeneratedCandidates(ivs[..|ivs| - 1], roomId, p, slotIntervalMs)
        + Run(roomId, last, FirstStart(last, p), p, StepMs(slotIntervalMs))
  }

  /** `generateCandidateSlots`. */
  method GenerateCandidateSlots(intervals: seq<Interval>, p: SlotParams, roomId: string, slotIntervalMs: int)
    returns (candidates: seq<CandidateSlot>)
    ensures candidates == GeneratedCandidates(intervals, roomId, p, slotIntervalMs)
  {
    candidates := [];
    for i := 0 to |intervals|
      invariant candidates == GeneratedCandidates(intervals[..i], roomId, p, slotIntervalMs)
    {
      assert intervals[..i + 1][..i] == intervals[..i];
      var iv := intervals[i];
      var earliestStart := Max(iv.start, p.rangeStartMs);
      var stepMs := Max(slotIntervalMs, SlotIntervalMs);
      var currentStart := AlignToInterval(earliestStart, SlotIntervalMs);
      ghost var first := currentStart;
      ghost var before := candidates;
      while currentStart + p.durationMs <= iv.end
        invariant candidates + Run(roomId, iv, currentStart, p, stepMs) == before + Run(roomId, iv, first, p, stepMs)
        decreases iv.end - p.durationMs - currentStart
      {
        var start := currentStart;
        var end := start + p.durationMs;
        if end > p.rangeEndMs {
          break;
        }
        candidates := candidates + [CandidateSlot(roomId, start, end, start - p.bufferBeforeMs, end + p.bufferAfterMs)];
        currentStart := currentStart + stepMs;
      }
      assert Run(roomId, iv, currentStart, p, stepMs) == [];
    }
    assert intervals[..|intervals|] == intervals;
  }

  /** The k-th start of a run is `current + k * step`, and every slot of the run ends inside
      the free interval and the window. */
  lemma {:induction false} RunShape(roomId: string, iv: Interval, current: int, p: SlotParams, step: int, k: int)
    requires step > 0 && 0 <= k < |Run(roomId, iv, current, p, step)|
    ensures Run(roomId, iv, current, p, step)[k] == CandidateAt(roomId, current + k * step, p)
    ensures current + k * step + p.durationMs <= iv.end && current + k * step + p.durationMs <= p.rangeEndMs
    decreases k
  {
    if k > 0 {
      RunShape(roomId, iv, current + step, p, step, k - 1);
      assert (current + step) + (k - 1) * step == current + k * step;
    }
  }

  /** What every generated candidate satisfies: its room, its duration and buffers, a start
      not before the window or its free interval, an end inside both, and a start on the
      15-minute grid plus a whole number of steps. */
  predicate WellPlaced(c: CandidateSlot, iv: Interval, roomId: string, p: SlotParams, slotIntervalMs: int) {
    && c.roomId == roomId
    && c.end == c.start + p.durationMs
    && c.occupiedStart == c.start - p.bufferBeforeMs
    && c.occupiedEnd == c.end + p.bufferAfterMs
    && Max(iv.start, p.rangeStartMs) <= c.start
    && c.end <= iv.end && c.end <= p.rangeEndMs
    && (c.start - FirstStart(iv, p)) % StepMs(slotIntervalMs) == 0
  }

  lemma RunWellPlaced(roomId: string, iv: Interval, p: SlotParams, slotIntervalMs: int, c: CandidateSlot)
    requires c in Run(roomId, iv, FirstStart(iv, p), p, StepMs(slotIntervalMs))
    ensures WellPlaced(c, iv, roomId, p, slotIntervalMs)
  {
    var run := Run(roomId, iv, FirstStart(iv, p), p, StepMs(slotIntervalMs));
    var k :| 0 <= k < |run| && run[k] == c;
    var step := StepMs(slotIntervalMs);
    RunShape(roomId, iv, FirstStart(iv, p), p, step, k);
    MultipleOnGrid(k, step);
    assert c.start - FirstStart(iv, p) == k * step;
    assert k * step >= 0 by {
      if k > 0 { assert k * step == (k - 1) * step + step; }
    }
  }

  lemma {:induction false} GeneratedWellPlaced(ivs: seq<Interval>, roomId: string, p: SlotParams, slotIntervalMs: int, c: CandidateSlot)
    requires c in GeneratedCandidates(ivs, roomId, p, slotIntervalMs)
    ensures exists iv :: iv in ivs && WellPlaced(c, iv, roomId, p, slotIntervalMs)
  {
    var init := ivs[..|ivs| - 1];
    var last := ivs[|ivs| - 1];
    if c in GeneratedCandidates(init, roomId, p, slotIntervalMs) {
      GeneratedWellPlaced(init, roomId, p, slotIntervalMs, c);
      var iv :| iv in init && WellPlaced(c, iv, roomId, p, slotIntervalMs);
      assert iv in ivs;
    } else {
      RunWellPlaced(roomId, last, p, slotIntervalMs, c);
      assert last in ivs;
    }
  }

  // ---------------------------------------------------------------------------------------
  // Candidates of all rooms

  datatype RoomRecord = RoomRecord(id: string, openHours: OpenHours.Json, active: bool)

  /** The other inputs of `buildCandidateSlotsForRooms`. */
  datatype SearchContext = SearchContext(
    tenantExceptions: seq<Interval>,
    roomExceptionsById: map<string, seq<Interval>>,
    roomReservationIntervals: map<string, seq<Interval>>,
    slot: SlotParams,
    timezoneOffsetMinutes: int)

  function OpenIntervalsOf(room: RoomRecord, s: SearchContext): seq<Interval> {
    OpenHours.RoomOpenIntervalsOf(OpenHours.ParseRoomOpenHours(room.openHours), s.slot.rangeStartMs, s.slot.rangeEndMs, s.timezoneOffsetMinutes)
  }

  /** Open hours minus tenant exceptions, minus the room's exceptions, minus the room's
      reservations. */
  function FreeIntervalsOf(room: RoomRecord, s: SearchContext): seq<Interval> {
    var tenantAdjusted := Subtraction.SubtractionOf(OpenIntervalsOf(room, s), s.tenantExceptions);
    var roomAdjusted := Subtraction.SubtractionOf(tenantAdjusted, Lookup(s.roomExceptionsById, room.id));
    Subtraction.SubtractionOf(roomAdjusted, Lookup(s.roomReservationIntervals, room.id))
  }

  function SlotStepMs(s: SearchContext): int {
    Max(SlotIntervalMs, s.slot.durationMs)
  }

  function AllRoomCandidates(rooms: seq<RoomRecord>, s: SearchContext): seq<CandidateSlot> {
    if rooms == [] then []
    else
      var room := rooms[|rooms| - 1];
      AllRoomCandidates(rooms[..|rooms| - 1], s) + GeneratedCandidates(FreeIntervalsOf(room, s), room.id, s.slot, SlotStepMs(s))
  }

  function CandidatesForRooms(rooms: seq<RoomRecord>, s: SearchContext): seq<CandidateSlot> {
    Sorting.SortBy(AllRoomCandidates(rooms, s), CandidateStart)
  }

  lemma AllRoomCandidatesStep(rooms: seq<RoomRecord>, s: SearchContext, i: int)
    requires 0 <= i < |rooms|
    ensures AllRoomCandidates(rooms[..i + 1], s)
      == AllRoomCandidates(rooms[..i], s) + GeneratedCandidates(FreeIntervalsOf(rooms[i], s), rooms[i].id, s.slot, SlotStepMs(s))
  {
    assert rooms[..i + 1][..i] == rooms[..i];
  }

  /** `buildCandidateSlotsForRooms`: each room's candidates in room order, then a stable sort
      by start. */
  method BuildCandidateSlotsForRooms(rooms: seq<RoomRecord>, s: SearchContext) returns (candidates: seq<CandidateSlot>)
    ensures candidates == CandidatesForRooms(rooms, s)
  {
    candidates := [];
    var slotIntervalMs := Max(SlotIntervalMs, s.slot.durationMs);
    for i := 0 to |rooms|
      invariant candidates == AllRoomCandidates(rooms[..i], s)
    {
      AllRoomCandidatesStep(rooms, s, i);
      var room := rooms[i];
      var openHours := OpenHours.ParseRoomOpenHours(room.openHours);
      var openIntervals := OpenHours.BuildRoomOpenIntervals(openHours, s.slot.rangeStartMs, s.slot.rangeEndMs, s.timezoneOffsetMinutes);
      var tenantAdjusted := Subtraction.SubtractIntervals(openIntervals, s.tenantExceptions);
      var roomAdjusted := Subtraction.SubtractIntervals(tenantAdjusted, Lookup(s.roomExceptionsById, room.id));
      var freeIntervals := Subtraction.SubtractIntervals(roomAdjusted, Lookup(s.roomReservationIntervals, room.id));
      if |freeIntervals| == 0 {
        continue;
      }
      var roomCandidates := GenerateCandidateSlots(freeIntervals, s.slot, room.id, slotIntervalMs);
      candidates := candidates + roomCandidates;
    }
    assert rooms[..|rooms|] == rooms;
    candidates := Sorting.SortBy(candidates, CandidateStart);
  }

  /** A candidate of `room` sits inside the room's open hours and its visible slot overlaps no
      tenant exception, no exception of the room and no reservation of the room. */
  predicate ClearOfBlockers(c: CandidateSlot, room: RoomRecord, s: SearchContext) {
    && (exists q :: q in OpenIntervalsOf(room, s) && Within(Visible(c), q))
    && (forall e :: e in s.tenantExceptions ==> !Overlaps(Visible(c), e))
    && (forall e :: e in Lookup(s.roomExceptionsById, room.id) ==> !Overlaps(Visible(c), e))
    && (forall e :: e in Lookup(s.roomReservationIntervals, room.id) ==> !Overlaps(Visible(c), e))
  }

  lemma FreeIntervalClear(room: RoomRecord, s: SearchContext, c: CandidateSlot, p: Interval)
    requires p in FreeIntervalsOf(room, s) && Within(Visible(c), p)
    ensures ClearOfBlockers(c, room, s)
  {
    var open := OpenIntervalsOf(room, s);
    var tenantAdjusted := Subtraction.SubtractionOf(open, s.tenantExceptions);
    var roomAdjusted := Subtraction.SubtractionOf(tenantAdjusted, Lookup(s.roomExceptionsById, room.id));
    var v := Visible(c);
    Subtraction.SubtractionSound(roomAdjusted, Lookup(s.roomReservationIntervals, room.id), p);
    var q1 :| q1 in roomAdjusted && Within(p, q1);
    Subtraction.SubtractionSound(tenantAdjusted, Lookup(s.roomExceptionsById, room.id), q1);
    var q2 :| q2 in tenantAdjusted && Within(q1, q2);
    Subtraction.SubtractionSound(open, s.tenantExceptions, q2);
    var q3 :| q3 in open && Within(q2, q3);
    assert Within(v, q3);
    forall e | e in s.tenantExceptions ensures !Overlaps(v, e) {
      Subtraction.WithinKeepsApart(v, q2, e);
    }
    forall e | e in Lookup(s.roomExceptionsById, room.id) ensures !Overlaps(v, e) {
      Subtraction.WithinKeepsApart(v, q1, e);
    }
    forall e | e in Lookup(s.roomReservationIntervals, room.id) ensures !Overlaps(v, e) {
      Subtraction.WithinKeepsApart(v, p, e);
    }
  }

  lemma {:induction false} AllRoomCandidatesClear(rooms: seq<RoomRecord>, s: SearchContext, c: CandidateSlot)
    requires c in AllRoomCandidates(rooms, s)
    ensures exists room :: room in rooms && c.roomId == room.id && ClearOfBlockers(c, room, s)
    ensures c.end == c.start + s.slot.durationMs && s.slot.rangeStartMs <= c.start && c.end <= s.slot.rangeEndMs
    ensures c.occupiedStart == c.start - s.slot.bufferBeforeMs && c.occupiedEnd == c.end + s.slot.bufferAfterMs
  {
    var init := rooms[..|rooms| - 1];
    var room := rooms[|rooms| - 1];
    if c in AllRoomCandidates(init, s) {
      AllRoomCandidatesClear(init, s, c);
      var r :| r in init && c.roomId == r.id && ClearOfBlockers(c, r, s);
      assert r in rooms;
    } else {
      var free := FreeIntervalsOf(room, s);
      GeneratedWellPlaced(free, room.id, s.slot, SlotStepMs(s), c);
      var p :| p in free && WellPlaced(c, p, room.id, s.slot, SlotStepMs(s));
      FreeIntervalClear(room, s, c, p);
      assert room in rooms;
    }
  }

  /** The search's candidates come sorted by start; each belongs to one of the rooms, has the
      service's duration and buffers, lies in the window and in the room's open hours, and its
      visible slot overlaps no tenant exception, room exception or room reservation. */
  lemma CandidatesForRoomsSound(rooms: seq<RoomRecord>, s: SearchContext, c: CandidateSlot)
    requires c in CandidatesForRooms(rooms, s)
    ensures exists room :: room in rooms && c.roomId == room.id && ClearOfBlockers(c, room, s)
    ensures c.end == c.start + s.slot.durationMs && s.slot.rangeStartMs <= c.start && c.end <= s.slot.rangeEndMs
    ensures c.occupiedStart == c.start - s.slot.bufferBeforeMs && c.occupiedEnd == c.end + s.slot.bufferAfterMs
  {
    Sorting.SameElements(CandidatesForRooms(rooms, s), AllRoomCandidates(rooms, s), c);
    AllRoomCandidatesClear(rooms, s, c);
  }

  lemma CandidatesForRoomsSorted(rooms: seq<RoomRecord>, s: SearchContext)
    ensures var cs := CandidatesForRooms(rooms, s);
      forall i, j :: 0 <= i < j < |cs| ==> cs[i].start <= cs[j].start
  {
    var cs := CandidatesForRooms(rooms, s);
    assert Sorting.SortedBy(cs, CandidateStart);
    forall i, j | 0 <= i < j < |cs| ensures cs[i].start <= cs[j].start {
      assert CandidateStart(cs[i]) <= CandidateStart(cs[j]);
    }
  }

  // ---------------------------------------------------------------------------------------
  // Staff and equipment filter, and the page

  /** A returned slot; the requested equipment is echoed back as its one feasible set when
      equipment was requested. */
  datatype Slot = Slot(roomId: string, start: int, end: int, feasibleEquipment: Option<seq<Conflicts.EquipmentRequirement>>)

  datatype ListResult = ListResult(slots: seq<Slot>, nextCursor: Option<int>)

  /** The inputs of `finalizeSlots` besides the candidates. */
  datatype FinalizeParams = FinalizeParams(
    pageSize: int,
    wanted: seq<Conflicts.EquipmentRequirement>,
    staffId: Option<string>,
    staffReservationIntervals: seq<Interval>,
    staffExceptionsById: map<string, seq<Interval>>,
    equipment: Conflicts.EquipmentAvailabilityContext)

  /** The exceptions of the requested staff member; none when no staff member was named. */
  function StaffExceptions(f: FinalizeParams): seq<Interval> {
    if Conflicts.Truthy(f.staffId) then Lookup(f.staffExceptionsById, f.staffId.value) else []
  }

  /** No staff member was named, or the candidate's occupied interval overlaps none of that
      member's reservations and exceptions. */
  predicate StaffFree(f: FinalizeParams, c: CandidateSlot) {
    !Conflicts.Truthy(f.staffId)
    || (!Conflicts.AnyOverlap(f.staffReservationIntervals, c.occupiedStart, c.occupiedEnd)
        && !Conflicts.AnyOverlap(StaffExceptions(f), c.occupiedStart, c.occupiedEnd))
  }

  predicate Passes(f: FinalizeParams, c: CandidateSlot) {
    StaffFree(f, c) && Conflicts.EquipmentAvailable(f.wanted, Occupied(c), f.equipment)
  }

  function PassFilter(f: FinalizeParams): CandidateSlot -> Option<CandidateSlot> {
    (c: CandidateSlot) => if Passes(f, c) then Some(c) else None
  }

  /** The candidates that pass the staff and equipment checks, in candidate order. */
  function Passing(candidates: seq<CandidateSlot>, f: FinalizeParams): seq<CandidateSlot> {
    Pick(candidates, PassFilter(f))
  }

  function SlotFor(f: FinalizeParams, c: CandidateSlot): Slot {
    Slot(c.roomId, c.start, c.end, if |f.wanted| > 0 then Some(f.wanted) else None)
  }

  function SlotsFor(f: FinalizeParams, cs: seq<CandidateSlot>): (r: seq<Slot>)
    ensures |r| == |cs|
  {
    if cs == [] then [] else SlotsFor(f, cs[..|cs| - 1]) + [SlotFor(f, cs[|cs| - 1])]
  }

  function PageLimit(f: FinalizeParams): nat {
    Max(f.pageSize, 0)
  }

  /** The first `pageSize` passing candidates as slots; when more pass, the start of the next
      one is the cursor. */
  function FinalizeOf(candidates: seq<CandidateSlot>, f: FinalizeParams): ListResult {
    var passing := Passing(candidates, f);
    var n := PageLimit(f);
    if |passing| > n then ListResult(SlotsFor(f, passing[..n]), Some(passing[n].start))
    else ListResult(SlotsFor(f, passing), None)
  }

  /** One candidate through the staff check and the equipment check. */
  method CandidatePasses(f: FinalizeParams, staffExceptions: seq<Interval>, c: CandidateSlot) returns (ok: bool)
    requires staffExceptions == StaffExceptions(f)
    ensures ok <==> Passes(f, c)
  {
    if Conflicts.Truthy(f.staffId) {
      var reserved := Conflicts.HasAnyOverlap(f.staffReservationIntervals, c.occupiedStart, c.occupiedEnd);
      if reserved {
        return false;
      }
      var closed := Conflicts.HasAnyOverlap(staffExceptions, c.occupiedStart, c.occupiedEnd);
      if closed {
        return false;
      }
    }
    ok := Conflicts.CheckEquipmentAvailability(f.wanted, Conflicts.OccupiedInterval(c.occupiedStart, c.occupiedEnd), f.equipment);
  }

  lemma PassingStep(candidates: seq<CandidateSlot>, i: int, f: FinalizeParams)
    requires 0 <= i < |candidates|
    ensures Passing(candidates[..i + 1], f)
      == Passing(candidates[..i], f) + (if Passes(f, candidates[i]) then [candidates[i]] else [])
  {
    PickStep(candidates, i, PassFilter(f));
    assert PassFilter(f)(candidates[i]) == if Passes(f, candidates[i]) then Some(candidates[i]) else None;
  }

  lemma PassingRest(candidates: seq<CandidateSlot>, i: int, f: FinalizeParams)
    requires 0 <= i < |candidates|
    ensures Passing(candidates, f) == Passing(candidates[..i + 1], f) + Passing(candidates[i + 1..], f)
  {
    PickAppend(candidates[..i + 1], candidates[i + 1..], PassFilter(f));
    assert candidates[..i + 1] + candidates[i + 1..] == candidates;
  }

  lemma SlotsForSnoc(f: FinalizeParams, cs: seq<CandidateSlot>, c: CandidateSlot)
    ensures SlotsFor(f, cs + [c]) == SlotsFor(f, cs) + [SlotFor(f, c)]
  {
    assert (cs + [c])[..|cs|] == cs;
  }

  /** `finalizeSlots`: keeps the candidates that pass, fills the page, and stops at the first
      passing candidate that does not fit, whose start becomes the cursor. */
  method FinalizeSlots(candidates: seq<CandidateSlot>, f: FinalizeParams) returns (r: ListResult)
    ensures r == FinalizeOf(candidates, f)
  {
    var slots: seq<Slot> := [];
    var nextCursor: Option<int> := None;
    var staffExceptions := if Conflicts.Truthy(f.staffId) then Lookup(f.staffExceptionsById, f.staffId.value) else [];
    ghost var passed: seq<CandidateSlot> := [];
    ghost var n := PageLimit(f);
    var i := 0;
    while i < |candidates|
      invariant 0 <= i <= |candidates|
      invariant passed == Passing(candidates[..i], f)
      invariant |passed| <= n && slots == SlotsFor(f, passed)
    {
      var c := candidates[i];
      PassingStep(candidates, i, f);
      var ok := CandidatePasses(f, staffExceptions, c);
      if !ok {
        i := i + 1;
        continue;
      }
      var slot := Slot(c.roomId, c.start, c.end, if |f.wanted| > 0 then Some(f.wanted) else None);
      if |slots| < f.pageSize {
        SlotsForSnoc(f, passed, c);
        slots := slots + [slot];
        passed := passed + [c];
      } else if nextCursor.None? {
        nextCursor := Some(c.start);
        PassingRest(candidates, i, f);
        assert Passing(candidates, f) == passed + [c] + Passing(candidates[i + 1..], f);
        assert |passed| == n;
        assert Passing(candidates, f)[..n] == passed;
        break;
      }
      i := i + 1;
    }
    if nextCursor.None? {
      assert candidates[..|candidates|] == candidates;
    }
    r := ListResult(slots, nextCursor);
  }

  // ---------------------------------------------------------------------------------------
  // What the page promises

  lemma {:induction false} SlotsForMembers(f: FinalizeParams, cs: seq<CandidateSlot>, s: Slot)
    ensures s in SlotsFor(f, cs) <==> exists c :: c in cs && s == SlotFor(f, c)
  {
    if cs != [] {
      var init := cs[..|cs| - 1];
      SlotsForMembers(f, init, s);
      assert cs == init + [cs[|cs| - 1]];
      if exists c :: c in cs && s == SlotFor(f, c) {
        var c :| c in cs && s == SlotFor(f, c);
        if c != cs[|cs| - 1] {
          assert c in init;
        }
      }
    }
  }

  lemma PassingMembers(candidates: seq<CandidateSlot>, f: FinalizeParams, c: CandidateSlot)
    ensures c in Passing(candidates, f) <==> c in candidates && Passes(f, c)
  {
    PickMembers(candidates, PassFilter(f), c);
    if c in candidates && Passes(f, c) {
      assert PassFilter(f)(c) == Some(c);
    }
  }

  /** The page never holds more than `pageSize` slots (none for a page size below one), and a
      cursor is returned exactly when more candidates pass than fit. */
  lemma PageBound(candidates: seq<CandidateSlot>, f: FinalizeParams)
    ensures var r := FinalizeOf(candidates, f);
      && |r.slots| <= PageLimit(f)
      && (r.nextCursor.Some? <==> |Passing(candidates, f)| > PageLimit(f))
      && (r.nextCursor.Some? ==> |r.slots| == PageLimit(f))
  {
  }

  /** Every slot is one of the candidates, free for the staff member and served by the
      equipment; the cursor is the start of a candidate that passes as well. */
  lemma PageSound(candidates: seq<CandidateSlot>, f: FinalizeParams, s: Slot)
    requires s in FinalizeOf(candidates, f).slots
    ensures exists c :: c in candidates && Passes(f, c) && s == SlotFor(f, c)
  {
    var passing := Passing(candidates, f);
    var n := PageLimit(f);
    var shown := if |passing| > n then passing[..n] else passing;
    SlotsForMembers(f, shown, s);
    var c :| c in shown && s == SlotFor(f, c);
    assert c in passing;
    PassingMembers(candidates, f, c);
  }

  /** Every slot on a page built from the rooms' candidates is a start in one of those rooms,
      with the service's duration, inside the window and clear of the room's blockers, whose
      candidate passes the staff and equipment checks. */
  lemma PageSlotSound(rooms: seq<RoomRecord>, s: SearchContext, f: FinalizeParams, slot: Slot)
    requires slot in FinalizeOf(CandidatesForRooms(rooms, s), f).slots
    ensures exists c: CandidateSlot, room: RoomRecord ::
      && room in rooms && c.roomId == room.id && slot.roomId == c.roomId
      && slot.start == c.start && slot.end == c.end
      && slot.end - slot.start == s.slot.durationMs
      && s.slot.rangeStartMs <= slot.start && slot.end <= s.slot.rangeEndMs
      && ClearOfBlockers(c, room, s)
      && Passes(f, c)
  {
    var candidates := CandidatesForRooms(rooms, s);
    PageSound(candidates, f, slot);
    var c :| c in candidates && Passes(f, c) && slot == SlotFor(f, c);
    CandidatesForRoomsSound(rooms, s, c);
    var room :| room in rooms && c.roomId == room.id && ClearOfBlockers(c, room, s);
  }

  lemma CursorSound(candidates: seq<CandidateSlot>, f: FinalizeParams, t: int)
    requires FinalizeOf(candidates, f).nextCursor == Some(t)
    ensures exists c :: c in candidates && Passes(f, c) && c.start == t
  {
    var passing := Passing(candidates, f);
    var c := passing[PageLimit(f)];
    PassingMembers(candidates, f, c);
  }

  /** Without a cursor the page is complete: every candidate that passes is on it. */
  lemma LastPageComplete(candidates: seq<CandidateSlot>, f: FinalizeParams, c: CandidateSlot)
    requires FinalizeOf(candidates, f).nextCursor == None
    requires c in candidates && Passes(f, c)
    ensures SlotFor(f, c) in FinalizeOf(candidates, f).slots
  {
    PassingMembers(candidates, f, c);
    SlotsForMembers(f, Passing(candidates, f), SlotFor(f, c));
  }

  /** Candidates sorted by start give passing candidates sorted by start. */
  lemma {:induction false} PassingSorted(candidates: seq<CandidateSlot>, f: FinalizeParams)
    requires forall i, j :: 0 <= i < j < |candidates| ==> candidates[i].start <= candidates[j].start
    ensures var ps := Passing(candidates, f);
      forall i, j :: 0 <= i < j < |ps| ==> ps[i].start <= ps[j].start
  {
    if candidates != [] {
      var init := candidates[..|candidates| - 1];
      var last := candidates[|candidates| - 1];
      PassingSorted(init, f);
      var ps0 := Passing(init, f);
      forall c | c in ps0 ensures c.start <= last.start {
        PassingMembers(init, f, c);
      }
    }
  }

  /** On sorted candidates the cursor is not earlier than any slot of the page, so the next
      page, which starts at the cursor, does not go back in time. */
  lemma CursorAfterPage(candidates: seq<CandidateSlot>, f: FinalizeParams, s: Slot, t: int)
    requires forall i, j :: 0 <= i < j < |candidates| ==> candidates[i].start <= candidates[j].start
    requires FinalizeOf(candidates, f).nextCursor == Some(t)
    requires s in FinalizeOf(candidates, f).slots
    ensures s.start <= t
  {
    var passing := Passing(candidates, f);
    var n := PageLimit(f);
    PassingSorted(candidates, f);
    SlotsForMembers(f, passing[..n], s);
    var c :| c in passing[..n] && s == SlotFor(f, c);
    var k :| 0 <= k < n && passing[..n][k] == c;
    assert passing[k] == c;
  }
}
