/** Reservation conflict data (src/features/reservations/conflicts.ts): occupied intervals of
    rooms and of one staff member built from reservation rows, the equipment stock/usage
    context built from equipment, item and item-usage rows, and the check that every requested
    equipment quantity is free over a candidate's occupied interval. The database queries are
    outside the model: their rows (or their failure) are parameters. */
module Conflicts {
  import opened Wrappers
  import opened Intervals
  import opened Grouping
  import Calendar

  /** JavaScript truthiness of a nullable string: present and not the empty string. */
  predicate Truthy(s: Option<string>) {
    s.Some? && s.value != ""
  }

  // ---------------------------------------------------------------------------------------
  // Room and staff occupation

  datatype ReservationScheduleRecord = ReservationScheduleRecord(
    roomId: Option<string>, staffId: Option<string>, timeRange: Option<string>)

  datatype ReservationContext = ReservationContext(
    roomReservationIntervals: map<string, seq<Interval>>,
    staffReservationIntervals: seq<Interval>)

  /** How `buildRoomReservationMap` files a row: under its room, when it has a room and a
      range that parses. */
  function RoomEntry(parse: Calendar.RangeParser): ReservationScheduleRecord -> Option<(string, Interval)> {
    (r: ReservationScheduleRecord) =>
      if Truthy(r.roomId) && Truthy(r.timeRange) && parse(r.timeRange.value).Some?
      then Some((r.roomId.value, parse(r.timeRange.value).value))
      else None
  }

  function RoomReservationMapOf(rs: seq<ReservationScheduleRecord>, parse: Calendar.RangeParser): map<string, seq<Interval>> {
    SortGroups(GroupBy(rs, RoomEntry(parse)))
  }

  /** `buildRoomReservationMap`. */
  method BuildRoomReservationMap(records: seq<ReservationScheduleRecord>) returns (m: map<string, seq<Interval>>)
    ensures m == RoomReservationMapOf(records, Calendar.ParsePgRange)
  {
    m := map[];
    for i := 0 to |records|
      invariant m == GroupBy(records[..i], RoomEntry(Calendar.ParsePgRange))
    {
      GroupByStep(records, i, RoomEntry(Calendar.ParsePgRange));
      var record := records[i];
      if !Truthy(record.roomId) || !Truthy(record.timeRange) {
        continue;
      }
      var interval := Calendar.ParsePgRange(record.timeRange.value);
      if interval.None? {
        continue;
      }
      var list := Lookup(m, record.roomId.value);
      m := m[record.roomId.value := list + [interval.value]];
    }
    assert records[..|records|] == records;
    m := map k | k in m :: SortByStart(m[k]);
  }

  lemma RoomEntryIff(parse: Calendar.RangeParser, r: ReservationScheduleRecord, room: string, iv: Interval)
    ensures RoomEntry(parse)(r) == Some((room, iv)) <==>
      r.roomId == Some(room) && room != "" && Truthy(r.timeRange) && parse(r.timeRange.value) == Some(iv)
  {
    var e := RoomEntry(parse)(r);
    assert e == if Truthy(r.roomId) && Truthy(r.timeRange) && parse(r.timeRange.value).Some?
      then Some((r.roomId.value, parse(r.timeRange.value).value)) else None;
  }

  /** A room's list holds exactly the parsed ranges of the rows booked on that room, sorted by
      start; rows without a room or a range, or whose range does not parse, are dropped. */
  lemma RoomReservationPlacement(rs: seq<ReservationScheduleRecord>, parse: Calendar.RangeParser, room: string, iv: Interval)
    ensures iv in Lookup(RoomReservationMapOf(rs, parse), room) <==>
      exists r :: r in rs && r.roomId == Some(room) && room != "" && Truthy(r.timeRange) && parse(r.timeRange.value) == Some(iv)
    ensures var list := Lookup(RoomReservationMapOf(rs, parse), room);
      forall i, j :: 0 <= i < j < |list| ==> list[i].start <= list[j].start
  {
    var f := RoomEntry(parse);
    SortedGroupMembers(GroupBy(rs, f), room, iv);
    GroupMembers(rs, f, room, iv);
    forall r | r in rs
      ensures f(r) == Some((room, iv)) <==>
        r.roomId == Some(room) && room != "" && Truthy(r.timeRange) && parse(r.timeRange.value) == Some(iv)
    {
      RoomEntryIff(parse, r, room, iv);
    }
  }

  /** The range a row contributes to the list of staff member `staffId`. */
  function StaffEntry(staffId: string, parse: Calendar.RangeParser): ReservationScheduleRecord -> Option<Interval> {
    (r: ReservationScheduleRecord) =>
      if r.staffId == Some(staffId) && Truthy(r.timeRange) then parse(r.timeRange.value) else None
  }

  function StaffReservationListOf(rs: seq<ReservationScheduleRecord>, staffId: Option<string>, parse: Calendar.RangeParser): seq<Interval> {
    if !Truthy(staffId) then [] else SortByStart(Pick(rs, StaffEntry(staffId.value, parse)))
  }

  /** `buildStaffReservationList`: no staff id (or an empty one) gives the empty list. */
  method BuildStaffReservationList(records: seq<ReservationScheduleRecord>, staffId: Option<string>)
    returns (intervals: seq<Interval>)
    ensures intervals == StaffReservationListOf(records, staffId, Calendar.ParsePgRange)
  {
    if !Truthy(staffId) {
      return [];
    }
    intervals := [];
    for i := 0 to |records|
      invariant intervals == Pick(records[..i], StaffEntry(staffId.value, Calendar.ParsePgRange))
    {
      PickStep(records, i, StaffEntry(staffId.value, Calendar.ParsePgRange));
      var record := records[i];
      if record.staffId != staffId || !Truthy(record.timeRange) {
        continue;
      }
      var interval := Calendar.ParsePgRange(record.timeRange.value);
      if interval.Some? {
        intervals := intervals + [interval.value];
      }
    }
    assert records[..|records|] == records;
    intervals := SortByStart(intervals);
  }

  /** The staff list holds exactly the parsed ranges of the rows assigned to that staff
      member, sorted by start, and nothing when no staff id is given. */
  lemma StaffReservationPlacement(rs: seq<ReservationScheduleRecord>, staffId: Option<string>, parse: Calendar.RangeParser, iv: Interval)
    ensures iv in StaffReservationListOf(rs, staffId, parse) <==>
      Truthy(staffId) &&
      exists r :: r in rs && r.staffId == staffId && Truthy(r.timeRange) && parse(r.timeRange.value) == Some(iv)
    ensures var list := StaffReservationListOf(rs, staffId, parse);
      forall i, j :: 0 <= i < j < |list| ==> list[i].start <= list[j].start
  {
    if Truthy(staffId) {
      var f := StaffEntry(staffId.value, parse);
      PickMembers(rs, f, iv);
      Sorting.SameElements(SortByStart(Pick(rs, f)), Pick(rs, f), iv);
    }
  }

  function ReservationContextOf(rs: seq<ReservationScheduleRecord>, staffId: Option<string>): ReservationContext {
    ReservationContext(
      RoomReservationMapOf(rs, Calendar.ParsePgRange),
      StaffReservationListOf(rs, staffId, Calendar.ParsePgRange))
  }

  /** `buildReservationContext`. */
  method BuildReservationContext(records: seq<ReservationScheduleRecord>, staffId: Option<string>)
    returns (ctx: ReservationContext)
    ensures ctx == ReservationContextOf(records, staffId)
  {
    var rooms := BuildRoomReservationMap(records);
    var staff := BuildStaffReservationList(records, staffId);
    ctx := ReservationContext(rooms, staff);
  }

  // ---------------------------------------------------------------------------------------
  // Overlap

  /** Some interval of the list overlaps `[start, end)`. */
  predicate AnyOverlap(intervals: seq<Interval>, start: int, end: int) {
    exists iv :: iv in intervals && OverlapsRange(iv, start, end)
  }

  /** `hasAnyOverlap`: a scan that stops at the first overlapping interval. */
  method HasAnyOverlap(intervals: seq<Interval>, start: int, end: int) returns (found: bool)
    ensures found <==> AnyOverlap(intervals, start, end)
  {
    for i := 0 to |intervals|
      invariant forall k :: 0 <= k < i ==> !OverlapsRange(intervals[k], start, end)
    {
      if intervals[i].start < end && start < intervals[i].end {
        assert intervals[i] in intervals;
        return true;
      }
    }
    return false;
  }

  // ---------------------------------------------------------------------------------------
  // Equipment context

  datatype EquipmentRecord = EquipmentRecord(id: string, trackSerial: bool, stock: int, active: bool)

  datatype ItemStatus = Available | Repair | Lost

  datatype EquipmentItemRecord = EquipmentItemRecord(id: string, equipmentId: string, status: ItemStatus)

  datatype ReservationEquipmentItemRecord = ReservationEquipmentItemRecord(
    equipmentItemId: string, reservationTimeRange: Option<string>)

  datatype EquipmentAvailabilityContext = EquipmentAvailabilityContext(
    equipmentById: map<string, EquipmentRecord>,
    availableItemsByEquipmentId: map<string, seq<EquipmentItemRecord>>,
    equipmentUsageByEquipmentId: map<string, seq<Interval>>,
    equipmentUsageByItemId: map<string, seq<Interval>>,
    equipmentExceptionsById: map<string, seq<Interval>>)

  const QueryFailedCode: string := "RESERVATIONS_QUERY_FAILED"

  /** `ConflictQueryError`: a failed fetch of `resource`, status 500, with the query's error as
      its details. */
  datatype ConflictQueryError = ConflictQueryError(resource: string, message: string, status: int, code: string, details: string)

  function QueryError(resource: string, details: string): (e: ConflictQueryError)
    ensures e.resource == resource && e.status == 500 && e.code == QueryFailedCode
    ensures e.message == "Failed to fetch " + resource && e.details == details
  {
    ConflictQueryError(resource, "Failed to fetch " + resource, 500, QueryFailedCode, details)
  }

  function EquipmentKey(e: EquipmentRecord): string {
    e.id
  }

  function ItemKey(item: EquipmentItemRecord): string {
    item.id
  }

  /** Items that can be lent are filed under their SKU; items under repair or lost are not. */
  function AvailableEntry(item: EquipmentItemRecord): Option<(string, EquipmentItemRecord)> {
    if item.status == Available then Some((item.equipmentId, item)) else None
  }

  /** The known item a usage row refers to and its parsed range; `None` for a row whose item is
      unknown or whose range is missing, empty or unparseable. */
  function UsageOf(itemById: map<string, EquipmentItemRecord>, parse: Calendar.RangeParser, r: ReservationEquipmentItemRecord)
    : Option<(EquipmentItemRecord, Interval)>
  {
    if r.equipmentItemId !in itemById || !Truthy(r.reservationTimeRange) then None
    else match parse(r.reservationTimeRange.value)
      case None => None
      case Some(iv) => Some((itemById[r.equipmentItemId], iv))
  }

  function ItemUsageEntry(itemById: map<string, EquipmentItemRecord>, parse: Calendar.RangeParser)
    : ReservationEquipmentItemRecord -> Option<(string, Interval)>
  {
    (r: ReservationEquipmentItemRecord) =>
      var u := UsageOf(itemById, parse, r);
      if u.Some? then Some((u.value.0.id, u.value.1)) else None
  }

  function SkuUsageEntry(itemById: map<string, EquipmentItemRecord>, parse: Calendar.RangeParser)
    : ReservationEquipmentItemRecord -> Option<(string, Interval)>
  {
    (r: ReservationEquipmentItemRecord) =>
      var u := UsageOf(itemById, parse, r);
      if u.Some? then Some((u.value.0.equipmentId, u.value.1)) else None
  }

  /** The context `buildEquipmentAvailabilityContext` derives from the fetched rows. */
  function EquipmentContextOf(
    equipments: seq<EquipmentRecord>, items: seq<EquipmentItemRecord>, usage: seq<ReservationEquipmentItemRecord>,
    exceptions: map<string, seq<Interval>>, parse: Calendar.RangeParser): EquipmentAvailabilityContext
  {
    var itemById := IndexBy(items, ItemKey);
    EquipmentAvailabilityContext(
      IndexBy(equipments, EquipmentKey),
      GroupBy(items, AvailableEntry),
      GroupBy(usage, SkuUsageEntry(itemById, parse)),
      GroupBy(usage, ItemUsageEntry(itemById, parse)),
      exceptions)
  }

  /** `buildEquipmentAvailabilityContext`, given the results of its three queries (rows or a
      failure). The first failed query, in the order equipments, items, usage, is reported. */
  method BuildEquipmentAvailabilityContext(
    equipmentsResult: Result<seq<EquipmentRecord>, string>,
    itemsResult: Result<seq<EquipmentItemRecord>, string>,
    usageResult: Result<seq<ReservationEquipmentItemRecord>, string>,
    exceptions: map<string, seq<Interval>>)
    returns (r: Result<EquipmentAvailabilityContext, ConflictQueryError>)
    ensures equipmentsResult.Failure? ==> r == Failure(QueryError("equipments", equipmentsResult.error))
    ensures equipmentsResult.Success? && itemsResult.Failure? ==> r == Failure(QueryError("equipment_items", itemsResult.error))
    ensures equipmentsResult.Success? && itemsResult.Success? && usageResult.Failure? ==>
      r == Failure(QueryError("reservation_equipment_items", usageResult.error))
    ensures equipmentsResult.Success? && itemsResult.Success? && usageResult.Success? ==>
      r == Success(EquipmentContextOf(equipmentsResult.value, itemsResult.value, usageResult.value, exceptions, Calendar.ParsePgRange))
  {
    if equipmentsResult.Failure? {
      return Failure(QueryError("equipments", equipmentsResult.error));
    }
    if itemsResult.Failure? {
      return Failure(QueryError("equipment_items", itemsResult.error));
    }
    if usageResult.Failure? {
      return Failure(QueryError("reservation_equipment_items", usageResult.error));
    }
    var equipments, items, usage := equipmentsResult.value, itemsResult.value, usageResult.value;

    var equipmentById: map<string, EquipmentRecord> := map[];
    for i := 0 to |equipments|
      invariant equipmentById == IndexBy(equipments[..i], EquipmentKey)
    {
      IndexByStep(equipments, i, EquipmentKey);
      equipmentById := equipmentById[equipments[i].id := equipments[i]];
    }
    assert equipments[..|equipments|] == equipments;

    var availableItems: map<string, seq<EquipmentItemRecord>> := map[];
    var itemById: map<string, EquipmentItemRecord> := map[];
    for i := 0 to |items|
      invariant itemById == IndexBy(items[..i], ItemKey)
      invariant availableItems == GroupBy(items[..i], AvailableEntry)
    {
      IndexByStep(items, i, ItemKey);
      GroupByStep(items, i, AvailableEntry);
      var item := items[i];
      itemById := itemById[item.id := item];
      if item.status != Available {
        continue;
      }
      var list := Lookup(availableItems, item.equipmentId);
      availableItems := availableItems[item.equipmentId := list + [item]];
    }
    assert items[..|items|] == items;

    var byItem: map<string, seq<Interval>> := map[];
    var byEquipment: map<string, seq<Interval>> := map[];
    for i := 0 to |usage|
      invariant byItem == GroupBy(usage[..i], ItemUsageEntry(itemById, Calendar.ParsePgRange))
      invariant byEquipment == GroupBy(usage[..i], SkuUsageEntry(itemById, Calendar.ParsePgRange))
    {
      GroupByStep(usage, i, ItemUsageEntry(itemById, Calendar.ParsePgRange));
      GroupByStep(usage, i, SkuUsageEntry(itemById, Calendar.ParsePgRange));
      var record := usage[i];
      if record.equipmentItemId !in itemById {
        continue;
      }
      var item := itemById[record.equipmentItemId];
      var interval := if Truthy(record.reservationTimeRange)
        then Calendar.ParsePgRange(record.reservationTimeRange.value) else None;
      if interval.None? {
        continue;
      }
      var itemList := Lookup(byItem, item.id);
      byItem := byItem[item.id := itemList + [interval.value]];
      var equipmentList := Lookup(byEquipment, item.equipmentId);
      byEquipment := byEquipment[item.equipmentId := equipmentList + [interval.value]];
    }
    assert usage[..|usage|] == usage;
    r := Success(EquipmentAvailabilityContext(equipmentById, availableItems, byEquipment, byItem, exceptions));
  }

  /** `createEmptyEquipmentContext`: no equipment, items or usage; the exceptions are kept. */
  function CreateEmptyEquipmentContext(exceptions: map<string, seq<Interval>>): (ctx: EquipmentAvailabilityContext)
    ensures ctx.equipmentById == map[] && ctx.availableItemsByEquipmentId == map[]
    ensures ctx.equipmentUsageByEquipmentId == map[] && ctx.equipmentUsageByItemId == map[]
    ensures ctx.equipmentExceptionsById == exceptions
  {
    EquipmentAvailabilityContext(map[], map[], map[], map[], exceptions)
  }

  /** An available item is filed under its SKU exactly when it is in the rows with status
      `available`. */
  lemma AvailableItemsPlacement(items: seq<EquipmentItemRecord>, equipmentId: string, item: EquipmentItemRecord)
    ensures item in Lookup(GroupBy(items, AvailableEntry), equipmentId) <==>
      item in items && item.status == Available && item.equipmentId == equipmentId
  {
    GroupMembers(items, AvailableEntry, equipmentId, item);
  }

  /** The usage recorded for an item is exactly the parsed ranges of the usage rows that
      refer to that item, when the item is among the fetched items. */
  lemma ItemUsagePlacement(items: seq<EquipmentItemRecord>, usage: seq<ReservationEquipmentItemRecord>,
                           parse: Calendar.RangeParser, itemId: string, iv: Interval)
    ensures var itemById := IndexBy(items, ItemKey);
      iv in Lookup(GroupBy(usage, ItemUsageEntry(itemById, parse)), itemId) <==>
        itemId in itemById &&
        exists r :: r in usage && r.equipmentItemId == itemId && Truthy(r.reservationTimeRange) &&
          parse(r.reservationTimeRange.value) == Some(iv)
  {
    var itemById := IndexBy(items, ItemKey);
    var f := ItemUsageEntry(itemById, parse);
    IndexByLastWins(items, ItemKey, itemId);
    GroupMembers(usage, f, itemId, iv);
    forall r | r in usage
      ensures f(r) == Some((itemId, iv)) <==>
        itemId in itemById && r.equipmentItemId == itemId && Truthy(r.reservationTimeRange) &&
        parse(r.reservationTimeRange.value) == Some(iv)
    {
      KeyOfIndexed(items, r.equipmentItemId);
    }
  }

  /** The usage recorded for a SKU is exactly the parsed ranges of the usage rows whose item
      (as last fetched) belongs to that SKU, whatever the item's status. */
  lemma SkuUsagePlacement(items: seq<EquipmentItemRecord>, usage: seq<ReservationEquipmentItemRecord>,
                          parse: Calendar.RangeParser, equipmentId: string, iv: Interval)
    ensures var itemById := IndexBy(items, ItemKey);
      iv in Lookup(GroupBy(usage, SkuUsageEntry(itemById, parse)), equipmentId) <==>
        exists r :: r in usage && r.equipmentItemId in itemById && itemById[r.equipmentItemId].equipmentId == equipmentId &&
          Truthy(r.reservationTimeRange) && parse(r.reservationTimeRange.value) == Some(iv)
  {
    var itemById := IndexBy(items, ItemKey);
    GroupMembers(usage, SkuUsageEntry(itemById, parse), equipmentId, iv);
  }

  /** The item stored under a key has that key as its id. */
  lemma KeyOfIndexed(items: seq<EquipmentItemRecord>, k: string)
    ensures k in IndexBy(items, ItemKey) ==> IndexBy(items, ItemKey)[k].id == k
  {
    IndexByLastWins(items, ItemKey, k);
  }

  // ---------------------------------------------------------------------------------------
  // Equipment check

  datatype EquipmentRequirement = EquipmentRequirement(equipmentId: string, qty: int)

  /** A candidate's occupied interval, buffers included. */
  datatype OccupiedInterval = OccupiedInterval(occupiedStart: int, occupiedEnd: int)

  /** How many of the intervals overlap `[start, end)`: the length of `usage.filter(...)`. */
  function CountOverlapping(intervals: seq<Interval>, start: int, end: int): (n: nat)
    ensures n <= |intervals|
  {
    if intervals == [] then 0
    else
      var last := intervals[|intervals| - 1];
      CountOverlapping(intervals[..|intervals| - 1], start, end) + (if OverlapsRange(last, start, end) then 1 else 0)
  }

  /** How many of the items have some usage overlapping `[start, end)`. */
  function CountBusyItems(items: seq<EquipmentItemRecord>, usageByItem: map<string, seq<Interval>>, start: int, end: int): (n: nat)
    ensures n <= |items|
  {
    if items == [] then 0
    else
      var last := items[|items| - 1];
      CountBusyItems(items[..|items| - 1], usageByItem, start, end)
        + (if AnyOverlap(Lookup(usageByItem, last.id), start, end) then 1 else 0)
  }

  /** Units of a SKU: its available items or its stock, whichever is larger. */
  function Capacity(ctx: EquipmentAvailabilityContext, equipmentId: string): int
    requires equipmentId in ctx.equipmentById
  {
    Max(|Lookup(ctx.availableItemsByEquipmentId, equipmentId)|, ctx.equipmentById[equipmentId].stock)
  }

  /** Units in use over `[start, end)`: the busy available items when the SKU has any,
      otherwise the overlapping usage intervals recorded for the SKU. */
  function BusyCount(ctx: EquipmentAvailabilityContext, equipmentId: string, start: int, end: int): nat {
    var items := Lookup(ctx.availableItemsByEquipmentId, equipmentId);
    if |items| > 0 then CountBusyItems(items, ctx.equipmentUsageByItemId, start, end)
    else CountOverlapping(Lookup(ctx.equipmentUsageByEquipmentId, equipmentId), start, end)
  }

  /** One requirement can be served over the candidate: the SKU is known, no exception of it
      overlaps, it has some capacity, and the free units cover the quantity. */
  predicate RequirementMet(ctx: EquipmentAvailabilityContext, wanted: EquipmentRequirement, c: OccupiedInterval) {
    && wanted.equipmentId in ctx.equipmentById
    && !AnyOverlap(Lookup(ctx.equipmentExceptionsById, wanted.equipmentId), c.occupiedStart, c.occupiedEnd)
    && Capacity(ctx, wanted.equipmentId) != 0
    && Capacity(ctx, wanted.equipmentId) - BusyCount(ctx, wanted.equipmentId, c.occupiedStart, c.occupiedEnd) >= wanted.qty
  }

  predicate EquipmentAvailable(wanted: seq<EquipmentRequirement>, c: OccupiedInterval, ctx: EquipmentAvailabilityContext) {
    forall w :: w in wanted ==> RequirementMet(ctx, w, c)
  }

  method CountBusy(ctx: EquipmentAvailabilityContext, equipmentId: string, start: int, end: int) returns (busy: nat)
    ensures busy == BusyCount(ctx, equipmentId, start, end)
  {
    var items := Lookup(ctx.availableItemsByEquipmentId, equipmentId);
    busy := 0;
    if |items| > 0 {
      for i := 0 to |items|
        invariant busy == CountBusyItems(items[..i], ctx.equipmentUsageByItemId, start, end)
      {
        assert items[..i + 1][..i] == items[..i];
        var usage := Lookup(ctx.equipmentUsageByItemId, items[i].id);
        var used := HasAnyOverlap(usage, start, end);
        if used {
          busy := busy + 1;
        }
      }
      assert items[..|items|] == items;
    } else {
      var usage := Lookup(ctx.equipmentUsageByEquipmentId, equipmentId);
      for i := 0 to |usage|
        invariant busy == CountOverlapping(usage[..i], start, end)
      {
        assert usage[..i + 1][..i] == usage[..i];
        if usage[i].start < end && start < usage[i].end {
          busy := busy + 1;
        }
      }
      assert usage[..|usage|] == usage;
    }
  }

  /** `checkEquipmentAvailability`: true exactly when every requirement can be served; it
      stops at the first requirement that cannot. */
  method CheckEquipmentAvailability(wanted: seq<EquipmentRequirement>, candidate: OccupiedInterval, ctx: EquipmentAvailabilityContext)
    returns (ok: bool)
    ensures ok <==> EquipmentAvailable(wanted, candidate, ctx)
  {
    if |wanted| == 0 {
      return true;
    }
    for i := 0 to |wanted|
      invariant forall k :: 0 <= k < i ==> RequirementMet(ctx, wanted[k], candidate)
    {
      var w := wanted[i];
      assert w in wanted;
      if w.equipmentId !in ctx.equipmentById {
        return false;
      }
      var equipment := ctx.equipmentById[w.equipmentId];
      var exceptions := Lookup(ctx.equipmentExceptionsById, w.equipmentId);
      var closed := HasAnyOverlap(exceptions, candidate.occupiedStart, candidate.occupiedEnd);
      if closed {
        return false;
      }
      var availableItems := Lookup(ctx.availableItemsByEquipmentId, w.equipmentId);
      var capacity := Max(|availableItems|, equipment.stock);
      if capacity == 0 {
        return false;
      }
      var busy := CountBusy(ctx, w.equipmentId, candidate.occupiedStart, candidate.occupiedEnd);
      if capacity - busy < w.qty {
        return false;
      }
    }
    forall w | w in wanted ensures RequirementMet(ctx, w, candidate) {
      var k :| 0 <= k < |wanted| && wanted[k] == w;
    }
    return true;
  }

  /** No interval is counted exactly when none overlaps. */
  lemma {:induction false} CountOverlappingZeroIff(intervals: seq<Interval>, start: int, end: int)
    ensures CountOverlapping(intervals, start, end) == 0 <==> !AnyOverlap(intervals, start, end)
  {
    if intervals != [] {
      var init := intervals[..|intervals| - 1];
      var last := intervals[|intervals| - 1];
      CountOverlappingZeroIff(init, start, end);
      assert intervals == init + [last];
      if AnyOverlap(intervals, start, end) && !OverlapsRange(last, start, end) {
        var iv :| iv in intervals && OverlapsRange(iv, start, end);
        assert iv in init;
      }
      if AnyOverlap(init, start, end) {
        var iv :| iv in init && OverlapsRange(iv, start, end);
        assert iv in intervals;
      }
    }
  }

  /** Counting overlaps of a concatenation adds up. */
  lemma {:induction false} CountOverlappingAppend(a: seq<Interval>, b: seq<Interval>, start: int, end: int)
    ensures CountOverlapping(a + b, start, end) == CountOverlapping(a, start, end) + CountOverlapping(b, start, end)
  {
    if b == [] {
      assert a + b == a;
    } else {
      var init := b[..|b| - 1];
      CountOverlappingAppend(a, init, start, end);
      assert (a + b)[..|a + b| - 1] == a + init;
    }
  }

  /** No item is busy exactly when none of them has overlapping usage. */
  lemma {:induction false} CountBusyItemsZeroIff(items: seq<EquipmentItemRecord>, usageByItem: map<string, seq<Interval>>, start: int, end: int)
    ensures CountBusyItems(items, usageByItem, start, end) == 0 <==>
      forall item :: item in items ==> !AnyOverlap(Lookup(usageByItem, item.id), start, end)
  {
    if items != [] {
      var init := items[..|items| - 1];
      var last := items[|items| - 1];
      CountBusyItemsZeroIff(init, usageByItem, start, end);
      assert items == init + [last];
    }
  }

  /** For a SKU backed by available items the busy units never exceed the capacity, so the
      free units are never negative. */
  lemma ItemBackedFreeUnitsNonNegative(ctx: EquipmentAvailabilityContext, equipmentId: string, start: int, end: int)
    requires equipmentId in ctx.equipmentById
    requires |Lookup(ctx.availableItemsByEquipmentId, equipmentId)| > 0
    ensures 0 <= BusyCount(ctx, equipmentId, start, end) <= Capacity(ctx, equipmentId)
  {
  }

  /** A requirement for a known SKU with no exception and no usage overlapping the candidate
      is served whenever its positive quantity fits in the capacity. */
  lemma IdleEquipmentServes(ctx: EquipmentAvailabilityContext, wanted: EquipmentRequirement, c: OccupiedInterval)
    requires wanted.equipmentId in ctx.equipmentById
    requires !AnyOverlap(Lookup(ctx.equipmentExceptionsById, wanted.equipmentId), c.occupiedStart, c.occupiedEnd)
    requires forall item :: item in Lookup(ctx.availableItemsByEquipmentId, wanted.equipmentId) ==>
      !AnyOverlap(Lookup(ctx.equipmentUsageByItemId, item.id), c.occupiedStart, c.occupiedEnd)
    requires !AnyOverlap(Lookup(ctx.equipmentUsageByEquipmentId, wanted.equipmentId), c.occupiedStart, c.occupiedEnd)
    requires 0 < wanted.qty <= Capacity(ctx, wanted.equipmentId)
    ensures RequirementMet(ctx, wanted, c)
  {
    CountBusyItemsZeroIff(Lookup(ctx.availableItemsByEquipmentId, wanted.equipmentId), ctx.equipmentUsageByItemId,
      c.occupiedStart, c.occupiedEnd);
    CountOverlappingZeroIff(Lookup(ctx.equipmentUsageByEquipmentId, wanted.equipmentId), c.occupiedStart, c.occupiedEnd);
  }

  /** With the empty context (no equipment requested by the caller) only the empty list of
      requirements passes: any requirement names an unknown SKU. */
  lemma EmptyContextServesNothing(exceptions: map<string, seq<Interval>>, wanted: seq<EquipmentRequirement>, c: OccupiedInterval)
    ensures EquipmentAvailable(wanted, c, CreateEmptyEquipmentContext(exceptions)) <==> wanted == []
  {
    if wanted != [] {
      assert wanted[0] in wanted;
    }
  }
}
