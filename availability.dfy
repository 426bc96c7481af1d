/** The availability search `listAvailability` (src/features/availability/server.ts): input
    check and defaults, the calendar, reservation and equipment contexts, the up-front
    equipment check, candidate generation and the result page. The rows the search reads
    from the database are parameters. */
module Availability {
  import opened Wrappers
  import opened Intervals
  import opened Grouping
  import Time
  import Calendar
  import Conflicts
  import Slots
  import AvailabilitySchema

  // ---------------------------------------------------------------------------------------
  // Errors

  /** The errors of the search: an HTTP status, a code and a message; `name` is the error
      class, and a query error carries the query's error as its details. */
  datatype AvailabilityError = AvailabilityError(name: string, message: string, status: int, code: string, details: Option<string>)

  function InvalidInputError(): (e: AvailabilityError)
    ensures e.status == 422 && e.code == "INVALID_INPUT"
  {
    AvailabilityError("InvalidAvailabilityInputError", "Invalid listAvailability input", 422, "INVALID_INPUT", None)
  }

  function ResourceNotFoundError(resource: string): (e: AvailabilityError)
    ensures e.status == 404 && e.code == "AVAILABILITY_RESOURCE_NOT_FOUND"
    ensures e.message == resource + " not found"
  {
    AvailabilityError("AvailabilityResourceNotFoundError", resource + " not found", 404, "AVAILABILITY_RESOURCE_NOT_FOUND", None)
  }

  function QueryError(resource: string, details: string): (e: AvailabilityError)
    ensures e.status == 500 && e.code == "AVAILABILITY_QUERY_FAILED"
    ensures e.message == "Failed to fetch " + resource && e.details == Some(details)
  {
    AvailabilityError("AvailabilityQueryError", "Failed to fetch " + resource, 500, "AVAILABILITY_QUERY_FAILED", Some(details))
  }

  // ---------------------------------------------------------------------------------------
  // Defaults

  const DefaultPageSize: int := 50

  /** The checked request with its defaults filled in. */
  datatype NormalizedInput = NormalizedInput(
    tenantId: string,
    range: AvailabilitySchema.DateRange,
    serviceId: string,
    wanted: seq<Conflicts.EquipmentRequirement>,
    roomId: Option<string>,
    staffId: Option<string>,
    pageSize: int)

  function Requirement(w: AvailabilitySchema.WantedEquipmentInput): Conflicts.EquipmentRequirement {
    Conflicts.EquipmentRequirement(w.equipmentId, w.qty.Floor)
  }

  function Requirements(ws: seq<AvailabilitySchema.WantedEquipmentInput>): (r: seq<Conflicts.EquipmentRequirement>)
    ensures |r| == |ws|
    ensures forall k :: 0 <= k < |ws| ==> r[k] == Requirement(ws[k])
  {
    if ws == [] then [] else [Requirement(ws[0])] + Requirements(ws[1..])
  }

  /** `pageSize ?? 50` and `wantedEquipments ?? []` on a request the schema accepted: the page
      size is then between 1 and 50, and every requirement names an equipment and asks for at
      least one unit. */
  function Normalize(i: AvailabilitySchema.ListAvailabilityInput): (n: NormalizedInput)
    requires AvailabilitySchema.ValidInput(i)
    ensures 1 <= n.pageSize <= 50
    ensures n.pageSize == (if i.pageSize.Some? then i.pageSize.value.Floor else DefaultPageSize)
    ensures |n.wanted| == (if i.wantedEquipments.Some? then |i.wantedEquipments.value| else 0)
    ensures forall w :: w in n.wanted ==> |w.equipmentId| >= 1 && w.qty >= 1
  {
    var wanted := if i.wantedEquipments.Some? then Requirements(i.wantedEquipments.value) else [];
    assert forall w :: w in wanted ==> |w.equipmentId| >= 1 && w.qty >= 1 by {
      forall w | w in wanted ensures |w.equipmentId| >= 1 && w.qty >= 1 {
        var k :| 0 <= k < |wanted| && wanted[k] == w;
        assert i.wantedEquipments.value[k] in i.wantedEquipments.value;
      }
    }
    NormalizedInput(
      i.tenantId, i.range, i.serviceId, wanted, i.roomId, i.staffId,
      if i.pageSize.Some? then i.pageSize.value.Floor else DefaultPageSize)
  }

  // ---------------------------------------------------------------------------------------
  // The rows the search reads

  datatype ServiceRecord = ServiceRecord(id: string, durationMin: int, bufferBeforeMin: int, bufferAfterMin: int)

  /** What the data fetch returns: the service, the active rooms, the confirmed and in-use
      reservations and the calendar exceptions overlapping the window. */
  datatype AvailabilityData = AvailabilityData(
    service: ServiceRecord,
    rooms: seq<Slots.RoomRecord>,
    reservations: seq<Conflicts.ReservationScheduleRecord>,
    calendarExceptions: seq<Calendar.CalendarExceptionRecord>)

  /** The results of the three equipment queries: rows, or the query's error. */
  datatype EquipmentQueries = EquipmentQueries(
    equipments: Result<seq<Conflicts.EquipmentRecord>, string>,
    items: Result<seq<Conflicts.EquipmentItemRecord>, string>,
    usage: Result<seq<Conflicts.ReservationEquipmentItemRecord>, string>)

  // ---------------------------------------------------------------------------------------
  // Equipment

  /** The equipment context the search works with: the empty one when no equipment was
      requested, otherwise the one built from the queries, whose first failure (equipments,
      then items, then usage) is reported as an `AvailabilityQueryError`. */
  function EquipmentContextFor(wanted: seq<Conflicts.EquipmentRequirement>, q: EquipmentQueries, exceptions: map<string, seq<Interval>>)
    : Result<Conflicts.EquipmentAvailabilityContext, AvailabilityError>
  {
    if |wanted| == 0 then Success(Conflicts.CreateEmptyEquipmentContext(exceptions))
    else if q.equipments.Failure? then Failure(QueryError("equipments", q.equipments.error))
    else if q.items.Failure? then Failure(QueryError("equipment_items", q.items.error))
    else if q.usage.Failure? then Failure(QueryError("reservation_equipment_items", q.usage.error))
    else Success(Conflicts.EquipmentContextOf(q.equipments.value, q.items.value, q.usage.value, exceptions, Calendar.ParsePgRange))
  }

  /** Every requested equipment exists and is active. */
  predicate AllWantedActive(wanted: seq<Conflicts.EquipmentRequirement>, equipmentById: map<string, Conflicts.EquipmentRecord>) {
    forall w :: w in wanted ==> w.equipmentId in equipmentById && equipmentById[w.equipmentId].active
  }

  /** `validateEquipmentAvailability`: a missing or inactive equipment is a 404 naming
      `equipment`. */
  method ValidateEquipmentAvailability(wanted: seq<Conflicts.EquipmentRequirement>, equipmentById: map<string, Conflicts.EquipmentRecord>)
    returns (r: Outcome<AvailabilityError>)
    ensures r.Pass? <==> AllWantedActive(wanted, equipmentById)
    ensures r.Fail? ==> r.error == ResourceNotFoundError("equipment")
  {
    for i := 0 to |wanted|
      invariant forall k :: 0 <= k < i ==> wanted[k].equipmentId in equipmentById && equipmentById[wanted[k].equipmentId].active
    {
      var w := wanted[i];
      if w.equipmentId !in equipmentById || !equipmentById[w.equipmentId].active {
        assert w in wanted;
        return Fail(ResourceNotFoundError("equipment"));
      }
    }
    forall w | w in wanted ensures w.equipmentId in equipmentById && equipmentById[w.equipmentId].active {
      var k :| 0 <= k < |wanted| && wanted[k] == w;
    }
    return Pass;
  }

  // ---------------------------------------------------------------------------------------
  // The search

  function SearchContextFor(n: NormalizedInput, data: AvailabilityData): Slots.SearchContext {
    var cal := Calendar.CalendarContextOf(data.calendarExceptions);
    var res := Conflicts.ReservationContextOf(data.reservations, n.staffId);
    Slots.SearchContext(
      cal.tenantExceptions,
      cal.roomExceptionsById,
      res.roomReservationIntervals,
      Slots.SlotParams(
        Time.MinutesToMs(data.service.durationMin),
        Time.MinutesToMs(data.service.bufferBeforeMin),
        Time.MinutesToMs(data.service.bufferAfterMin),
        n.range.from.epochMs,
        n.range.to.epochMs),
      Time.ExtractTimezoneOffsetMinutes(n.range.from.text))
  }

  function FinalizeParamsFor(n: NormalizedInput, data: AvailabilityData, ctx: Conflicts.EquipmentAvailabilityContext): Slots.FinalizeParams {
    var cal := Calendar.CalendarContextOf(data.calendarExceptions);
    var res := Conflicts.ReservationContextOf(data.reservations, n.staffId);
    Slots.FinalizeParams(n.pageSize, n.wanted, n.staffId, res.staffReservationIntervals, cal.staffExceptionsById, ctx)
  }

  /** The outcome of `listAvailability` for a request, the fetched rows and the equipment
      query results. */
  function ListAvailabilityOf(input: AvailabilitySchema.ListAvailabilityInput, data: AvailabilityData, q: EquipmentQueries)
    : Result<Slots.ListResult, AvailabilityError>
  {
    if !AvailabilitySchema.ValidInput(input) then Failure(InvalidInputError())
    else
      var n := Normalize(input);
      var cal := Calendar.CalendarContextOf(data.calendarExceptions);
      match EquipmentContextFor(n.wanted, q, cal.equipmentExceptionsById)
      case Failure(e) => Failure(e)
      case Success(ctx) =>
        if !AllWantedActive(n.wanted, ctx.equipmentById) then Failure(ResourceNotFoundError("equipment"))
        else
          var candidates := Slots.CandidatesForRooms(data.rooms, SearchContextFor(n, data));
          if |candidates| == 0 then Success(Slots.ListResult([], None))
          else Success(Slots.FinalizeOf(candidates, FinalizeParamsFor(n, data, ctx)))
  }

  method LoadEquipmentContext(wanted: seq<Conflicts.EquipmentRequirement>, q: EquipmentQueries, exceptions: map<string, seq<Interval>>)
    returns (r: Result<Conflicts.EquipmentAvailabilityContext, AvailabilityError>)
    ensures r == EquipmentContextFor(wanted, q, exceptions)
  {
    if |wanted| == 0 {
      return Success(Conflicts.CreateEmptyEquipmentContext(exceptions));
    }
    var built := Conflicts.BuildEquipmentAvailabilityContext(q.equipments, q.items, q.usage, exceptions);
    if built.Failure? {
      return Failure(QueryError(built.error.resource, built.error.details));
    }
    return Success(built.value);
  }

  /** `listAvailability` from the input check onwards. */
  method ListAvailability(input: AvailabilitySchema.ListAvailabilityInput, data: AvailabilityData, q: EquipmentQueries)
    returns (r: Result<Slots.ListResult, AvailabilityError>)
    ensures r == ListAvailabilityOf(input, data, q)
  {
    if !AvailabilitySchema.ValidInput(input) {
      return Failure(InvalidInputError());
    }
    var n := Normalize(input);
    var rangeStartMs := n.range.from.epochMs;
    var rangeEndMs := n.range.to.epochMs;
    var timezoneOffsetMinutes := Time.ExtractTimezoneOffsetMinutes(n.range.from.text);

    var calendarContext := Calendar.BuildCalendarContext(data.calendarExceptions);
    var reservationContext := Conflicts.BuildReservationContext(data.reservations, n.staffId);
    var serviceDurationMs := Time.MinutesToMs(data.service.durationMin);
    var bufferBeforeMs := Time.MinutesToMs(data.service.bufferBeforeMin);
    var bufferAfterMs := Time.MinutesToMs(data.service.bufferAfterMin);

    var loaded := LoadEquipmentContext(n.wanted, q, calendarContext.equipmentExceptionsById);
    if loaded.Failure? {
      return Failure(loaded.error);
    }
    var equipmentContext := loaded.value;
    var validated := ValidateEquipmentAvailability(n.wanted, equipmentContext.equipmentById);
    if validated.Fail? {
      return Failure(validated.error);
    }

    var search := Slots.SearchContext(
      calendarContext.tenantExceptions, calendarContext.roomExceptionsById, reservationContext.roomReservationIntervals,
      Slots.SlotParams(serviceDurationMs, bufferBeforeMs, bufferAfterMs, rangeStartMs, rangeEndMs),
      timezoneOffsetMinutes);
    assert search == SearchContextFor(n, data);
    var candidateSlots := Slots.BuildCandidateSlotsForRooms(data.rooms, search);
    if |candidateSlots| == 0 {
      return Success(Slots.ListResult([], None));
    }
    var params := Slots.FinalizeParams(
      n.pageSize, n.wanted, n.staffId, reservationContext.staffReservationIntervals,
      calendarContext.staffExceptionsById, equipmentContext);
    var page := Slots.FinalizeSlots(candidateSlots, params);
    return Success(page);
  }

  // ---------------------------------------------------------------------------------------
  // What the search promises

  /** The stages a successful search went through: the input was valid, the equipment
      context was loaded, and the page is the finalised list of candidates (or empty when there
      are none). */
  lemma SearchStages(input: AvailabilitySchema.ListAvailabilityInput, data: AvailabilityData, q: EquipmentQueries)
    requires ListAvailabilityOf(input, data, q).Success?
    ensures AvailabilitySchema.ValidInput(input)
    ensures var n := Normalize(input);
      var cal := Calendar.CalendarContextOf(data.calendarExceptions);
      var loaded := EquipmentContextFor(n.wanted, q, cal.equipmentExceptionsById);
      var candidates := Slots.CandidatesForRooms(data.rooms, SearchContextFor(n, data));
      && loaded.Success?
      && ListAvailabilityOf(input, data, q).value ==
         if |candidates| == 0 then Slots.ListResult([], None)
         else Slots.FinalizeOf(candidates, FinalizeParamsFor(n, data, loaded.value))
  {
  }

  /** A returned page holds at most the requested page size (50 by default). */
  lemma ListAvailabilityPageBound(input: AvailabilitySchema.ListAvailabilityInput, data: AvailabilityData, q: EquipmentQueries)
    requires ListAvailabilityOf(input, data, q).Success?
    ensures |ListAvailabilityOf(input, data, q).value.slots| <= if input.pageSize.Some? then input.pageSize.value.Floor else DefaultPageSize
  {
    SearchStages(input, data, q);
    var n := Normalize(input);
    var ctx := EquipmentContextFor(n.wanted, q, Calendar.CalendarContextOf(data.calendarExceptions).equipmentExceptionsById).value;
    var candidates := Slots.CandidatesForRooms(data.rooms, SearchContextFor(n, data));
    if |candidates| > 0 {
      Slots.PageBound(candidates, FinalizeParamsFor(n, data, ctx));
    }
  }

  /** Every slot on a returned page is a start in one of the rooms: inside the window with the
      service's duration, inside the room's open hours, clear of tenant and room exceptions and
      of the room's reservations, and, for its occupied interval, free for the requested staff
      member and served by the requested equipment. */
  lemma ListAvailabilitySound(input: AvailabilitySchema.ListAvailabilityInput, data: AvailabilityData, q: EquipmentQueries, s: Slots.Slot)
    requires ListAvailabilityOf(input, data, q).Success?
    requires s in ListAvailabilityOf(input, data, q).value.slots
    ensures var n := Normalize(input);
      var search := SearchContextFor(n, data);
      exists c: Slots.CandidateSlot, room: Slots.RoomRecord ::
        && room in data.rooms && c.roomId == room.id && s.roomId == c.roomId
        && s.start == c.start && s.end == c.end
        && s.end - s.start == Time.MinutesToMs(data.service.durationMin)
        && input.range.from.epochMs <= s.start && s.end <= input.range.to.epochMs
        && Slots.ClearOfBlockers(c, room, search)
        && Slots.Passes(FinalizeParamsFor(n, data, EquipmentContextFor(n.wanted, q, Calendar.CalendarContextOf(data.calendarExceptions).equipmentExceptionsById).value), c)
  {
    SearchStages(input, data, q);
    var n := Normalize(input);
    var ctx := EquipmentContextFor(n.wanted, q, Calendar.CalendarContextOf(data.calendarExceptions).equipmentExceptionsById).value;
    Slots.PageSlotSound(data.rooms, SearchContextFor(n, data), FinalizeParamsFor(n, data, ctx), s);
  }

  /** Without requested equipment the equipment queries are never consulted. */
  lemma NoEquipmentNoQueries(input: AvailabilitySchema.ListAvailabilityInput, data: AvailabilityData, q1: EquipmentQueries, q2: EquipmentQueries)
    requires input.wantedEquipments.None? || input.wantedEquipments == Some([])
    ensures ListAvailabilityOf(input, data, q1) == ListAvailabilityOf(input, data, q2)
  {
    if AvailabilitySchema.ValidInput(input) {
      assert |Normalize(input).wanted| == 0;
    }
  }

  /** A requested equipment that no equipment row describes, or whose row is inactive, stops a
      valid search with a 404 naming `equipment` once the queries have succeeded. */
  lemma MissingEquipmentNotFound(input: AvailabilitySchema.ListAvailabilityInput, data: AvailabilityData, q: EquipmentQueries, id: string)
    requires AvailabilitySchema.ValidInput(input)
    requires q.equipments.Success? && q.items.Success? && q.usage.Success?
    requires exists w :: w in Normalize(input).wanted && w.equipmentId == id
    requires forall e :: e in q.equipments.value && e.id == id ==> !e.active
    ensures ListAvailabilityOf(input, data, q) == Failure(ResourceNotFoundError("equipment"))
  {
    var n := Normalize(input);
    var cal := Calendar.CalendarContextOf(data.calendarExceptions);
    var byId := IndexBy(q.equipments.value, Conflicts.EquipmentKey);
    assert !AllWantedActive(n.wanted, byId) by {
      var w :| w in n.wanted && w.equipmentId == id;
      IndexByLastWins(q.equipments.value, Conflicts.EquipmentKey, id);
      if id in byId {
        var k :| 0 <= k < |q.equipments.value| && byId[id] == q.equipments.value[k] && Conflicts.EquipmentKey(q.equipments.value[k]) == id;
        assert q.equipments.value[k] in q.equipments.value;
      }
    }
    var ctx := EquipmentContextFor(n.wanted, q, cal.equipmentExceptionsById);
    assert ctx.Success? && ctx.value.equipmentById == byId;
  }
}
