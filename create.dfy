/** The booking flow, `createReservationAction`: validate the request, resolve the service,
    room, customer and staff it names, work out the occupied interval, check it against the
    calendar exceptions, the room's and the staff member's reservations and the equipment
    capacity, allocate serial-tracked items, write the reservation, and turn every error
    into a status, a code and a message. What the database answers to each query is given as
    a snapshot; the rows written go to a `Persistence.ReservationStore`. */
module Create {
  import opened Wrappers
  import opened Intervals
  import opened Grouping
  import Time
  import Errors
  import Calendar
  import Conflicts
  import Validation
  import EquipmentAllocation
  import Persistence

  datatype ServiceRow = ServiceRow(id: string, durationMin: int, bufferBeforeMin: int, bufferAfterMin: int)

  /** A room or staff row: its id and whether it is enabled. */
  datatype ActiveRow = ActiveRow(id: string, active: bool)

  /** The answers to the flow's queries (the rows, `None` when no row matches, or the query's
      error text) and the refusals, if any, of its two inserts and of the compensating delete. */
  datatype Snapshot = Snapshot(
    service: Result<Option<ServiceRow>, string>,
    room: Result<Option<ActiveRow>, string>,
    customerFound: Result<bool, string>,
    staff: Result<Option<ActiveRow>, string>,
    calendarExceptions: Result<seq<Calendar.CalendarExceptionRecord>, string>,
    reservations: Result<seq<Conflicts.ReservationScheduleRecord>, string>,
    equipments: Result<seq<Conflicts.EquipmentRecord>, string>,
    equipmentItems: Result<seq<Conflicts.EquipmentItemRecord>, string>,
    equipmentUsage: Result<seq<Conflicts.ReservationEquipmentItemRecord>, string>,
    reservationInsertFailure: Option<Persistence.PostgrestError>,
    assignmentInsertFailure: Option<Persistence.PostgrestError>,
    compensatingDeleteFailure: Option<Persistence.PostgrestError>)

  /** What the flow can throw. */
  datatype CreateError =
    | ValidationFailed(validation: Validation.ValidationError)
    | ClosedScope(reason: Calendar.ClosedScopeReason)
    | Domain(domain: Errors.DomainError)
    | PersistenceFailed(persistence: Persistence.PersistenceError)
    | Unexpected

  const MultipleStaffIssue: Validation.Issue := Validation.Issue("staffIds", "複数スタッフの割り当ては現在サポートされていません")
  const BufferCombinationIssue: Validation.Issue := Validation.Issue("(root)", "開始・終了・バッファの組み合わせが不正です")

  // ---------------------------------------------------------------------------------------
  // Lookups, buffers and the occupied interval

  /** `serviceId ? fetchService(...) : null`. */
  function ServiceStage(p: Validation.ReservationCreatePayload, s: Snapshot): Result<Option<ServiceRow>, CreateError> {
    if !Conflicts.Truthy(p.serviceId) then Success(None)
    else match s.service
      case Failure(error) => Failure(Domain(Errors.Internal("サービス情報の取得に失敗しました", Errors.QueryFailure(error))))
      case Success(None) => Failure(Domain(Errors.ResourceUnavailable("サービス", false)))
      case Success(Some(row)) => Success(Some(row))
  }

  function RoomStage(s: Snapshot): Outcome<CreateError> {
    match s.room
    case Failure(error) => Fail(Domain(Errors.Internal("部屋情報の取得に失敗しました", Errors.QueryFailure(error))))
    case Success(None) => Fail(Domain(Errors.ResourceUnavailable("部屋", false)))
    case Success(Some(row)) => if !row.active then Fail(Domain(Errors.ResourceUnavailable("部屋", true))) else Pass
  }

  function CustomerStage(p: Validation.ReservationCreatePayload, s: Snapshot): Outcome<CreateError> {
    if !Conflicts.Truthy(p.customerId) then Pass
    else match s.customerFound
      case Failure(error) => Fail(Domain(Errors.Internal("顧客情報の取得に失敗しました", Errors.QueryFailure(error))))
      case Success(found) => if !found then Fail(Domain(Errors.ResourceUnavailable("顧客", false))) else Pass
  }

  function StaffStage(staffId: Option<string>, s: Snapshot): Outcome<CreateError> {
    if !Conflicts.Truthy(staffId) then Pass
    else match s.staff
      case Failure(error) => Fail(Domain(Errors.Internal("スタッフ情報の取得に失敗しました", Errors.QueryFailure(error))))
      case Success(None) => Fail(Domain(Errors.ResourceUnavailable("スタッフ", false)))
      case Success(Some(row)) => if !row.active then Fail(Domain(Errors.ResourceUnavailable("スタッフ", true))) else Pass
  }

  /** `a ?? b ?? 0`: the override wins, then the service's default, then zero. A zero override
      is an override. */
  function ResolveBuffer(override: Option<int>, serviceDefault: Option<int>): (m: int)
    ensures override.Some? ==> m == override.value
    ensures override.None? && serviceDefault.Some? ==> m == serviceDefault.value
    ensures override.None? && serviceDefault.None? ==> m == 0
  {
    if override.Some? then override.value else serviceDefault.GetOr(0)
  }

  function BufferBefore(p: Validation.ReservationCreatePayload, service: Option<ServiceRow>): int {
    ResolveBuffer(if p.bufferOverride.Some? then Some(p.bufferOverride.value.beforeMin) else None,
                  if service.Some? then Some(service.value.bufferBeforeMin) else None)
  }

  function BufferAfter(p: Validation.ReservationCreatePayload, service: Option<ServiceRow>): int {
    ResolveBuffer(if p.bufferOverride.Some? then Some(p.bufferOverride.value.afterMin) else None,
                  if service.Some? then Some(service.value.bufferAfterMin) else None)
  }

  /** The visible interval widened by the buffers on each side. */
  function OccupiedOf(start: int, end: int, before: int, after: int): (c: Conflicts.OccupiedInterval)
    ensures c.occupiedStart + Time.MinutesToMs(before) == start
    ensures c.occupiedEnd - Time.MinutesToMs(after) == end
  {
    Conflicts.OccupiedInterval(start - Time.MinutesToMs(before), end + Time.MinutesToMs(after))
  }

  /** `payload.staffIds[0]`, `undefined` for an empty list. */
  function FirstStaff(staffIds: seq<string>): Option<string> {
    if |staffIds| > 0 then Some(staffIds[0]) else None
  }

  /** The request after the checks that need no schedule. */
  datatype Prepared = Prepared(
    payload: Validation.ReservationCreatePayload,
    service: Option<ServiceRow>,
    bufferBeforeMin: int,
    bufferAfterMin: int,
    occupied: Conflicts.OccupiedInterval,
    staffId: Option<string>)

  function VisibleOf(p: Validation.ReservationCreatePayload): Interval {
    Interval(p.startAt.epochMs, p.endAt.epochMs)
  }

  /** The flow up to the staff lookup, in the source's order: input validation, then the
      checks on the validated payload. */
  function PrepareOf(input: Validation.ReservationCreateInput, s: Snapshot): Result<Prepared, CreateError> {
    match Validation.ValidateReservationInput(input)
    case Failure(v) => Failure(ValidationFailed(v))
    case Success(p) => PreparePayloadOf(p, s)
  }

  /** The checks on a validated payload: the single-staff rule, service, room, buffers and
      the occupied interval, customer, staff. */
  function PreparePayloadOf(p: Validation.ReservationCreatePayload, s: Snapshot): Result<Prepared, CreateError> {
    if |p.staffIds| > 1 then Failure(ValidationFailed(Validation.ValidationError([MultipleStaffIssue])))
    else match ServiceStage(p, s)
      case Failure(e) => Failure(e)
      case Success(service) =>
        if RoomStage(s).Fail? then Failure(RoomStage(s).error)
        else
          var before := BufferBefore(p, service);
          var after := BufferAfter(p, service);
          var occupied := OccupiedOf(p.startAt.epochMs, p.endAt.epochMs, before, after);
          if occupied.occupiedStart >= occupied.occupiedEnd then
            Failure(ValidationFailed(Validation.ValidationError([BufferCombinationIssue])))
          else if CustomerStage(p, s).Fail? then Failure(CustomerStage(p, s).error)
          else
            var staffId := FirstStaff(p.staffIds);
            if StaffStage(staffId, s).Fail? then Failure(StaffStage(staffId, s).error)
            else Success(Prepared(p, service, before, after, occupied, staffId))
  }

  /** Input validation, then the checks on the validated payload. */
  method Prepare(input: Validation.ReservationCreateInput, s: Snapshot) returns (r: Result<Prepared, CreateError>)
    ensures r == PrepareOf(input, s)
  {
    var validated := Validation.ValidateReservationInput(input);
    if validated.Failure? {
      return Failure(ValidationFailed(validated.error));
    }
    r := PreparePayload(validated.value, s);
  }

  /** The checks on a validated payload, as statements that return at the first failure. */
  method PreparePayload(p: Validation.ReservationCreatePayload, s: Snapshot) returns (r: Result<Prepared, CreateError>)
    ensures r == PreparePayloadOf(p, s)
  {
    if |p.staffIds| > 1 {
      return Failure(ValidationFailed(Validation.ValidationError([MultipleStaffIssue])));
    }
    var service := ServiceStage(p, s);
    if service.Failure? {
      return Failure(service.error);
    }
    var room := RoomStage(s);
    if room.Fail? {
      return Failure(room.error);
    }
    var before := BufferBefore(p, service.value);
    var after := BufferAfter(p, service.value);
    var occupiedStart := p.startAt.epochMs - Time.MinutesToMs(before);
    var occupiedEnd := p.endAt.epochMs + Time.MinutesToMs(after);
    if occupiedStart >= occupiedEnd {
      return Failure(ValidationFailed(Validation.ValidationError([BufferCombinationIssue])));
    }
    var customer := CustomerStage(p, s);
    if customer.Fail? {
      return Failure(customer.error);
    }
    var staffId := FirstStaff(p.staffIds);
    var staff := StaffStage(staffId, s);
    if staff.Fail? {
      return Failure(staff.error);
    }
    return Success(Prepared(p, service.value, before, after, Conflicts.OccupiedInterval(occupiedStart, occupiedEnd), staffId));
  }

  // ---------------------------------------------------------------------------------------
  // Calendar, room and staff

  const RoomConflictMessage: string := "部屋が既存予約と重複しています"
  const StaffConflictMessage: string := "スタッフが既存予約と重複しています"
  const EquipmentConflictMessage: string := "機材が既存予約と重複しています"

  /** The room's reservations overlapping the occupied interval. */
  predicate RoomBusy(rs: seq<Conflicts.ReservationScheduleRecord>, roomId: string, c: Conflicts.OccupiedInterval) {
    Conflicts.AnyOverlap(Lookup(Conflicts.RoomReservationMapOf(rs, Calendar.ParsePgRange), roomId), c.occupiedStart, c.occupiedEnd)
  }

  predicate StaffBusy(rs: seq<Conflicts.ReservationScheduleRecord>, staffId: Option<string>, c: Conflicts.OccupiedInterval) {
    Conflicts.AnyOverlap(Conflicts.StaffReservationListOf(rs, staffId, Calendar.ParsePgRange), c.occupiedStart, c.occupiedEnd)
  }

  /** The room's reservations, then the staff member's, both against the occupied interval. */
  function ReservationStage(prep: Prepared, s: Snapshot): Outcome<CreateError> {
    match s.reservations
    case Failure(error) => Fail(Domain(Errors.Internal("既存予約の取得に失敗しました", Errors.QueryFailure(error))))
    case Success(rs) =>
      if RoomBusy(rs, prep.payload.roomId, prep.occupied) then
        Fail(Domain(Errors.ConflictDetected(RoomConflictMessage, Errors.RoomConflict(prep.payload.roomId))))
      else if Conflicts.Truthy(prep.staffId) && StaffBusy(rs, prep.staffId, prep.occupied) then
        Fail(Domain(Errors.ConflictDetected(StaffConflictMessage, Errors.StaffConflict([prep.staffId.value]))))
      else Pass
  }

  /** Calendar exceptions against the visible interval, then the reservation checks; yields
      the calendar context. */
  function ScheduleOf(prep: Prepared, s: Snapshot): Result<Calendar.CalendarContext, CreateError> {
    var p := prep.payload;
    match s.calendarExceptions
    case Failure(error) => Failure(Domain(Errors.Internal("カレンダー例外の取得に失敗しました", Errors.QueryFailure(error))))
    case Success(records) =>
      var ctx := Calendar.CalendarContextOf(records);
      var closed := Calendar.ClosedFor(ctx, p.roomId, VisibleOf(p), Validation.EquipmentIds(p.equipmentRequests), p.staffIds);
      if closed.Some? then Failure(ClosedScope(closed.value))
      else if ReservationStage(prep, s).Fail? then Failure(ReservationStage(prep, s).error)
      else Success(ctx)
  }

  method CheckSchedule(prep: Prepared, s: Snapshot) returns (r: Result<Calendar.CalendarContext, CreateError>)
    ensures r == ScheduleOf(prep, s)
  {
    var p := prep.payload;
    if s.calendarExceptions.Failure? {
      return Failure(Domain(Errors.Internal("カレンダー例外の取得に失敗しました", Errors.QueryFailure(s.calendarExceptions.error))));
    }
    var ctx := Calendar.BuildCalendarContext(s.calendarExceptions.value);
    var open := Calendar.AssertReservationOpen(ctx, p.roomId, Interval(p.startAt.epochMs, p.endAt.epochMs),
      Validation.EquipmentIds(p.equipmentRequests), p.staffIds);
    if open.Fail? {
      return Failure(ClosedScope(open.error));
    }
    if s.reservations.Failure? {
      return Failure(Domain(Errors.Internal("既存予約の取得に失敗しました", Errors.QueryFailure(s.reservations.error))));
    }
    var rs := s.reservations.value;
    var roomIntervals := Conflicts.BuildRoomReservationMap(rs);
    var roomBusy := Conflicts.HasAnyOverlap(Lookup(roomIntervals, p.roomId), prep.occupied.occupiedStart, prep.occupied.occupiedEnd);
    if roomBusy {
      return Failure(Domain(Errors.ConflictDetected(RoomConflictMessage, Errors.RoomConflict(p.roomId))));
    }
    if Conflicts.Truthy(prep.staffId) {
      var staffIntervals := Conflicts.BuildStaffReservationList(rs, prep.staffId);
      var staffBusy := Conflicts.HasAnyOverlap(staffIntervals, prep.occupied.occupiedStart, prep.occupied.occupiedEnd);
      if staffBusy {
        return Failure(Domain(Errors.ConflictDetected(StaffConflictMessage, Errors.StaffConflict([prep.staffId.value]))));
      }
    }
    return Success(ctx);
  }

  // ---------------------------------------------------------------------------------------
  // Equipment

  /** `payload.equipmentRequests.map(req => ({equipmentId, qty: quantity}))`. */
  function RequirementsOf(requests: seq<Validation.EquipmentRequest>): (reqs: seq<Conflicts.EquipmentRequirement>)
    ensures |reqs| == |requests|
    ensures forall k :: 0 <= k < |reqs| ==>
      reqs[k].equipmentId == requests[k].equipmentId && reqs[k].qty == requests[k].quantity
  {
    seq(|requests|, k requires 0 <= k < |requests| => Conflicts.EquipmentRequirement(requests[k].equipmentId, requests[k].quantity))
  }

  /** A failed equipment query, rethrown as an internal error carrying the query error. */
  function EquipmentQueryFailed(e: Conflicts.ConflictQueryError): (r: CreateError)
    ensures r.Domain? && r.domain.status == 500 && r.domain.code == Errors.InternalCode
    ensures r.domain.details == Errors.FetchFailure(e.resource, e.message, e.details)
  {
    Domain(Errors.Internal("機材情報の取得に失敗しました", Errors.FetchFailure(e.resource, e.message, e.details)))
  }

  /** `buildEquipmentContext`: the empty context when nothing is requested; otherwise the
      context from the three equipment queries (any failed query is an internal error), after
      checking every requested SKU is known and enabled. */
  function EquipmentContextFor(reqs: seq<Conflicts.EquipmentRequirement>, s: Snapshot, exceptions: map<string, seq<Interval>>)
    : Result<Conflicts.EquipmentAvailabilityContext, CreateError>
  {
    if reqs == [] then Success(Conflicts.CreateEmptyEquipmentContext(exceptions))
    else if s.equipments.Failure? then Failure(EquipmentQueryFailed(Conflicts.QueryError("equipments", s.equipments.error)))
    else if s.equipmentItems.Failure? then Failure(EquipmentQueryFailed(Conflicts.QueryError("equipment_items", s.equipmentItems.error)))
    else if s.equipmentUsage.Failure? then
      Failure(EquipmentQueryFailed(Conflicts.QueryError("reservation_equipment_items", s.equipmentUsage.error)))
    else
      var ctx := Conflicts.EquipmentContextOf(s.equipments.value, s.equipmentItems.value, s.equipmentUsage.value,
        exceptions, Calendar.ParsePgRange);
      match EquipmentAllocation.ResourceProblem(reqs, ctx)
      case Some(e) => Failure(Domain(e))
      case None => Success(ctx)
  }

  method BuildEquipmentContext(reqs: seq<Conflicts.EquipmentRequirement>, s: Snapshot, exceptions: map<string, seq<Interval>>)
    returns (r: Result<Conflicts.EquipmentAvailabilityContext, CreateError>)
    ensures r == EquipmentContextFor(reqs, s, exceptions)
  {
    if |reqs| == 0 {
      return Success(Conflicts.CreateEmptyEquipmentContext(exceptions));
    }
    var built := Conflicts.BuildEquipmentAvailabilityContext(s.equipments, s.equipmentItems, s.equipmentUsage, exceptions);
    if built.Failure? {
      return Failure(EquipmentQueryFailed(built.error));
    }
    var resources := EquipmentAllocation.ValidateEquipmentResources(reqs, built.value);
    if resources.Fail? {
      return Failure(Domain(resources.error));
    }
    return Success(built.value);
  }

  /** The equipment context, then the capacity check over the occupied interval, then the
      allocation of serial-tracked items. */
  function EquipmentStageOf(prep: Prepared, cal: Calendar.CalendarContext, s: Snapshot)
    : Result<seq<EquipmentAllocation.Assignment>, CreateError>
  {
    var reqs := RequirementsOf(prep.payload.equipmentRequests);
    match EquipmentContextFor(reqs, s, cal.equipmentExceptionsById)
    case Failure(e) => Failure(e)
    case Success(ctx) =>
      if !Conflicts.EquipmentAvailable(reqs, prep.occupied, ctx) then
        Failure(Domain(Errors.ConflictDetected(EquipmentConflictMessage,
          Errors.EquipmentConflict(Validation.EquipmentIds(prep.payload.equipmentRequests)))))
      else match EquipmentAllocation.AllocationOf(reqs, prep.occupied, ctx)
        case Failure(e) => Failure(Domain(e))
        case Success(items) => Success(items)
  }

  method ReserveEquipment(prep: Prepared, cal: Calendar.CalendarContext, s: Snapshot)
    returns (r: Result<seq<EquipmentAllocation.Assignment>, CreateError>)
    ensures r == EquipmentStageOf(prep, cal, s)
  {
    var reqs := RequirementsOf(prep.payload.equipmentRequests);
    var ctx := BuildEquipmentContext(reqs, s, cal.equipmentExceptionsById);
    if ctx.Failure? {
      return Failure(ctx.error);
    }
    var passed := Conflicts.CheckEquipmentAvailability(reqs, prep.occupied, ctx.value);
    if !passed {
      return Failure(Domain(Errors.ConflictDetected(EquipmentConflictMessage,
        Errors.EquipmentConflict(Validation.EquipmentIds(prep.payload.equipmentRequests)))));
    }
    var items := EquipmentAllocation.AllocateEquipmentItems(reqs, prep.occupied, ctx.value);
    if items.Failure? {
      return Failure(Domain(items.error));
    }
    return Success(items.value);
  }

  // ---------------------------------------------------------------------------------------
  // The whole flow

  /** The insert the flow issues once every check has passed. */
  function CommandOf(prep: Prepared, userId: string, items: seq<EquipmentAllocation.Assignment>): Persistence.ReservationInsertCommand {
    var p := prep.payload;
    Persistence.ReservationInsertCommand(
      p.tenantId, p.serviceId, p.roomId, prep.staffId, p.customerId,
      p.startAt.epochMs, p.endAt.epochMs, prep.bufferBeforeMin, prep.bufferAfterMin,
      p.notes, Some(userId), None, items)
  }

  /** Every check of the flow, in order; the insert command or the first error. */
  function PlanOf(input: Validation.ReservationCreateInput, s: Snapshot, userId: string)
    : Result<Persistence.ReservationInsertCommand, CreateError>
  {
    match PrepareOf(input, s)
    case Failure(e) => Failure(e)
    case Success(prep) =>
      match ScheduleOf(prep, s)
      case Failure(e) => Failure(e)
      case Success(cal) =>
        match EquipmentStageOf(prep, cal, s)
        case Failure(e) => Failure(e)
        case Success(items) => Success(CommandOf(prep, userId, items))
  }

  datatype CreateResponse = CreateResponse(
    id: nat,
    status: Persistence.ReservationStatus,
    roomId: string,
    startAt: int,
    endAt: int,
    bufferBeforeMin: int,
    bufferAfterMin: int,
    equipmentItems: seq<EquipmentAllocation.Assignment>,
    staffIds: seq<string>,
    customerId: Option<string>)

  function ResponseOf(res: Persistence.ReservationInsertResult, items: seq<EquipmentAllocation.Assignment>): CreateResponse {
    CreateResponse(res.id, res.status, res.roomId, res.startAt, res.endAt, res.bufferBeforeMin, res.bufferAfterMin,
      items, if Conflicts.Truthy(res.staffId) then [res.staffId.value] else [], res.customerId)
  }

  datatype FailureDetails =
    | NoFailureDetails
    | IssueList(issues: seq<Validation.Issue>)
    | ScopeReason(reason: Calendar.ClosedScopeReason)
    | DomainDetails(details: Errors.Details)
    | DatabaseError(error: Persistence.PostgrestError)

  datatype CreateFailure = CreateFailure(status: int, code: string, message: string, details: FailureDetails)

  const ClosedScopeCode: string := "RESERVATIONS_CLOSED_SCOPE"

  /** `handleCreateError`: a validation error keeps its status, code and issues under a fixed
      message; a closed scope is a 409 with its reason; domain and persistence errors pass
      their status, code, message and details through; anything else is a 500. */
  function HandleCreateError(e: CreateError): (f: CreateFailure)
    ensures e.ValidationFailed? ==> f.status == 422 && f.code == e.validation.code && f.details == IssueList(e.validation.issues)
    ensures e.ClosedScope? ==> f.status == 409 && f.code == ClosedScopeCode && f.details == ScopeReason(e.reason)
    ensures e.Domain? ==> f.status == e.domain.status && f.code == e.domain.code
    ensures e.Domain? ==> f.message == e.domain.message && f.details == DomainDetails(e.domain.details)
    ensures e.PersistenceFailed? ==> f.status == e.persistence.status && f.code == e.persistence.code
    ensures e.PersistenceFailed? ==> f.message == e.persistence.message && f.details == DatabaseError(e.persistence.cause)
    ensures e.Unexpected? ==> f.status == 500 && f.code == Errors.InternalCode && f.details == NoFailureDetails
  {
    match e
    case ValidationFailed(v) => CreateFailure(v.status, v.code, "入力内容が正しくありません", IssueList(v.issues))
    case ClosedScope(reason) => CreateFailure(409, ClosedScopeCode, "指定時間帯は利用できません", ScopeReason(reason))
    case Domain(d) => CreateFailure(d.status, d.code, d.message, DomainDetails(d.details))
    case PersistenceFailed(p) => CreateFailure(p.status, p.code, p.message, DatabaseError(p.cause))
    case Unexpected => CreateFailure(500, Errors.InternalCode, "予約の作成に失敗しました", NoFailureDetails)
  }

  /** The checks of `createReservationAction`, stage by stage, up to the insert command. */
  method PlanReservation(input: Validation.ReservationCreateInput, s: Snapshot, userId: string)
    returns (plan: Result<Persistence.ReservationInsertCommand, CreateError>)
    ensures plan == PlanOf(input, s, userId)
  {
    var prep := Prepare(input, s);
    if prep.Failure? {
      return Failure(prep.error);
    }
    var cal := CheckSchedule(prep.value, s);
    if cal.Failure? {
      return Failure(cal.error);
    }
    var items := ReserveEquipment(prep.value, cal.value, s);
    if items.Failure? {
      return Failure(items.error);
    }
    return Success(CommandOf(prep.value, userId, items.value));
  }

  /** `createReservationAction`: runs the checks, then writes the reservation and its item
      assignments (undoing the reservation if the assignments are refused), and answers with
      the written reservation or the failure `handleCreateError` makes of the first error. */
  method CreateReservationAction(store: Persistence.ReservationStore, input: Validation.ReservationCreateInput,
                                 s: Snapshot, userId: string)
    returns (r: Result<CreateResponse, CreateFailure>)
    requires store.Valid()
    modifies store
    ensures store.Valid()
    ensures PlanOf(input, s, userId).Failure? ==>
      r == Failure(HandleCreateError(PlanOf(input, s, userId).error))
      && store.reservations == old(store.reservations) && store.assignments == old(store.assignments)
    ensures PlanOf(input, s, userId).Success? && s.reservationInsertFailure.Some? ==>
      r == Failure(HandleCreateError(PersistenceFailed(Persistence.MapPostgrestError(s.reservationInsertFailure.value))))
      && store.reservations == old(store.reservations) && store.assignments == old(store.assignments)
    ensures (PlanOf(input, s, userId).Success? && s.reservationInsertFailure.None?
             && PlanOf(input, s, userId).value.equipmentItems != [] && s.assignmentInsertFailure.Some?) ==>
      r == Failure(HandleCreateError(PersistenceFailed(Persistence.MapPostgrestError(s.assignmentInsertFailure.value))))
      && store.assignments == old(store.assignments)
    ensures (PlanOf(input, s, userId).Success? && s.reservationInsertFailure.None?
             && PlanOf(input, s, userId).value.equipmentItems != [] && s.assignmentInsertFailure.Some?
             && s.compensatingDeleteFailure.None?) ==>
      store.reservations == old(store.reservations)
    ensures (PlanOf(input, s, userId).Success? && s.reservationInsertFailure.None?
             && PlanOf(input, s, userId).value.equipmentItems != [] && s.assignmentInsertFailure.Some?
             && s.compensatingDeleteFailure.Some?) ==>
      var command := PlanOf(input, s, userId).value;
      store.reservations == old(store.reservations) + [Persistence.RowOf(command, old(store.nextId))]
    ensures (PlanOf(input, s, userId).Success? && s.reservationInsertFailure.None?
             && (PlanOf(input, s, userId).value.equipmentItems == [] || s.assignmentInsertFailure.None?)) ==>
      var command := PlanOf(input, s, userId).value;
      var row := Persistence.RowOf(command, old(store.nextId));
      && r == Success(ResponseOf(Persistence.ResultOf(row), command.equipmentItems))
      && store.reservations == old(store.reservations) + [row]
      && store.assignments == old(store.assignments) + Persistence.AssignmentsOf(command, row.id)
  {
    var plan := PlanReservation(input, s, userId);
    if plan.Failure? {
      return Failure(HandleCreateError(plan.error));
    }
    var command := plan.value;
    var inserted := Persistence.InsertReservationWithEquipment(store, command, s.reservationInsertFailure, s.assignmentInsertFailure,
                                                               s.compensatingDeleteFailure);
    if inserted.Failure? {
      return Failure(HandleCreateError(PersistenceFailed(inserted.error)));
    }
    return Success(ResponseOf(inserted.value, command.equipmentItems));
  }

  // ---------------------------------------------------------------------------------------
  // Properties of the flow

  /** The stages a planned booking went through. */
  lemma PlanStages(input: Validation.ReservationCreateInput, s: Snapshot, userId: string)
    returns (prep: Prepared, cal: Calendar.CalendarContext, items: seq<EquipmentAllocation.Assignment>)
    requires PlanOf(input, s, userId).Success?
    ensures PrepareOf(input, s) == Success(prep)
    ensures ScheduleOf(prep, s) == Success(cal)
    ensures EquipmentStageOf(prep, cal, s) == Success(items)
    ensures PlanOf(input, s, userId).value == CommandOf(prep, userId, items)
  {
    prep := PrepareOf(input, s).value;
    cal := ScheduleOf(prep, s).value;
    items := EquipmentStageOf(prep, cal, s).value;
  }

  /** The single-staff rule comes before every lookup: a valid request naming two or more staff
      members is refused with a 422 whatever the database holds. */
  lemma MultipleStaffRejected(input: Validation.ReservationCreateInput, s: Snapshot, userId: string)
    requires Validation.ValidateReservationInput(input).Success?
    requires |Validation.ValidateReservationInput(input).value.staffIds| > 1
    ensures PlanOf(input, s, userId) == Failure(ValidationFailed(Validation.ValidationError([MultipleStaffIssue])))
    ensures HandleCreateError(PlanOf(input, s, userId).error).status == 422
  {
  }

  /** What a request that passed the first checks satisfies: it was valid and names at most
      one staff member, who is the one booked; the room exists and is enabled, and so are the
      service, customer and staff member it names; the buffers follow the override, then the
      service, then zero; and the occupied interval is the visible one widened by the buffers
      and is non-empty. */
  lemma PreparedFacts(input: Validation.ReservationCreateInput, s: Snapshot, prep: Prepared)
    requires PrepareOf(input, s) == Success(prep)
    ensures Validation.ValidateReservationInput(input) == Success(prep.payload)
    ensures |prep.payload.staffIds| <= 1 && prep.staffId == FirstStaff(prep.payload.staffIds)
    ensures s.room.Success? && s.room.value.Some? && s.room.value.value.active
    ensures Conflicts.Truthy(prep.payload.serviceId) ==> s.service.Success? && s.service.value.Some? && prep.service == s.service.value
    ensures !Conflicts.Truthy(prep.payload.serviceId) ==> prep.service.None?
    ensures Conflicts.Truthy(prep.payload.customerId) ==> s.customerFound == Success(true)
    ensures Conflicts.Truthy(prep.staffId) ==> s.staff.Success? && s.staff.value.Some? && s.staff.value.value.active
    ensures prep.bufferBeforeMin == BufferBefore(prep.payload, prep.service)
    ensures prep.bufferAfterMin == BufferAfter(prep.payload, prep.service)
    ensures prep.occupied.occupiedStart == prep.payload.startAt.epochMs - Time.MinutesToMs(prep.bufferBeforeMin)
    ensures prep.occupied.occupiedEnd == prep.payload.endAt.epochMs + Time.MinutesToMs(prep.bufferAfterMin)
    ensures prep.occupied.occupiedStart < prep.occupied.occupiedEnd
  {
    var p := Validation.ValidateReservationInput(input).value;
    PreparedPayloadFacts(p, s, prep);
  }

  lemma PreparedPayloadFacts(p: Validation.ReservationCreatePayload, s: Snapshot, prep: Prepared)
    requires PreparePayloadOf(p, s) == Success(prep)
    ensures prep.payload == p
    ensures |p.staffIds| <= 1 && prep.staffId == FirstStaff(p.staffIds)
    ensures s.room.Success? && s.room.value.Some? && s.room.value.value.active
    ensures Conflicts.Truthy(p.serviceId) ==> s.service.Success? && s.service.value.Some? && prep.service == s.service.value
    ensures !Conflicts.Truthy(p.serviceId) ==> prep.service.None?
    ensures Conflicts.Truthy(p.customerId) ==> s.customerFound == Success(true)
    ensures Conflicts.Truthy(prep.staffId) ==> s.staff.Success? && s.staff.value.Some? && s.staff.value.value.active
    ensures prep.bufferBeforeMin == BufferBefore(p, prep.service)
    ensures prep.bufferAfterMin == BufferAfter(p, prep.service)
    ensures prep.occupied.occupiedStart == p.startAt.epochMs - Time.MinutesToMs(prep.bufferBeforeMin)
    ensures prep.occupied.occupiedEnd == p.endAt.epochMs + Time.MinutesToMs(prep.bufferAfterMin)
    ensures prep.occupied.occupiedStart < prep.occupied.occupiedEnd
  {
  }

  /** A booking that passed the schedule checks is open: no calendar exception that applies
      to it (tenant-wide, its room, equipment-wide, a requested SKU, staff-wide, its staff
      member) overlaps the visible interval. */
  lemma ScheduleOpen(prep: Prepared, s: Snapshot, cal: Calendar.CalendarContext)
    requires ScheduleOf(prep, s) == Success(cal)
    ensures s.calendarExceptions.Success?
    ensures cal == Calendar.CalendarContextOf(s.calendarExceptions.value)
    ensures var p := prep.payload;
      && Calendar.Clear(cal.tenantExceptions, VisibleOf(p))
      && Calendar.Clear(Lookup(cal.roomExceptionsById, p.roomId), VisibleOf(p))
      && Calendar.Clear(cal.equipmentGlobalExceptions, VisibleOf(p))
      && (forall r :: r in p.equipmentRequests ==> Calendar.Clear(Lookup(cal.equipmentExceptionsById, r.equipmentId), VisibleOf(p)))
      && Calendar.Clear(cal.staffGlobalExceptions, VisibleOf(p))
      && (forall id :: id in p.staffIds ==> Calendar.Clear(Lookup(cal.staffExceptionsById, id), VisibleOf(p)))
  {
    var p := prep.payload;
    var ids := Validation.EquipmentIds(p.equipmentRequests);
    assert Calendar.ClosedFor(cal, p.roomId, VisibleOf(p), ids, p.staffIds).None?;
    Calendar.OpenIffNoApplicableException(cal, p.roomId, VisibleOf(p), ids, p.staffIds);
    forall r | r in p.equipmentRequests
      ensures Calendar.Clear(Lookup(cal.equipmentExceptionsById, r.equipmentId), VisibleOf(p))
    {
      var k :| 0 <= k < |p.equipmentRequests| && p.equipmentRequests[k] == r;
      assert ids[k] in ids;
    }
  }

  /** Reservations of a room with no overlap against `c` have no range overlapping `c`. */
  lemma RoomFreeOf(rs: seq<Conflicts.ReservationScheduleRecord>, room: string, c: Conflicts.OccupiedInterval,
                   parse: Calendar.RangeParser)
    requires room != ""
    requires !Conflicts.AnyOverlap(Lookup(Conflicts.RoomReservationMapOf(rs, parse), room), c.occupiedStart, c.occupiedEnd)
    ensures forall r, iv :: (r in rs && r.roomId == Some(room) && Conflicts.Truthy(r.timeRange)
        && parse(r.timeRange.value) == Some(iv)) ==> !OverlapsRange(iv, c.occupiedStart, c.occupiedEnd)
  {
    forall r, iv | r in rs && r.roomId == Some(room) && Conflicts.Truthy(r.timeRange) && parse(r.timeRange.value) == Some(iv)
      ensures !OverlapsRange(iv, c.occupiedStart, c.occupiedEnd)
    {
      Conflicts.RoomReservationPlacement(rs, parse, room, iv);
    }
  }

  lemma StaffFreeOf(rs: seq<Conflicts.ReservationScheduleRecord>, staffId: Option<string>, c: Conflicts.OccupiedInterval,
                    parse: Calendar.RangeParser)
    requires !Conflicts.AnyOverlap(Conflicts.StaffReservationListOf(rs, staffId, parse), c.occupiedStart, c.occupiedEnd)
    ensures forall r, iv :: (r in rs && Conflicts.Truthy(staffId) && r.staffId == staffId && Conflicts.Truthy(r.timeRange)
        && parse(r.timeRange.value) == Some(iv)) ==> !OverlapsRange(iv, c.occupiedStart, c.occupiedEnd)
  {
    forall r, iv | r in rs && Conflicts.Truthy(staffId) && r.staffId == staffId && Conflicts.Truthy(r.timeRange)
                   && parse(r.timeRange.value) == Some(iv)
      ensures !OverlapsRange(iv, c.occupiedStart, c.occupiedEnd)
    {
      Conflicts.StaffReservationPlacement(rs, staffId, parse, iv);
    }
  }

  /** The schedule checks passed: neither the room nor the staff member is busy. */
  lemma SchedulePassed(prep: Prepared, s: Snapshot, cal: Calendar.CalendarContext)
    requires ScheduleOf(prep, s) == Success(cal)
    ensures s.reservations.Success?
    ensures !RoomBusy(s.reservations.value, prep.payload.roomId, prep.occupied)
    ensures Conflicts.Truthy(prep.staffId) ==> !StaffBusy(s.reservations.value, prep.staffId, prep.occupied)
  {
    assert ReservationStage(prep, s).Pass?;
  }

  /** A booking that passed the schedule checks keeps its room and its staff member free: no
      fetched reservation of the room, nor of the staff member, has a range overlapping the
      occupied interval. The room id is non-empty, as validation guarantees. */
  lemma ScheduleFree(prep: Prepared, s: Snapshot, cal: Calendar.CalendarContext)
    requires ScheduleOf(prep, s) == Success(cal)
    requires prep.payload.roomId != ""
    ensures s.reservations.Success?
    ensures forall r, iv :: (r in s.reservations.value && r.roomId == Some(prep.payload.roomId) && Conflicts.Truthy(r.timeRange)
        && Calendar.ParsePgRange(r.timeRange.value) == Some(iv)) ==>
      !OverlapsRange(iv, prep.occupied.occupiedStart, prep.occupied.occupiedEnd)
    ensures forall r, iv :: (r in s.reservations.value && Conflicts.Truthy(prep.staffId) && r.staffId == prep.staffId
        && Conflicts.Truthy(r.timeRange) && Calendar.ParsePgRange(r.timeRange.value) == Some(iv)) ==>
      !OverlapsRange(iv, prep.occupied.occupiedStart, prep.occupied.occupiedEnd)
  {
    SchedulePassed(prep, s, cal);
    var rs := s.reservations.value;
    var c := prep.occupied;
    RoomFreeOf(rs, prep.payload.roomId, c, Calendar.ParsePgRange);
    if Conflicts.Truthy(prep.staffId) {
      StaffFreeOf(rs, prep.staffId, c, Calendar.ParsePgRange);
    }
  }

  /** The equipment context of a booking that requests equipment. */
  function RequestedContext(s: Snapshot, cal: Calendar.CalendarContext): Conflicts.EquipmentAvailabilityContext
    requires s.equipments.Success? && s.equipmentItems.Success? && s.equipmentUsage.Success?
  {
    Conflicts.EquipmentContextOf(s.equipments.value, s.equipmentItems.value, s.equipmentUsage.value,
      cal.equipmentExceptionsById, Calendar.ParsePgRange)
  }

  /** The equipment of a booking that passed the equipment stage, for each request whose SKUs
      are distinct and whose quantities are positive (as validation guarantees): the three
      equipment queries answered, the SKU is known and enabled, its capacity covers the
      request, and the allocation holds exactly the requested number of its items when it is
      serial-tracked and none otherwise. */
  lemma EquipmentStageExact(prep: Prepared, cal: Calendar.CalendarContext, s: Snapshot,
                            items: seq<EquipmentAllocation.Assignment>, k: int)
    requires EquipmentStageOf(prep, cal, s) == Success(items)
    requires forall a, b :: 0 <= a < b < |prep.payload.equipmentRequests| ==>
      prep.payload.equipmentRequests[a].equipmentId != prep.payload.equipmentRequests[b].equipmentId
    requires forall r :: r in prep.payload.equipmentRequests ==> r.quantity >= 1
    requires 0 <= k < |prep.payload.equipmentRequests|
    ensures s.equipments.Success? && s.equipmentItems.Success? && s.equipmentUsage.Success?
    ensures var ctx := RequestedContext(s, cal);
      var req := prep.payload.equipmentRequests[k];
      && EquipmentAllocation.Usable(ctx, req.equipmentId)
      && Conflicts.RequirementMet(ctx, Conflicts.EquipmentRequirement(req.equipmentId, req.quantity), prep.occupied)
      && EquipmentAllocation.CountFor(items, req.equipmentId) ==
           (if EquipmentAllocation.Tracked(ctx, req.equipmentId) then req.quantity else 0)
  {
    var reqs := RequirementsOf(prep.payload.equipmentRequests);
    var ctx := RequestedContext(s, cal);
    var req := prep.payload.equipmentRequests[k];
    assert reqs[k] in reqs;
    assert req in prep.payload.equipmentRequests;
    EquipmentAllocation.ResourceProblemIff(reqs, ctx);
    EquipmentAllocation.AllocationExact(reqs, prep.occupied, ctx, k);
  }

  /** Every item a booking takes is an available, free item of one of its requested,
      serial-tracked SKUs. */
  lemma EquipmentStageGenuine(prep: Prepared, cal: Calendar.CalendarContext, s: Snapshot,
                              items: seq<EquipmentAllocation.Assignment>, a: EquipmentAllocation.Assignment)
    requires EquipmentStageOf(prep, cal, s) == Success(items)
    requires a in items
    ensures s.equipments.Success? && s.equipmentItems.Success? && s.equipmentUsage.Success?
    ensures var ctx := RequestedContext(s, cal);
      && (exists r :: r in prep.payload.equipmentRequests && r.equipmentId == a.equipmentId)
      && EquipmentAllocation.Tracked(ctx, a.equipmentId)
      && (exists item :: (item in Lookup(ctx.availableItemsByEquipmentId, a.equipmentId)
            && item.id == a.equipmentItemId && EquipmentAllocation.ItemFree(ctx, item, prep.occupied)))
  {
    var reqs := RequirementsOf(prep.payload.equipmentRequests);
    if reqs == [] {
      Conflicts.EmptyContextServesNothing(cal.equipmentExceptionsById, reqs, prep.occupied);
      assert false;
    }
    var ctx := RequestedContext(s, cal);
    EquipmentAllocation.AllocationGenuine(reqs, prep.occupied, ctx, a);
    var k :| 0 <= k < |reqs| && a.equipmentId == reqs[k].equipmentId && EquipmentAllocation.Tracked(ctx, reqs[k].equipmentId);
    assert prep.payload.equipmentRequests[k] in prep.payload.equipmentRequests;
  }

  /** A booking without equipment requests takes no items, whatever the equipment queries
      answer. */
  lemma NoEquipmentNoQueries(prep: Prepared, cal: Calendar.CalendarContext, s: Snapshot)
    requires prep.payload.equipmentRequests == []
    ensures EquipmentStageOf(prep, cal, s) == Success([])
  {
    Conflicts.EmptyContextServesNothing(cal.equipmentExceptionsById, [], prep.occupied);
  }

  /** A planned booking, stage by stage: the facts of each stage hold of the command it
      issues. */
  lemma PlanFacts(input: Validation.ReservationCreateInput, s: Snapshot, userId: string)
    requires PlanOf(input, s, userId).Success?
    ensures var cmd := PlanOf(input, s, userId).value;
      && cmd.createdBy == Some(userId) && cmd.status.None?
      && cmd.startAtUtc < cmd.endAtUtc
      && cmd.startAtUtc - Time.MinutesToMs(cmd.bufferBeforeMin) < cmd.endAtUtc + Time.MinutesToMs(cmd.bufferAfterMin)
      && (Validation.ValidateReservationInput(input).value.equipmentRequests == [] ==> cmd.equipmentItems == [])
  {
    var prep, cal, items := PlanStages(input, s, userId);
    PreparedFacts(input, s, prep);
    Validation.AcceptedPayload(input);
    if prep.payload.equipmentRequests == [] {
      NoEquipmentNoQueries(prep, cal, s);
    }
  }

  /** Every failure the equipment stage reports is a 500 (a failed query), a 404 or 400 (an
      unknown or disabled SKU) or a 409 (no capacity, or too few free items). */
  lemma EquipmentFailureStatuses(prep: Prepared, cal: Calendar.CalendarContext, s: Snapshot)
    requires EquipmentStageOf(prep, cal, s).Failure?
    ensures HandleCreateError(EquipmentStageOf(prep, cal, s).error).status in {400, 404, 409, 500}
  {
    var reqs := RequirementsOf(prep.payload.equipmentRequests);
    var ctxr := EquipmentContextFor(reqs, s, cal.equipmentExceptionsById);
    if reqs != [] && !(s.equipments.Failure? || s.equipmentItems.Failure? || s.equipmentUsage.Failure?) {
      EquipmentAllocation.ResourceProblemIff(reqs, RequestedContext(s, cal));
    }
    if ctxr.Success? && Conflicts.EquipmentAvailable(reqs, prep.occupied, ctxr.value) {
      var c := prep.occupied;
      var ctx := ctxr.value;
      EquipmentAllocation.AllocationFailsIff(reqs, c, ctx);
      var k :| 0 <= k < |reqs| && EquipmentAllocation.RequirementAllocation(reqs[k], c, ctx).Failure?
        && EquipmentAllocation.AllocationOf(reqs, c, ctx).error == EquipmentAllocation.RequirementAllocation(reqs[k], c, ctx).error;
      EquipmentAllocation.RequirementAllocationSpec(reqs[k], c, ctx);
    }
  }

  /** A failed calendar-exception query is answered with 500 and the query's error as the
      details. */
  lemma CalendarQueryFailureReported(prep: Prepared, s: Snapshot)
    requires s.calendarExceptions.Failure?
    ensures ScheduleOf(prep, s).Failure?
    ensures var f := HandleCreateError(ScheduleOf(prep, s).error);
      f.status == 500 && f.code == Errors.InternalCode
      && f.details == DomainDetails(Errors.QueryFailure(s.calendarExceptions.error))
  {
  }

  /** A failed reservation query, past the calendar check, is answered with 500 and the
      query's error as the details. */
  lemma ReservationQueryFailureReported(prep: Prepared, s: Snapshot)
    requires s.reservations.Failure? && ScheduleOf(prep, s).Failure?
    requires !ScheduleOf(prep, s).error.ClosedScope?
    requires s.calendarExceptions.Success?
    ensures var f := HandleCreateError(ScheduleOf(prep, s).error);
      f.status == 500 && f.code == Errors.InternalCode
      && f.details == DomainDetails(Errors.QueryFailure(s.reservations.error))
  {
  }

  /** When equipment is requested, the first failed equipment query (SKUs, then items, then
      usage) is answered with 500 and that query's `ConflictQueryError` as the details. */
  lemma EquipmentQueryFailureReported(reqs: seq<Conflicts.EquipmentRequirement>, s: Snapshot,
                                      exceptions: map<string, seq<Interval>>)
    requires reqs != []
    requires s.equipments.Failure? || s.equipmentItems.Failure? || s.equipmentUsage.Failure?
    ensures EquipmentContextFor(reqs, s, exceptions).Failure?
    ensures var f := HandleCreateError(EquipmentContextFor(reqs, s, exceptions).error);
      && f.status == 500 && f.code == Errors.InternalCode
      && f.details.DomainDetails? && f.details.details.FetchFailure?
      && (s.equipments.Failure? ==>
            f.details.details.resource == "equipments" && f.details.details.error == s.equipments.error)
      && (s.equipments.Success? && s.equipmentItems.Failure? ==>
            f.details.details.resource == "equipment_items" && f.details.details.error == s.equipmentItems.error)
      && (s.equipments.Success? && s.equipmentItems.Success? && s.equipmentUsage.Failure? ==>
            f.details.details.resource == "reservation_equipment_items" && f.details.details.error == s.equipmentUsage.error)
  {
  }

  /** A failure to build the equipment context is the equipment stage's failure. */
  lemma EquipmentContextFailurePropagates(prep: Prepared, cal: Calendar.CalendarContext, s: Snapshot)
    requires EquipmentContextFor(RequirementsOf(prep.payload.equipmentRequests), s, cal.equipmentExceptionsById).Failure?
    ensures EquipmentStageOf(prep, cal, s)
      == Failure(EquipmentContextFor(RequirementsOf(prep.payload.equipmentRequests), s, cal.equipmentExceptionsById).error)
  {
  }

  /** A failed lookup of the service, room, customer or staff member is a 500 carrying the
      query's error as the details. */
  lemma LookupQueryFailuresReported(p: Validation.ReservationCreatePayload, staffId: Option<string>, s: Snapshot)
    ensures Conflicts.Truthy(p.serviceId) && s.service.Failure? ==>
      ServiceStage(p, s).Failure? && ServiceStage(p, s).error.Domain?
      && ServiceStage(p, s).error.domain.status == 500
      && ServiceStage(p, s).error.domain.details == Errors.QueryFailure(s.service.error)
    ensures s.room.Failure? ==>
      RoomStage(s).Fail? && RoomStage(s).error.Domain? && RoomStage(s).error.domain.status == 500
      && RoomStage(s).error.domain.details == Errors.QueryFailure(s.room.error)
    ensures Conflicts.Truthy(p.customerId) && s.customerFound.Failure? ==>
      CustomerStage(p, s).Fail? && CustomerStage(p, s).error.Domain? && CustomerStage(p, s).error.domain.status == 500
      && CustomerStage(p, s).error.domain.details == Errors.QueryFailure(s.customerFound.error)
    ensures Conflicts.Truthy(staffId) && s.staff.Failure? ==>
      StaffStage(staffId, s).Fail? && StaffStage(staffId, s).error.Domain? && StaffStage(staffId, s).error.domain.status == 500
      && StaffStage(staffId, s).error.domain.details == Errors.QueryFailure(s.staff.error)
  {
  }
}
