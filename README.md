# Pulseboard reservation engine — a Dafny model

Pulseboard is a multi-tenant booking dashboard. Tenants rent out rooms. A booking may name
a service, a member of staff, a customer and a list of equipment SKUs with quantities. This
project models the part of Pulseboard that decides what can be booked, and proves properties
of that model:

- **Availability search** (`listAvailability`). For every room of a tenant it:
  - takes the room's weekly open hours in the caller's UTC offset;
  - subtracts tenant-wide and room calendar exceptions, then the room's active reservations;
  - lays candidate slots on a 15-minute grid;
  - keeps the candidates whose buffered ("occupied") interval is free for the requested
    staff member and has enough units of every requested SKU;
  - returns one page of slots and a cursor.
- **Calendar resolver** (`buildCalendarContext`, `findClosedScope`, `assertReservationOpen`).
  - It parses PostgreSQL range literals and files the exceptions by scope (tenant, room,
    equipment, staff) and target.
  - It reports the first closed scope a booking would hit, in the fixed order tenant, room,
    global equipment, each SKU, global staff, each staff member.
- **Conflict index and equipment capacity** (`conflicts.ts`):
  - room reservation maps and staff reservation lists;
  - the overlap scan;
  - the equipment availability context (SKUs, lendable items, usage by item and by SKU);
  - the capacity check: capacity minus the units busy over the occupied interval.
- **Booking flow** (`createReservationAction`), stage by stage:
  1. validate the request;
  2. look up the service, room, customer and staff;
  3. resolve the buffers into the occupied interval;
  4. check the calendar, then the room and staff conflicts;
  5. check equipment capacity and allocate individual items greedily;
  6. insert the reservation and its item assignments, deleting the reservation again when
     the assignments fail;
  7. map every failure to an HTTP-like status.
- **Supporting code**:
  - request validation, with the field rules and the cross-field rules of the Zod schema;
  - the domain error classes;
  - the persistence error mapping;
  - the time helpers.

Intervals are half-open `[start, end)` in epoch milliseconds. Two intervals overlap when
`a.start < b.end && b.start < a.end`.

Database reads are modelled as values:
- the availability search receives the fetched rows (`Availability.AvailabilityData`) and the
  outcomes of the three equipment queries;
- the booking flow receives a `Create.Snapshot` holding the outcome of every query it makes.

The database tables the booking flow writes are a class, `Persistence.ReservationStore`. Its
`reservations` and `assignments` sequences are updated in place. The refusal, if any, of each
insert and of the compensating delete is passed in as a parameter. The source does not look
at the delete's outcome, so when that delete is refused the reservation row stays in the
table without its assignments, and the assignments' error is still reported.

Each loop of the source is a method proved against a function that specifies it. Properties
are stated about those functions.

## Model

| member | source | states |
|---|---|---|
| Time.MinutesToMs | src/utils/time.ts:12-14 | the result is a whole number of minutes in ms, equal to the given minutes, and non-negative for non-negative input |
| Time.ExtractTimezoneOffsetMinutes | src/utils/time.ts:21-33 | a trailing `Z` or a missing `±HH:MM` suffix gives offset 0; any offset lies within ±(99 h 99 min) |
| Time.OffsetRoundTrip | src/utils/time.ts:21-33 | appending the `±HH:MM` suffix of any offset below 100 hours to any prefix extracts exactly that offset |
| Intervals.OverlapsIffCommonInstant | src/features/reservations/calendar.ts:249-256 | on non-empty intervals the overlap test holds exactly when the two share an instant |
| Intervals.SortByStart | src/features/reservations/calendar.ts:218-221 | the result is a permutation of the input, ordered by start |
| Errors.ConflictDetected | src/features/reservations/errors.ts:15-20 | a conflict error has status 409, the conflict code, and carries the given message and details |
| Errors.ResourceUnavailable | src/features/reservations/errors.ts:22-31 | status 400 for a disabled resource and 404 for a missing one; the message starts with the resource name; no details |
| Errors.ResourceUnavailableDistinguishes | src/features/reservations/errors.ts:22-31 | the disabled and missing errors for a resource differ in status and in message |
| Errors.NoSlots | src/features/reservations/errors.ts:33-42 | a no-slots error has status 422, its code, and the given details |
| Errors.Internal | src/features/reservations/errors.ts:44-49 | an internal error has status 500, its code, the given message and the given details (the failed query's error) |
| Calendar.ParsePgRange | src/features/reservations/calendar.ts:162-192 | a parsed range is never empty, and the empty text is rejected |
| Calendar.RangeLiteralRoundTrip | src/features/reservations/calendar.ts:162-192 | every literal `[lo,hi]`, `(lo,hi)` etc. reads back as the half-open interval its bounds denote, and is rejected exactly when that interval is empty |
| Calendar.IntervalsFromRecords | src/features/reservations/calendar.ts:231-241 | the result is the parseable ranges of the records, sorted by start |
| Calendar.GroupIntervalsByTarget | src/features/reservations/calendar.ts:201-223 | the result is the per-target grouping of the scope's records that have a target and a parseable range, each list sorted |
| Calendar.BuildCalendarContext | src/features/reservations/calendar.ts:56-82 | the context is the one `CalendarContextOf` defines from the records |
| Calendar.CalendarContextPlacement | src/features/reservations/calendar.ts:56-82 | an interval is in each list of the context exactly when some record of that scope (and target, or without a target for the global lists) has that parsed range |
| Calendar.TargetGroupMembers | src/features/reservations/calendar.ts:201-223 | an interval is in a target's group exactly when some record of that scope names that non-empty target and parses to it |
| Calendar.FirstOverlapping | src/features/reservations/calendar.ts:249-256 | none is found exactly when no interval overlaps the target; a found one is in the list and overlaps |
| Calendar.FirstOverlap | src/features/reservations/calendar.ts:249-256 | the scan returns the first overlapping interval, as `FirstOverlapping` |
| Calendar.FirstTargetHit | src/features/reservations/calendar.ts:116-141 | the loop over target ids returns the first hit among the per-id checks, in id order |
| Calendar.FindClosedScope | src/features/reservations/calendar.ts:89-144 | the reason is the first hit over the checks in the order tenant, room, global equipment, each SKU, global staff, each staff member |
| Calendar.AssertReservationOpen | src/features/reservations/calendar.ts:149-154 | it passes exactly when no closed scope is found, and otherwise fails with the reason found |
| Calendar.OpenIffNoApplicableException | src/features/reservations/calendar.ts:89-144 | no closed scope is found exactly when no tenant, room, global equipment, per-SKU, global staff or per-staff exception overlaps the interval |
| Calendar.ReasonIsGenuine | src/features/reservations/calendar.ts:89-144 | a reported reason's interval overlaps the booking and belongs to the list of its scope and target, and the target is one of those asked about |
| Calendar.TenantThenRoomPriority | src/features/reservations/calendar.ts:96-113 | a tenant exception wins over everything; failing that, a room exception wins over the rest |
| Calendar.ScopeCheckAt | src/features/reservations/calendar.ts:89-144 | gives the scope, target and list of the k-th check of the fixed order |
| Conflicts.BuildRoomReservationMap | src/features/reservations/conflicts.ts:85-106 | the map is the one `RoomReservationMapOf` defines with the range parser |
| Conflicts.RoomReservationPlacement | src/features/reservations/conflicts.ts:85-106 | an interval is under a room exactly when some reservation names that non-empty room and has a parseable range equal to it; each list is sorted by start |
| Conflicts.BuildStaffReservationList | src/features/reservations/conflicts.ts:114-133 | the list is the one `StaffReservationListOf` defines |
| Conflicts.StaffReservationPlacement | src/features/reservations/conflicts.ts:114-133 | an interval is listed exactly when a staff id was given and some reservation of that member has that parsed range; the list is sorted |
| Conflicts.BuildReservationContext | src/features/reservations/conflicts.ts:70-78 | the context pairs the room map and the staff list of the same rows |
| Conflicts.HasAnyOverlap | src/features/reservations/conflicts.ts:142-149 | true exactly when some interval overlaps `[start, end)` |
| Conflicts.QueryError | src/features/reservations/conflicts.ts:54-68 | a query error has status 500, the query-failed code, names the resource in its message and carries the query's error as details |
| Conflicts.BuildEquipmentAvailabilityContext | src/features/reservations/conflicts.ts:169-260 | the first failing query (SKUs, then items, then usage) gives its query error, carrying that query's error; otherwise the context is `EquipmentContextOf` the three row lists |
| Conflicts.CreateEmptyEquipmentContext | src/features/reservations/conflicts.ts:262-272 | every map is empty except the equipment exceptions, which are kept |
| Conflicts.AvailableItemsPlacement | src/features/reservations/conflicts.ts:211-222 | an item is filed under a SKU exactly when it belongs to that SKU and its status is available |
| Conflicts.ItemUsagePlacement | src/features/reservations/conflicts.ts:224-246 | an interval is in an item's usage exactly when the item is known and some usage row of that item has that parsed range |
| Conflicts.SkuUsagePlacement | src/features/reservations/conflicts.ts:224-246 | an interval is in a SKU's usage exactly when some usage row of a known item of that SKU has that parsed range |
| Conflicts.CountBusy | src/features/reservations/conflicts.ts:310-329 | the loop computes the busy units as `BusyCount`: busy items when the SKU has items, otherwise overlapping SKU usage |
| Conflicts.CheckEquipmentAvailability | src/features/reservations/conflicts.ts:281-338 | true exactly when every requirement is met: SKU known, no overlapping exception, non-zero capacity, free units at least the quantity |
| Conflicts.CountOverlappingZeroIff | src/features/reservations/conflicts.ts:323-329 | the overlap count is zero exactly when nothing overlaps |
| Conflicts.CountBusyItemsZeroIff | src/features/reservations/conflicts.ts:310-322 | no item is counted busy exactly when no item's usage overlaps |
| Conflicts.ItemBackedFreeUnitsNonNegative | src/features/reservations/conflicts.ts:301-322 | for a SKU with lendable items, the busy count lies between zero and the capacity |
| Conflicts.IdleEquipmentServes | src/features/reservations/conflicts.ts:281-338 | a known SKU with no overlapping exception or usage serves any quantity from 1 up to its capacity |
| Conflicts.EmptyContextServesNothing | src/features/reservations/conflicts.ts:262-272 | against the empty context, availability holds exactly when nothing is wanted |
| Subtraction.SubtractInterval | src/features/availability/server.ts:766-790 | a disjoint subtractor leaves the interval whole; otherwise at most two non-empty pieces, inside the interval, apart from the subtractor, left piece first |
| Subtraction.SubtractIntervalCovers | src/features/availability/server.ts:766-790 | an instant is covered by the pieces exactly when it is in the interval and not in the subtractor |
| Subtraction.SubtractIntervals | src/features/availability/server.ts:741-758 | the loop computes `SubtractionOf`: the subtractors, sorted by start, taken out one after another |
| Subtraction.SubtractFromAll | src/features/availability/server.ts:748-752 | the inner loop replaces every interval by its pieces, in order |
| Subtraction.SubtractionCovers | src/features/availability/server.ts:741-758 | an instant is covered by the result exactly when it is covered by the input and by no subtractor |
| Subtraction.SubtractionSound | src/features/availability/server.ts:741-758 | every piece lies inside an input interval and overlaps no subtractor |
| Subtraction.EmptyStaysEmpty | src/features/availability/server.ts:753-755 | once nothing is left, further subtractors leave nothing, so the early exit changes no result |
| OpenHours.ParseRoomOpenHours | src/features/availability/server.ts:599-625 | every key kept has at least one segment; a key is kept exactly when the input is an object whose field of that weekday key is an array holding at least one well-formed `{start, end}` segment |
| OpenHours.ParsedDaySegments | src/features/availability/server.ts:599-625 | a day holds exactly the well-formed segments of that day's array, in array order, and any other key holds nothing |
| OpenHours.ParsedSegmentsComeFromInput | src/features/availability/server.ts:599-625 | a segment is kept for a day exactly when a well-formed element of that day's array reads as it |
| OpenHours.ParsedSegmentsInOrder | src/features/availability/server.ts:608-619 | splitting a day's array at any index splits the day's segments there, so array order is kept |
| OpenHours.ParseTimeToMinutes | src/features/availability/server.ts:720-733 | text not of the form `HH:MM` gives 0; the result lies between 0 and 99 h 99 min |
| OpenHours.ParseTimeDecimal | src/features/availability/server.ts:725-733 | on `HH:MM` text the result is the decimal value of the hours times 60 plus the decimal value of the minutes |
| OpenHours.ParseTimeRoundTrip | src/features/availability/server.ts:725-733 | `HH:MM` written with two digits each reads back as hours * 60 + minutes |
| OpenHours.LocalDayStartUtc | src/features/availability/server.ts:696-705 | the result is the start of the local day holding the instant: at or before it, less than a day earlier, on a local midnight |
| OpenHours.WeekdayIndex | src/features/availability/server.ts:713-718 | the weekday index lies in 0..6 |
| OpenHours.NextDayNextWeekday | src/features/availability/server.ts:713-718 | a day later is the next weekday, modulo 7 |
| OpenHours.DayOpenIntervals | src/features/availability/server.ts:664-679 | the loop over one day's segments computes `DayIntervals` |
| OpenHours.BuildRoomOpenIntervals | src/features/availability/server.ts:644-688 | the loop over days computes `RoomOpenIntervalsOf`, with the whole window when no hours are set |
| OpenHours.DayIntervalsInWindow | src/features/availability/server.ts:664-679 | every interval of a day is non-empty and inside the window |
| OpenHours.OpenIntervalsInWindow | src/features/availability/server.ts:644-688 | every interval of the day loop is non-empty and inside the window |
| OpenHours.RoomOpenIntervalsInWindow | src/features/availability/server.ts:644-688 | for a non-empty window, every open interval is non-empty and inside the window |
| OpenHours.NoHoursWholeWindow | src/features/availability/server.ts:683-685 | a room without hours is open over the whole window |
| Slots.AlignToInterval | src/features/availability/server.ts:855-860 | the result is on the grid and at most one step past the value |
| Slots.AlignIsLeast | src/features/availability/server.ts:855-860 | the result is the least grid point at or after the value |
| Slots.GenerateCandidateSlots | src/features/availability/server.ts:804-847 | the loops compute `GeneratedCandidates` |
| Slots.RunShape | src/features/availability/server.ts:824-844 | the k-th slot of a free interval starts k steps after the first start and ends inside the interval and the window |
| Slots.RunWellPlaced | src/features/availability/server.ts:824-844 | each slot of a run has the service's duration and buffers, lies inside its free interval and the window, and sits on the step grid |
| Slots.GeneratedWellPlaced | src/features/availability/server.ts:804-847 | every generated slot is well placed in some free interval |
| Slots.BuildCandidateSlotsForRooms | src/features/availability/server.ts:434-495 | the loop computes `CandidatesForRooms`: each room's candidates in room order, stably sorted by start |
| Slots.FreeIntervalClear | src/features/availability/server.ts:434-495 | a slot inside a free interval lies inside open hours and overlaps no tenant exception, room exception or room reservation |
| Slots.AllRoomCandidatesClear | src/features/availability/server.ts:434-495 | every candidate belongs to a listed room, is clear of its blockers, and has the right duration, buffers and window |
| Slots.CandidatesForRoomsSound | src/features/availability/server.ts:434-495 | the same holds after sorting |
| Slots.CandidatesForRoomsSorted | src/features/availability/server.ts:494 | the candidates come ordered by start |
| Slots.CandidatePasses | src/features/availability/server.ts:540-553 | a candidate passes exactly when the staff member is free and the equipment is available over its occupied interval |
| Slots.FinalizeSlots | src/features/availability/server.ts:527-581 | the loop computes `FinalizeOf`: the first page of passing candidates and the next start as cursor |
| Slots.PassingMembers | src/features/availability/server.ts:540-553 | a candidate survives the filter exactly when it is a candidate and passes |
| Slots.PageBound | src/features/availability/server.ts:569-580 | a page holds at most page-size slots; a cursor appears exactly when more candidates pass, and then the page is full |
| Slots.PageSound | src/features/availability/server.ts:527-581 | every slot returned comes from a passing candidate |
| Slots.PageSlotSound | src/features/availability/server.ts:527-581 | every slot on a page comes from a candidate of a listed room that has the service duration, lies in the window, is clear of blockers and passes the staff and equipment checks |
| Slots.CursorSound | src/features/availability/server.ts:569-580 | the cursor is the start of a passing candidate |
| Slots.LastPageComplete | src/features/availability/server.ts:527-581 | without a cursor, every passing candidate is on the page |
| Slots.PassingSorted | src/features/availability/server.ts:540-553 | filtering keeps the order by start |
| Slots.CursorAfterPage | src/features/availability/server.ts:569-580 | for sorted candidates, no slot on the page starts after the cursor |
| Availability.InvalidInputError | src/features/availability/server.ts:18-26 | status 422, code `INVALID_INPUT` |
| Availability.ResourceNotFoundError | src/features/availability/server.ts:28-36 | status 404, the not-found code, message `<resource> not found` |
| Availability.QueryError | src/features/availability/server.ts:38-46 | status 500, the query-failed code, message `Failed to fetch <resource>`, and the query's error as details |
| Availability.Requirements | src/features/availability/server.ts:209-213 | one requirement per wanted SKU, in order |
| Availability.Normalize | src/features/availability/server.ts:209-213 | the page size defaults to 50 and lies in 1..50; one requirement per wanted SKU, each with an id and a positive quantity |
| Availability.ValidateEquipmentAvailability | src/features/availability/server.ts:1066-1076 | it passes exactly when every wanted SKU exists and is active; otherwise 404 naming equipment |
| Availability.LoadEquipmentContext | src/features/availability/server.ts:254-262 | the method computes `EquipmentContextFor`: without wanted SKUs the empty context keeping the equipment exceptions; otherwise the first failing query (SKUs, items, usage) as a query error, or the context built from the rows |
| Availability.ListAvailability | src/features/availability/server.ts:198-300 | the method computes `ListAvailabilityOf` |
| Availability.SearchStages | src/features/availability/server.ts:198-300 | a successful search had valid input, loaded its equipment context, and returned either an empty page (no candidates) or the finalized page of the candidates |
| Availability.ListAvailabilityPageBound | src/features/availability/server.ts:209-213 | a successful search returns at most the requested page size of slots, 50 when none is given |
| Availability.ListAvailabilitySound | src/features/availability/server.ts:198-300 | every slot is a listed room's candidate with the service duration, inside the window, clear of blockers, with staff and equipment free |
| Availability.NoEquipmentNoQueries | src/features/availability/server.ts:254-264 | without wanted SKUs the outcome does not depend on the equipment queries |
| Availability.MissingEquipmentNotFound | src/features/availability/server.ts:1066-1076 | a wanted SKU that is absent or inactive makes the search fail with 404 naming equipment |
| Validation.AlignedIff | src/features/reservations/validation.ts:174-180 | aligned to the slot grid exactly when the instant is a multiple of 15 minutes |
| Validation.RepeatIndicesIff | src/features/reservations/validation.ts:82-106 | an index is reported exactly when an earlier element equals it |
| Validation.NoRepeatsIffDistinct | src/features/reservations/validation.ts:82-106 | nothing is reported exactly when all elements are distinct |
| Validation.DuplicateIssues | src/features/reservations/validation.ts:82-106 | the loop with its `seen` set reports one issue per repeated index, in order |
| Validation.TimeIssues | src/features/reservations/validation.ts:46-80 | the time rules report the issues of `TimeIssuesOf`, in order |
| Validation.CrossFieldIssues | src/features/reservations/validation.ts:42-107 | the refinement reports the time issues, then the SKU duplicates, then the staff duplicates |
| Validation.TimeIssuesForIff | src/features/reservations/validation.ts:46-80 | each broken time rule adds its own issue and no other rule adds it; no issue exactly when no rule is broken |
| Validation.TimeIssuesIff | src/features/reservations/validation.ts:46-80 | no time issue exactly when start is before end, both lie on the 15-minute grid and both carry the same offset; each broken rule reports its own issue |
| Validation.AcceptedPayload | src/features/reservations/validation.ts:147-171 | an accepted payload has ids, start before end on the grid, a common offset, distinct SKUs with positive quantities, distinct staff ids, buffers in range and trimmed notes |
| Validation.CleanPayload | src/features/reservations/validation.ts:42-107 | a payload with no cross-field issue has start before end, both on the 15-minute grid, the offset of its end time, and distinct SKU and staff ids |
| Validation.AcceptedIff | src/features/reservations/validation.ts:147-171 | a request meeting the field rules is accepted exactly when the time rules hold and the SKU and staff lists have no duplicates |
| Validation.TrimIdentityOfTrimmed | src/features/reservations/validation.ts:39 | trimming twice equals trimming once, so accepted notes are stable |
| Persistence.MapPostgrestError | src/features/reservations/persistence.ts:142-150 | conflict codes map to 409, a foreign-key violation to 422, anything else to 500, each with its own code and class, keeping the cause |
| Persistence.RowOf | src/features/reservations/persistence.ts:77-101 | the row carries the new id, the command's tenant and room, and its status defaulting to confirmed |
| Persistence.AssignmentsOf | src/features/reservations/persistence.ts:105-113 | one assignment row per allocated item, in order, tied to the reservation and tenant |
| Persistence.WithoutMembers | src/features/reservations/persistence.ts:116-123 | the delete removes exactly the rows with that id and tenant |
| Persistence.WithoutAbsent | src/features/reservations/persistence.ts:116-123 | deleting an absent id changes nothing |
| Persistence.InsertThenDeleteRestores | src/features/reservations/persistence.ts:116-123 | inserting a fresh row and deleting it again restores the table |
| Persistence.ReservationStore.constructor | src/features/reservations/persistence.ts:70-140 | an empty store |
| Persistence.ReservationStore.InsertReservation | src/features/reservations/persistence.ts:78-101 | a failure changes nothing; otherwise the row is appended with the next id |
| Persistence.ReservationStore.InsertAssignments | src/features/reservations/persistence.ts:105-113 | a failure changes nothing; otherwise the rows are appended |
| Persistence.ReservationStore.DeleteReservation | src/features/reservations/persistence.ts:116-123 | a refused delete changes nothing and reports its error; otherwise the rows with that id and tenant are removed and nothing else changes |
| Persistence.InsertReservationWithEquipment | src/features/reservations/persistence.ts:70-140 | a failed reservation insert leaves both tables as they were; a failed assignment insert gives its mapped error and leaves the assignments as they were, and the reservations too when the compensating delete succeeds, but with the new row left in place when that delete is refused; otherwise the row and its assignments are added and the result reflects the row |
| EquipmentAllocation.ValidateEquipmentResources | src/features/reservations/create.ts:482-495 | it passes exactly when no resource problem is found, and otherwise fails with the first one |
| EquipmentAllocation.ResourceProblemIff | src/features/reservations/create.ts:482-495 | no problem exactly when every SKU is known and active; otherwise the first unusable SKU gives 404 when missing and 400 when disabled |
| EquipmentAllocation.SelectItems | src/features/reservations/create.ts:510-523 | the loop takes the free items in order until it holds the quantity |
| EquipmentAllocation.AllocateEquipmentItems | src/features/reservations/create.ts:497-533 | the method computes `AllocationOf` |
| EquipmentAllocation.RequirementAssignmentsGenuine | src/features/reservations/create.ts:505-523 | every assignment of a requirement is a free, lendable item of that tracked SKU |
| EquipmentAllocation.AllocationFailsIff | src/features/reservations/create.ts:525-529 | allocation fails exactly when some requirement is short of free items, with the error of the first one |
| EquipmentAllocation.AllocationGenuine | src/features/reservations/create.ts:497-533 | every assignment is a free, lendable item of a tracked SKU that was requested |
| EquipmentAllocation.AllocationExact | src/features/reservations/create.ts:497-533 | with distinct SKUs, each SKU gets exactly its requested quantity, or nothing when untracked |
| EquipmentAllocation.FreeCount | src/features/reservations/create.ts:510-523 | the free items number the items minus the busy ones |
| EquipmentAllocation.AvailabilityImpliesAllocation | src/features/reservations/create.ts:201-222 | when the capacity check passes and the stock does not exceed the lendable items, allocation succeeds |
| EquipmentAllocation.RequirementCount | src/features/reservations/create.ts:505-523 | a requirement's assignments count exactly its contribution for its own SKU and zero for any other |
| Create.ResolveBuffer | src/features/reservations/create.ts:107-110 | an override wins, then the service default, then zero |
| Create.OccupiedOf | src/features/reservations/create.ts:112-119 | the occupied interval extends the visible one by exactly the buffer minutes on each side |
| Create.Prepare | src/features/reservations/create.ts:81-134 | the method computes `PrepareOf`: validation, then the checks on the payload |
| Create.PreparePayload | src/features/reservations/create.ts:83-134 | the method computes `PreparePayloadOf`: staff count, service, room, buffers, customer and staff stages, stopping at the first failure |
| Create.CheckSchedule | src/features/reservations/create.ts:141-184 | the method computes `ScheduleOf`: calendar, room conflict, staff conflict |
| Create.BuildEquipmentContext | src/features/reservations/create.ts:445-480 | the method computes the equipment context of the requested SKUs, or the query error |
| Create.ReserveEquipment | src/features/reservations/create.ts:186-222 | the method computes `EquipmentStageOf`: requirements, context, resource validation, capacity, allocation |
| Create.HandleCreateError | src/features/reservations/create.ts:267-326 | validation failures give 422 with the issues; a closed scope gives 409 with its reason; domain and persistence errors keep their status, code and message; anything else gives 500 |
| Create.PlanReservation | src/features/reservations/create.ts:76-240 | the method computes `PlanOf`: the first checks, the schedule checks, then the equipment stage, stopping at the first failure |
| Create.CreateReservationAction | src/features/reservations/create.ts:76-265 | a failed plan or a failed reservation insert leaves the store unchanged and returns the handled error; a failed assignment insert returns its handled error and leaves the assignments unchanged, and the reservations too unless the compensating delete is refused, in which case the new row stays; otherwise the reservation row and its assignments are added and the response reflects them |
| Create.PlanStages | src/features/reservations/create.ts:76-240 | a planned booking passed the first checks, the schedule checks and the equipment stage, and its command is built from their results |
| Create.MultipleStaffRejected | src/features/reservations/create.ts:83-90 | a valid request with more than one staff member is rejected with 422 |
| Create.PreparedFacts | src/features/reservations/create.ts:81-134 | a prepared booking passed validation, names at most one staff member, uses an active room (and active staff, an existing customer and the fetched service when named), and its occupied interval is the buffered, non-empty interval |
| Create.ScheduleOpen | src/features/reservations/create.ts:141-157 | a booking past the calendar stage overlaps no applicable tenant, room, equipment or staff exception |
| Create.SchedulePassed | src/features/reservations/create.ts:159-184 | a booking past the conflict stage had its reservations fetched, and neither its room nor its named staff member is busy over the occupied interval |
| Create.ScheduleFree | src/features/reservations/create.ts:159-184 | a booking past the conflict stage overlaps no parseable reservation of its room, nor of its staff member when one is named |
| Create.EquipmentStageExact | src/features/reservations/create.ts:186-222 | after the equipment stage, every requested SKU is usable and met, and gets exactly its quantity (nothing when untracked) |
| Create.EquipmentStageGenuine | src/features/reservations/create.ts:186-222 | every allocated item is a free, lendable item of a requested, tracked SKU |
| Create.NoEquipmentNoQueries | src/features/reservations/create.ts:193-199 | without equipment requests the stage succeeds with no items |
| Create.PlanFacts | src/features/reservations/create.ts:224-240 | the command is created by the user, has no explicit status, and has start before end and a non-empty occupied interval; no requests means no items |
| Create.EquipmentFailureStatuses | src/features/reservations/create.ts:262-264 | an equipment-stage failure is reported as 400, 404, 409 or 500 |
| Create.EquipmentQueryFailed | src/features/reservations/create.ts:474-478 | a failed equipment query becomes a 500 internal error whose details are the `ConflictQueryError`: its resource, message and query error |
| Create.LookupQueryFailuresReported | src/features/reservations/create.ts:340-402 | a failed service, room, customer or staff lookup is a 500 whose details are that query's error |
| Create.CalendarQueryFailureReported | src/features/reservations/create.ts:418-420 | a failed calendar-exception query is answered with 500, the internal code and the query's error as details |
| Create.ReservationQueryFailureReported | src/features/reservations/create.ts:438-440 | past the calendar check, a failed reservation query is answered with 500, the internal code and the query's error as details |
| Create.EquipmentQueryFailureReported | src/features/reservations/create.ts:474-478 | with equipment requested, the first failed equipment query (SKUs, items, usage) is answered with 500 and details naming that resource and carrying its error |
| Create.EquipmentContextFailurePropagates | src/features/reservations/create.ts:186-222 | a failure to build the equipment context is the equipment stage's failure |

## Left out

- Date parsing and ISO formatting (`Date.parse`, `toIsoString`, `formatIsoWithOffset`, `buildRangeLiteral`, `buildPostgresRangeLiteral`): an instant is an integer count of epoch milliseconds paired with its ISO text. In stored range literals the endpoints are written as decimal epoch milliseconds.
- Supabase I/O: each query's outcome is a value given to the model, as rows or as a failure. The range filters the queries apply on the server are not modelled; the model works on whatever rows it is given.
- `requireUser` and `createSupabaseServerClient`: the signed-in user is a `userId` parameter.
- The database-generated reservation id is modelled as a counter in `Persistence.ReservationStore`.
- Cascading deletes, database exclusion constraints and concurrent writers are not modelled. Conflicts are modelled as the error codes the database returns.
- The `NaN` guards on parsed dates, and `stock ?? 0` for a missing stock: NaN does not exist among integers, and stock is always present in the model.
- Zod's own issue lists for broken field rules are not spelled out: the model rejects with an empty issue list. Note lengths count characters, not UTF-16 code units. The `z.iso.datetime` format is taken as given by each instant's text.
- Logging (`console.error`) is left out.
- A failed query's error object is modelled by its text: it is carried as the `details` of `Errors.Internal`, `Conflicts.QueryError` and `Availability.QueryError`, but its fields (code, hint) are not modelled separately.
- Create.CreateReservationAction: the `Unexpected` failure variant (an exception of unknown type) is never produced by the model's stages, so only its mapping in `HandleCreateError` is modelled.
- `src/features/availability/server.ts` repeats the room and staff reservation builders, the overlap scan and the equipment context and capacity helpers (897-1064, 1085-1142). The model states them once, in `Conflicts`, following `src/features/reservations/conflicts.ts`.
- In-place `Array.sort` calls become a stable sort on sequences (`Intervals.SortByStart`, `Sorting.SortBy`), not an in-place array algorithm.
- Create.ScheduleFree: requires a non-empty room id, which validation guarantees for every prepared booking.
- EquipmentAllocation.AvailabilityImpliesAllocation: requires the SKU's stock to be at most its number of lendable items. When stock exceeds the items, capacity can pass while allocation runs short, and the source then reports the shortage.
- Other modules of the repository (authentication, tenant routing, metrics, user interface) are not part of this model.
