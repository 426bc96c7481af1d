/** The checks a booking request passes before anything is looked up
    (src/features/reservations/validation.ts): the per-field rules of the request schema, the
    cross-field rules that report one issue each, and the payload built from a request that
    passes. JSON numbers are `real`, so "is an integer" is a rule of its own. */
module Validation {
  import opened Wrappers
  import opened Strings
  import Time
  import AvailabilitySchema

  const SlotIntervalMinutes: int := 15
  const BufferMaxMinutes: int := 30
  const MaxListLength: int := 20
  const MaxNotesLength: int := 2000

  // ---------------------------------------------------------------------------------------
  // The request as received

  datatype EquipmentRequestInput = EquipmentRequestInput(equipmentId: string, quantity: real)

  datatype BufferOverrideInput = BufferOverrideInput(beforeMin: real, afterMin: real)

  /** The request body; `unknownKeys` lists the keys the schema does not declare. */
  datatype ReservationCreateInput = ReservationCreateInput(
    tenantId: string,
    serviceId: Option<string>,
    roomId: string,
    startAt: Time.IsoDateTime,
    endAt: Time.IsoDateTime,
    bufferOverride: Option<BufferOverrideInput>,
    equipmentRequests: Option<seq<EquipmentRequestInput>>,
    staffIds: Option<seq<string>>,
    customerId: Option<string>,
    notes: Option<string>,
    unknownKeys: seq<string>)

  predicate ValidRequest(r: EquipmentRequestInput) {
    |r.equipmentId| >= 1 && AvailabilitySchema.IsInteger(r.quantity) && r.quantity >= 1.0
  }

  predicate ValidBufferMinutes(m: real) {
    AvailabilitySchema.IsInteger(m) && 0.0 <= m <= BufferMaxMinutes as real
  }

  /** The field rules of `reservationCreateSchema`, one per key of the strict object. */
  predicate FieldsValid(i: ReservationCreateInput) {
    && |i.tenantId| >= 1
    && AvailabilitySchema.ValidOptionalId(i.serviceId)
    && |i.roomId| >= 1
    && AvailabilitySchema.ValidIsoDateTime(i.startAt)
    && AvailabilitySchema.ValidIsoDateTime(i.endAt)
    && (i.bufferOverride.Some? ==>
          ValidBufferMinutes(i.bufferOverride.value.beforeMin) && ValidBufferMinutes(i.bufferOverride.value.afterMin))
    && (i.equipmentRequests.Some? ==>
          |i.equipmentRequests.value| <= MaxListLength
          && forall r :: r in i.equipmentRequests.value ==> ValidRequest(r))
    && (i.staffIds.Some? ==>
          |i.staffIds.value| <= MaxListLength
          && forall s :: s in i.staffIds.value ==> |s| >= 1)
    && AvailabilitySchema.ValidOptionalId(i.customerId)
    && (i.notes.Some? ==> |Trim(i.notes.value)| <= MaxNotesLength)
    && i.unknownKeys == []
  }

  // ---------------------------------------------------------------------------------------
  // The request after the field rules (defaults applied, notes trimmed)

  datatype EquipmentRequest = EquipmentRequest(equipmentId: string, quantity: int)

  datatype BufferOverride = BufferOverride(beforeMin: int, afterMin: int)

  datatype ReservationCreateData = ReservationCreateData(
    tenantId: string,
    serviceId: Option<string>,
    roomId: string,
    startAt: Time.IsoDateTime,
    endAt: Time.IsoDateTime,
    bufferOverride: Option<BufferOverride>,
    equipmentRequests: seq<EquipmentRequest>,
    staffIds: seq<string>,
    customerId: Option<string>,
    notes: Option<string>)

  function Request(r: EquipmentRequestInput): EquipmentRequest {
    EquipmentRequest(r.equipmentId, r.quantity.Floor)
  }

  function Requests(rs: seq<EquipmentRequestInput>): (r: seq<EquipmentRequest>)
    ensures |r| == |rs|
    ensures forall k :: 0 <= k < |rs| ==> r[k] == Request(rs[k])
  {
    if rs == [] then [] else [Request(rs[0])] + Requests(rs[1..])
  }

  /** The parsed data: lists default to empty, notes are trimmed. */
  function ParsedData(i: ReservationCreateInput): ReservationCreateData {
    ReservationCreateData(
      i.tenantId, i.serviceId, i.roomId, i.startAt, i.endAt,
      if i.bufferOverride.Some?
      then Some(BufferOverride(i.bufferOverride.value.beforeMin.Floor, i.bufferOverride.value.afterMin.Floor))
      else None,
      if i.equipmentRequests.Some? then Requests(i.equipmentRequests.value) else [],
      if i.staffIds.Some? then i.staffIds.value else [],
      i.customerId,
      if i.notes.Some? then Some(Trim(i.notes.value)) else None)
  }

  // ---------------------------------------------------------------------------------------
  // Cross-field rules

  /** An issue as reported to the caller: the dotted path and the message. */
  datatype Issue = Issue(path: string, message: string)

  /** `isAlignedToSlot`: no seconds, no milliseconds, and a whole number of minutes since the
      epoch that is a multiple of 15. */
  predicate IsAlignedToSlot(epochMs: int) {
    var utcSeconds := (epochMs / 1000) % 60;
    var utcMilliseconds := epochMs % 1000;
    utcSeconds == 0 && utcMilliseconds == 0 && (epochMs / 60000) % SlotIntervalMinutes == 0
  }

  /** Aligned means: a whole multiple of 15 minutes. */
  lemma AlignedIff(epochMs: int)
    ensures IsAlignedToSlot(epochMs) <==> epochMs % 900000 == 0
  {
    var t := epochMs;
    if IsAlignedToSlot(t) {
      assert t % 900000 == 0 by { AlignedIsMultiple(t); }
    }
    if t % 900000 == 0 {
      assert IsAlignedToSlot(t) by { MultipleIsAligned(t); }
    }
  }

  lemma AlignedIsMultiple(t: int)
    requires IsAlignedToSlot(t)
    ensures t % 900000 == 0
  {
    var s := t / 1000;
    assert t == s * 1000;
    var m := s / 60;
    assert s == m * 60;
    assert t == m * 60000;
    assert t / 60000 == m;
    var h := m / 15;
    assert m == h * 15;
    assert t == h * 900000;
  }

  lemma MultipleIsAligned(t: int)
    requires t % 900000 == 0
    ensures IsAlignedToSlot(t)
  {
    var h := t / 900000;
    assert t == h * 900000;
    assert t / 1000 == h * 900;
    assert t % 1000 == 0;
    assert (h * 900) % 60 == 0;
    assert t / 60000 == h * 15;
    assert (h * 15) % 15 == 0;
  }

  /** The indices whose id already occurred earlier in the list: the second and later
      occurrences, never the first. */
  function RepeatIndices(ids: seq<string>): seq<nat> {
    if ids == [] then []
    else
      var n := |ids| - 1;
      RepeatIndices(ids[..n]) + (if ids[n] in ids[..n] then [n] else [])
  }

  lemma {:induction false} RepeatIndicesIff(ids: seq<string>, i: int)
    ensures i in RepeatIndices(ids) <==> 0 <= i < |ids| && exists j :: 0 <= j < i && ids[j] == ids[i]
  {
    if ids != [] {
      var n := |ids| - 1;
      RepeatIndicesIff(ids[..n], i);
      if 0 <= i < n {
        assert ids[..n][i] == ids[i];
        if exists j :: 0 <= j < i && ids[j] == ids[i] {
          var j :| 0 <= j < i && ids[j] == ids[i];
          assert ids[..n][j] == ids[i];
        }
      }
      if i == n && ids[n] in ids[..n] {
        var j :| 0 <= j < n && ids[..n][j] == ids[n];
        assert ids[j] == ids[n];
      }
    }
  }

  /** No index is reported exactly when the ids are pairwise distinct. */
  lemma NoRepeatsIffDistinct(ids: seq<string>)
    ensures RepeatIndices(ids) == [] <==> forall i, j :: 0 <= j < i < |ids| ==> ids[j] != ids[i]
  {
    if RepeatIndices(ids) != [] {
      var i := RepeatIndices(ids)[0];
      RepeatIndicesIff(ids, i);
    } else {
      forall i, j | 0 <= j < i < |ids| ensures ids[j] != ids[i] {
        RepeatIndicesIff(ids, i);
      }
    }
  }

  function EquipmentDuplicateIssue(i: nat): Issue {
    Issue("equipmentRequests." + NatToString(i) + ".equipmentId", "Duplicate equipmentId detected")
  }

  function StaffDuplicateIssue(i: nat): Issue {
    Issue("staffIds." + NatToString(i), "staffIds contains duplicates")
  }

  function Issues(indices: seq<nat>, issue: nat -> Issue): (r: seq<Issue>)
    ensures |r| == |indices|
    ensures forall k :: 0 <= k < |indices| ==> r[k] == issue(indices[k])
  {
    if indices == [] then [] else Issues(indices[..|indices| - 1], issue) + [issue(indices[|indices| - 1])]
  }

  function EquipmentIds(rs: seq<EquipmentRequest>): (ids: seq<string>)
    ensures |ids| == |rs| && forall k :: 0 <= k < |rs| ==> ids[k] == rs[k].equipmentId
  {
    seq(|rs|, k requires 0 <= k < |rs| => rs[k].equipmentId)
  }

  const EndBeforeStartIssue: Issue := Issue("endAt", "endAt must be later than startAt")
  const StartMisalignedIssue: Issue := Issue("startAt", "startAt must align to 15-minute increments")
  const EndMisalignedIssue: Issue := Issue("endAt", "endAt must align to 15-minute increments")
  const OffsetMismatchIssue: Issue := Issue("endAt", "startAt and endAt must share the same timezone offset")

  /** The first three rules of the `superRefine` callback: order, grid and UTC offset. */
  function TimeIssuesOf(start: Time.IsoDateTime, end: Time.IsoDateTime): seq<Issue> {
    TimeIssuesFor(start.epochMs >= end.epochMs, !IsAlignedToSlot(start.epochMs), !IsAlignedToSlot(end.epochMs),
      Time.ExtractTimezoneOffsetMinutes(start.text) != Time.ExtractTimezoneOffsetMinutes(end.text))
  }

  /** The time issues, given which of the rules are broken, in the order they are added. */
  function TimeIssuesFor(late: bool, startOffGrid: bool, endOffGrid: bool, offsetsDiffer: bool): seq<Issue> {
    (if late then [EndBeforeStartIssue] else [])
    + (if startOffGrid then [StartMisalignedIssue] else [])
    + (if endOffGrid then [EndMisalignedIssue] else [])
    + (if offsetsDiffer then [OffsetMismatchIssue] else [])
  }

  /** The issues of the `superRefine` callback, in the order it adds them. */
  function CrossFieldIssuesOf(d: ReservationCreateData): seq<Issue> {
    TimeIssuesOf(d.startAt, d.endAt)
    + Issues(RepeatIndices(EquipmentIds(d.equipmentRequests)), EquipmentDuplicateIssue)
    + Issues(RepeatIndices(d.staffIds), StaffDuplicateIssue)
  }

  lemma RepeatStep(ids: seq<string>, i: int)
    requires 0 <= i < |ids|
    ensures RepeatIndices(ids[..i + 1]) == RepeatIndices(ids[..i]) + (if ids[i] in ids[..i] then [i] else [])
  {
    assert ids[..i + 1][..i] == ids[..i];
  }

  lemma IssuesSnoc(indices: seq<nat>, i: nat, issue: nat -> Issue)
    ensures Issues(indices + [i], issue) == Issues(indices, issue) + [issue(i)]
  {
    assert (indices + [i])[..|indices|] == indices;
  }

  /** The duplicate scan: a set of the ids seen so far, and an issue for each id already in
      it. */
  method DuplicateIssues(ids: seq<string>, issue: nat -> Issue) returns (issues: seq<Issue>)
    ensures issues == Issues(RepeatIndices(ids), issue)
  {
    var seen: set<string> := {};
    issues := [];
    for i := 0 to |ids|
      invariant forall x :: x in seen <==> x in ids[..i]
      invariant issues == Issues(RepeatIndices(ids[..i]), issue)
    {
      RepeatStep(ids, i);
      if ids[i] in seen {
        IssuesSnoc(RepeatIndices(ids[..i]), i, issue);
        issues := issues + [issue(i)];
      }
      seen := seen + {ids[i]};
      PrefixMembers(ids, i);
    }
    assert ids[..|ids|] == ids;
  }

  lemma PrefixMembers(ids: seq<string>, i: int)
    requires 0 <= i < |ids|
    ensures forall x :: x in ids[..i + 1] <==> x in ids[..i] || x == ids[i]
  {
    assert ids[..i + 1] == ids[..i] + [ids[i]];
  }

  method TimeIssues(start: Time.IsoDateTime, end: Time.IsoDateTime) returns (issues: seq<Issue>)
    ensures issues == TimeIssuesOf(start, end)
  {
    var startOffset := Time.ExtractTimezoneOffsetMinutes(start.text);
    var endOffset := Time.ExtractTimezoneOffsetMinutes(end.text);
    var late, startOffGrid, endOffGrid := start.epochMs >= end.epochMs, !IsAlignedToSlot(start.epochMs), !IsAlignedToSlot(end.epochMs);
    ghost var order := if late then [EndBeforeStartIssue] else [];
    ghost var startGrid := if startOffGrid then [StartMisalignedIssue] else [];
    ghost var endGrid := if endOffGrid then [EndMisalignedIssue] else [];
    issues := [];
    if late {
      issues := issues + [EndBeforeStartIssue];
    }
    assert issues == order;
    if startOffGrid {
      issues := issues + [StartMisalignedIssue];
    }
    assert issues == order + startGrid;
    if endOffGrid {
      issues := issues + [EndMisalignedIssue];
    }
    assert issues == order + startGrid + endGrid;
    if startOffset != endOffset {
      issues := issues + [OffsetMismatchIssue];
    }
  }

  /** The `superRefine` callback. */
  method CrossFieldIssues(d: ReservationCreateData) returns (issues: seq<Issue>)
    ensures issues == CrossFieldIssuesOf(d)
  {
    issues := TimeIssues(d.startAt, d.endAt);
    var equipmentIssues := DuplicateIssues(EquipmentIds(d.equipmentRequests), EquipmentDuplicateIssue);
    var staffIssues := DuplicateIssues(d.staffIds, StaffDuplicateIssue);
    issues := issues + equipmentIssues + staffIssues;
  }

  // ---------------------------------------------------------------------------------------
  // validateReservationInput

  /** `ReservationValidationError`: 422 with the issue list. */
  datatype ValidationError = ValidationError(issues: seq<Issue>) {
    const status: int := 422
    const code: string := "RESERVATIONS_VALIDATION_FAILED"
  }

  /** The payload the booking flow works with. */
  datatype ReservationCreatePayload = ReservationCreatePayload(
    tenantId: string,
    serviceId: Option<string>,
    roomId: string,
    startAt: Time.IsoDateTime,
    endAt: Time.IsoDateTime,
    timezoneOffsetMinutes: int,
    bufferOverride: Option<BufferOverride>,
    equipmentRequests: seq<EquipmentRequest>,
    staffIds: seq<string>,
    customerId: Option<string>,
    notes: Option<string>)

  function PayloadOf(d: ReservationCreateData): ReservationCreatePayload {
    ReservationCreatePayload(
      d.tenantId, d.serviceId, d.roomId, d.startAt, d.endAt,
      Time.ExtractTimezoneOffsetMinutes(d.startAt.text),
      d.bufferOverride, d.equipmentRequests, d.staffIds, d.customerId,
      if d.notes.Some? && |d.notes.value| > 0 then d.notes else None)
  }

  /** `validateReservationInput`. A request that breaks a field rule is rejected with Zod's
      issues, which this model does not spell out (the list is empty); one that breaks a
      cross-field rule is rejected with exactly the issues of `CrossFieldIssuesOf`. */
  function ValidateReservationInput(i: ReservationCreateInput): Result<ReservationCreatePayload, ValidationError> {
    if !FieldsValid(i) then Failure(ValidationError([]))
    else
      var d := ParsedData(i);
      var issues := CrossFieldIssuesOf(d);
      if |issues| > 0 then Failure(ValidationError(issues)) else Success(PayloadOf(d))
  }

  /** The time rules report nothing exactly when start is before end, both are multiples of
      15 minutes and both carry the same UTC offset; each broken rule reports its own issue. */
  lemma TimeIssuesIff(start: Time.IsoDateTime, end: Time.IsoDateTime)
    ensures var issues := TimeIssuesOf(start, end);
      && (issues == [] <==>
            start.epochMs < end.epochMs && start.epochMs % 900000 == 0 && end.epochMs % 900000 == 0
            && Time.ExtractTimezoneOffsetMinutes(start.text) == Time.ExtractTimezoneOffsetMinutes(end.text))
      && (start.epochMs >= end.epochMs <==> EndBeforeStartIssue in issues)
      && (start.epochMs % 900000 != 0 <==> StartMisalignedIssue in issues)
      && (end.epochMs % 900000 != 0 <==> EndMisalignedIssue in issues)
      && ((Time.ExtractTimezoneOffsetMinutes(start.text) != Time.ExtractTimezoneOffsetMinutes(end.text))
          <==> OffsetMismatchIssue in issues)
  {
    AlignedIff(start.epochMs);
    AlignedIff(end.epochMs);
    TimeIssuesForIff(start.epochMs >= end.epochMs, !IsAlignedToSlot(start.epochMs), !IsAlignedToSlot(end.epochMs),
      Time.ExtractTimezoneOffsetMinutes(start.text) != Time.ExtractTimezoneOffsetMinutes(end.text));
  }

  /** Each broken rule contributes its own issue, and only a broken rule does. */
  lemma TimeIssuesForIff(late: bool, startOffGrid: bool, endOffGrid: bool, offsetsDiffer: bool)
    ensures var issues := TimeIssuesFor(late, startOffGrid, endOffGrid, offsetsDiffer);
      && (issues == [] <==> !late && !startOffGrid && !endOffGrid && !offsetsDiffer)
      && (late <==> EndBeforeStartIssue in issues)
      && (startOffGrid <==> StartMisalignedIssue in issues)
      && (endOffGrid <==> EndMisalignedIssue in issues)
      && (offsetsDiffer <==> OffsetMismatchIssue in issues)
  {
    TimeIssuesDistinct();
    var order := if late then [EndBeforeStartIssue] else [];
    var startGrid := if startOffGrid then [StartMisalignedIssue] else [];
    var endGrid := if endOffGrid then [EndMisalignedIssue] else [];
    var offset := if offsetsDiffer then [OffsetMismatchIssue] else [];
    var issues := TimeIssuesFor(late, startOffGrid, endOffGrid, offsetsDiffer);
    assert issues == order + startGrid + endGrid + offset;
    forall x ensures x in issues <==> x in order || x in startGrid || x in endGrid || x in offset {
    }
  }

  /** The four time issues are told apart by their paths or the lengths of their messages. */
  lemma TimeIssuesDistinct()
    ensures EndBeforeStartIssue != StartMisalignedIssue && EndBeforeStartIssue != EndMisalignedIssue
    ensures EndBeforeStartIssue != OffsetMismatchIssue && StartMisalignedIssue != EndMisalignedIssue
    ensures StartMisalignedIssue != OffsetMismatchIssue && EndMisalignedIssue != OffsetMismatchIssue
  {
    assert |EndBeforeStartIssue.path| != |StartMisalignedIssue.path|;
    assert |EndBeforeStartIssue.message| != |EndMisalignedIssue.message|;
    assert |EndBeforeStartIssue.message| != |OffsetMismatchIssue.message|;
    assert |StartMisalignedIssue.path| != |EndMisalignedIssue.path|;
    assert |StartMisalignedIssue.path| != |OffsetMismatchIssue.path|;
    assert |EndMisalignedIssue.message| != |OffsetMismatchIssue.message|;
  }

  /** The cross-field rules report nothing exactly when the time rules report nothing and
      neither list repeats an id. */
  lemma CrossFieldIssuesEmptyIff(d: ReservationCreateData)
    ensures CrossFieldIssuesOf(d) == [] <==>
      TimeIssuesOf(d.startAt, d.endAt) == []
      && RepeatIndices(EquipmentIds(d.equipmentRequests)) == []
      && RepeatIndices(d.staffIds) == []
  {
  }

  lemma AcceptedShape(i: ReservationCreateInput)
    requires ValidateReservationInput(i).Success?
    ensures FieldsValid(i) && CrossFieldIssuesOf(ParsedData(i)) == []
    ensures ValidateReservationInput(i).value == PayloadOf(ParsedData(i))
  {
  }

  lemma AcceptedRequests(i: ReservationCreateInput)
    requires FieldsValid(i)
    ensures var rs := ParsedData(i).equipmentRequests;
      |rs| <= MaxListLength && forall r :: r in rs ==> |r.equipmentId| >= 1 && r.quantity >= 1
  {
    var rs := ParsedData(i).equipmentRequests;
    forall r | r in rs ensures |r.equipmentId| >= 1 && r.quantity >= 1 {
      var k :| 0 <= k < |rs| && rs[k] == r;
      assert i.equipmentRequests.value[k] in i.equipmentRequests.value;
    }
  }

  lemma AcceptedNotes(i: ReservationCreateInput)
    requires FieldsValid(i)
    ensures var n := PayloadOf(ParsedData(i)).notes;
      n.Some? ==> 0 < |n.value| <= MaxNotesLength && n.value == Trim(n.value)
  {
    if i.notes.Some? {
      TrimIdentityOfTrimmed(i.notes.value);
    }
  }

  /** What an accepted payload guarantees: ids present, start before end, both on the
      15-minute grid, one UTC offset for both (the one recorded), at most 20 distinct
      equipment ids each asking for at least one unit, at most 20 distinct non-empty staff
      ids, buffers between 0 and 30 minutes, and notes that are either absent or non-empty,
      trimmed and at most 2000 characters long. */
  lemma AcceptedPayload(i: ReservationCreateInput)
    requires ValidateReservationInput(i).Success?
    ensures var p := ValidateReservationInput(i).value;
      && |p.tenantId| >= 1 && |p.roomId| >= 1
      && p.startAt.epochMs < p.endAt.epochMs
      && p.startAt.epochMs % 900000 == 0 && p.endAt.epochMs % 900000 == 0
      && p.timezoneOffsetMinutes == Time.ExtractTimezoneOffsetMinutes(p.startAt.text)
      && p.timezoneOffsetMinutes == Time.ExtractTimezoneOffsetMinutes(p.endAt.text)
      && |p.equipmentRequests| <= MaxListLength && |p.staffIds| <= MaxListLength
      && (forall r :: r in p.equipmentRequests ==> |r.equipmentId| >= 1 && r.quantity >= 1)
      && (forall a, b :: 0 <= a < b < |p.equipmentRequests| ==>
            p.equipmentRequests[a].equipmentId != p.equipmentRequests[b].equipmentId)
      && (forall s :: s in p.staffIds ==> |s| >= 1)
      && (forall a, b :: 0 <= a < b < |p.staffIds| ==> p.staffIds[a] != p.staffIds[b])
      && (p.bufferOverride.Some? ==>
            0 <= p.bufferOverride.value.beforeMin <= BufferMaxMinutes
            && 0 <= p.bufferOverride.value.afterMin <= BufferMaxMinutes)
      && (p.notes.Some? ==> 0 < |p.notes.value| <= MaxNotesLength && p.notes.value == Trim(p.notes.value))
  {
    AcceptedShape(i);
    var d := ParsedData(i);
    CleanPayload(d);
    AcceptedRequests(i);
    AcceptedNotes(i);
  }

  /** Data the cross-field rules accept gives a payload with ordered, aligned times of one
      offset and duplicate-free equipment and staff lists. */
  lemma CleanPayload(d: ReservationCreateData)
    requires CrossFieldIssuesOf(d) == []
    ensures var p := PayloadOf(d);
      && p.startAt.epochMs < p.endAt.epochMs
      && p.startAt.epochMs % 900000 == 0 && p.endAt.epochMs % 900000 == 0
      && p.timezoneOffsetMinutes == Time.ExtractTimezoneOffsetMinutes(p.endAt.text)
      && (forall a, b :: 0 <= a < b < |p.equipmentRequests| ==>
            p.equipmentRequests[a].equipmentId != p.equipmentRequests[b].equipmentId)
      && (forall a, b :: 0 <= a < b < |p.staffIds| ==> p.staffIds[a] != p.staffIds[b])
  {
    CrossFieldIssuesEmptyIff(d);
    TimeIssuesIff(d.startAt, d.endAt);
    NoRepeatsIffDistinct(EquipmentIds(d.equipmentRequests));
    NoRepeatsIffDistinct(d.staffIds);
  }

  /** Trimming twice trims once. */
  lemma TrimIdentityOfTrimmed(s: string)
    ensures Trim(Trim(s)) == Trim(s)
  {
    var t := Trim(s);
    TrimEdges(s);
    if t != [] {
      assert TrimStart(t) == t;
      assert TrimEnd(t) == t;
    }
  }

  /** A request that meets the field rules is accepted exactly when it is on the grid, in
      order, in one UTC offset and free of repeated ids. */
  lemma AcceptedIff(i: ReservationCreateInput)
    requires FieldsValid(i)
    ensures var d := ParsedData(i);
      ValidateReservationInput(i).Success? <==>
        && d.startAt.epochMs < d.endAt.epochMs
        && d.startAt.epochMs % 900000 == 0 && d.endAt.epochMs % 900000 == 0
        && Time.ExtractTimezoneOffsetMinutes(d.startAt.text) == Time.ExtractTimezoneOffsetMinutes(d.endAt.text)
        && (forall a, b :: 0 <= a < b < |d.equipmentRequests| ==>
              d.equipmentRequests[a].equipmentId != d.equipmentRequests[b].equipmentId)
        && (forall a, b :: 0 <= a < b < |d.staffIds| ==> d.staffIds[a] != d.staffIds[b])
  {
    var d := ParsedData(i);
    CrossFieldIssuesEmptyIff(d);
    TimeIssuesIff(d.startAt, d.endAt);
    NoRepeatsIffDistinct(EquipmentIds(d.equipmentRequests));
    NoRepeatsIffDistinct(d.staffIds);
  }
}
