/** The domain errors the booking flow raises (src/features/reservations/errors.ts). Each
    carries an HTTP status, a machine-readable code, a message and optional details. */
module Errors {
  /** The `details` payloads the core attaches to its errors. */
  datatype Details =
    | NoDetails
    | RoomConflict(roomId: string)
    | StaffConflict(staffIds: seq<string>)
    | EquipmentConflict(equipmentIds: seq<string>)
    | ItemShortage(equipmentId: string)
    /** The error a failed database query reported. */
    | QueryFailure(error: string)
    /** A `ConflictQueryError`: the resource that could not be fetched, its message and the
        query's error. */
    | FetchFailure(resource: string, message: string, error: string)

  datatype DomainError = DomainError(message: string, status: int, code: string, details: Details)

  const ConflictCode: string := "RESERVATIONS_CONFLICT"
  const DisabledResourceCode: string := "RESERVATIONS_DISABLED_RESOURCE"
  const NoSlotsCode: string := "RESERVATIONS_NO_SLOTS"
  const InternalCode: string := "RESERVATIONS_INTERNAL_ERROR"

  /** A booking that collides with existing reservations or holds: 409. */
  function ConflictDetected(message: string, details: Details): (e: DomainError)
    ensures e.status == 409 && e.code == ConflictCode
    ensures e.message == message && e.details == details
  {
    DomainError(message, 409, ConflictCode, details)
  }

  /** A referenced resource that is missing (404, "… が見つかりません") or disabled
      (400, "… は現在利用できません"); both use the same code and carry no details. */
  function ResourceUnavailable(resource: string, disabled: bool): (e: DomainError)
    ensures e.code == DisabledResourceCode && e.details == NoDetails
    ensures e.status == (if disabled then 400 else 404)
    ensures |e.message| > |resource| && e.message[..|resource|] == resource
  {
    var message := if disabled then resource + " は現在利用できません" else resource + " が見つかりません";
    assert message[..|resource|] == resource;
    DomainError(message, if disabled then 400 else 404, DisabledResourceCode, NoDetails)
  }

  /** The two variants of `ResourceUnavailable` are told apart by status and by message. */
  lemma ResourceUnavailableDistinguishes(resource: string)
    ensures ResourceUnavailable(resource, true).status != ResourceUnavailable(resource, false).status
    ensures ResourceUnavailable(resource, true).message != ResourceUnavailable(resource, false).message
  {
    var t := ResourceUnavailable(resource, true).message;
    var f := ResourceUnavailable(resource, false).message;
    assert t[|resource| + 1] != f[|resource| + 1];
  }

  function NoSlots(details: Details): (e: DomainError)
    ensures e.status == 422 && e.code == NoSlotsCode && e.details == details
  {
    DomainError("指定条件に予約可能枠がありません", 422, NoSlotsCode, details)
  }

  /** `ReservationInternalError`: 500, carrying what went wrong (the failed query's error) as
      its details. */
  function Internal(message: string, details: Details): (e: DomainError)
    ensures e.status == 500 && e.code == InternalCode && e.message == message && e.details == details
  {
    DomainError(message, 500, InternalCode, details)
  }
}
