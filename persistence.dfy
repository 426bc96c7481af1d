/** The write side of a booking: one reservation row, then its equipment-item assignments, with
    a compensating delete of the reservation when the assignments cannot be written, and the
    translation of the database's SQLSTATE codes into the errors the caller reports. The
    database is an in-memory store of two tables; whether each insert is refused, and with
    which error, is a parameter of the operation. */
module Persistence {
  import opened Wrappers

  datatype ReservationStatus = Confirmed | InUse | Completed | NoShow | Canceled

  /** The error the database reports, with its SQLSTATE code. */
  datatype PostgrestError = PostgrestError(code: string, message: string)

  /** `ReservationPersistenceError` and its three subclasses. */
  datatype PersistenceError = PersistenceError(name: string, message: string, status: int, code: string, cause: PostgrestError)

  const UniqueViolation: string := "23505"
  const ExclusionViolation: string := "23P01"
  const ExclusionViolationAlt: string := "23P02"
  const ForeignKeyViolation: string := "23503"

  predicate IsConflictCode(code: string) {
    code == UniqueViolation || code == ExclusionViolation || code == ExclusionViolationAlt
  }

  /** `mapPostgrestError`: a uniqueness or exclusion violation is a conflict (409), a missing
      referenced row is a validation failure (422), anything else is an internal error (500);
      the database's error is kept as the details. */
  function MapPostgrestError(e: PostgrestError): (r: PersistenceError)
    ensures r.cause == e
    ensures IsConflictCode(e.code) <==> r.status == 409
    ensures e.code == ForeignKeyViolation <==> r.status == 422
    ensures r.status == 409 ==> r.code == "RESERVATIONS_CONFLICT" && r.name == "ReservationPersistenceConflictError"
    ensures r.status == 422 ==> r.code == "RESERVATIONS_VALIDATION_FAILED" && r.name == "ReservationPersistenceForeignKeyError"
    ensures r.status == 500 <==> !IsConflictCode(e.code) && e.code != ForeignKeyViolation
    ensures r.status == 500 ==> r.code == "RESERVATIONS_INTERNAL_ERROR" && r.name == "ReservationPersistenceUnknownError"
  {
    if IsConflictCode(e.code) then
      PersistenceError("ReservationPersistenceConflictError", "予約が既存レコードと重複しました", 409, "RESERVATIONS_CONFLICT", e)
    else if e.code == ForeignKeyViolation then
      PersistenceError("ReservationPersistenceForeignKeyError", "関連リソースが見つかりません", 422, "RESERVATIONS_VALIDATION_FAILED", e)
    else
      PersistenceError("ReservationPersistenceUnknownError", "予約の保存中にエラーが発生しました", 500, "RESERVATIONS_INTERNAL_ERROR", e)
  }

  datatype EquipmentItemAssignment = EquipmentItemAssignment(equipmentItemId: string, equipmentId: string)

  datatype ReservationInsertCommand = ReservationInsertCommand(
    tenantId: string,
    serviceId: Option<string>,
    roomId: string,
    staffId: Option<string>,
    customerId: Option<string>,
    startAtUtc: int,
    endAtUtc: int,
    bufferBeforeMin: int,
    bufferAfterMin: int,
    notes: Option<string>,
    createdBy: Option<string>,
    status: Option<ReservationStatus>,
    equipmentItems: seq<EquipmentItemAssignment>)

  /** A row of the `reservations` table; `id` is the key the database assigns. */
  datatype ReservationRow = ReservationRow(
    id: nat,
    tenantId: string,
    serviceId: Option<string>,
    roomId: string,
    staffId: Option<string>,
    customerId: Option<string>,
    startAt: int,
    endAt: int,
    bufferBeforeMin: int,
    bufferAfterMin: int,
    note: Option<string>,
    createdBy: Option<string>,
    status: ReservationStatus)

  /** A row of the `reservation_equipment_items` table. */
  datatype AssignmentRow = AssignmentRow(reservationId: nat, tenantId: string, equipmentItemId: string)

  datatype ReservationInsertResult = ReservationInsertResult(
    id: nat,
    status: ReservationStatus,
    roomId: string,
    staffId: Option<string>,
    customerId: Option<string>,
    serviceId: Option<string>,
    startAt: int,
    endAt: int,
    bufferBeforeMin: int,
    bufferAfterMin: int)

  /** The row the command inserts under key `id`; the status defaults to `confirmed`. */
  function RowOf(command: ReservationInsertCommand, id: nat): (row: ReservationRow)
    ensures row.id == id && row.tenantId == command.tenantId && row.roomId == command.roomId
    ensures row.status == command.status.GetOr(Confirmed)
    ensures command.status.None? ==> row.status == Confirmed
  {
    ReservationRow(id, command.tenantId, command.serviceId, command.roomId, command.staffId, command.customerId,
      command.startAtUtc, command.endAtUtc, command.bufferBeforeMin, command.bufferAfterMin,
      command.notes, command.createdBy, command.status.GetOr(Confirmed))
  }

  /** The assignment rows for reservation `id`, one per equipment item, in command order. */
  function AssignmentsOf(command: ReservationInsertCommand, id: nat): (rows: seq<AssignmentRow>)
    ensures |rows| == |command.equipmentItems|
    ensures forall k :: 0 <= k < |rows| ==>
      rows[k].reservationId == id && rows[k].tenantId == command.tenantId
      && rows[k].equipmentItemId == command.equipmentItems[k].equipmentItemId
  {
    seq(|command.equipmentItems|, k requires 0 <= k < |command.equipmentItems| =>
      AssignmentRow(id, command.tenantId, command.equipmentItems[k].equipmentItemId))
  }

  function ResultOf(row: ReservationRow): ReservationInsertResult {
    ReservationInsertResult(row.id, row.status, row.roomId, row.staffId, row.customerId, row.serviceId,
      row.startAt, row.endAt, row.bufferBeforeMin, row.bufferAfterMin)
  }

  /** `rows` without those whose id and tenant are both the given ones: the effect of
      `delete().eq('id', id).eq('tenant_id', tenantId)`. */
  function Without(rows: seq<ReservationRow>, id: nat, tenantId: string): (r: seq<ReservationRow>)
    ensures |r| <= |rows|
  {
    if rows == [] then []
    else
      var last := rows[|rows| - 1];
      Without(rows[..|rows| - 1], id, tenantId) + (if last.id == id && last.tenantId == tenantId then [] else [last])
  }

  lemma {:induction false} WithoutMembers(rows: seq<ReservationRow>, id: nat, tenantId: string, row: ReservationRow)
    ensures row in Without(rows, id, tenantId) <==> row in rows && !(row.id == id && row.tenantId == tenantId)
  {
    if rows != [] {
      var init := rows[..|rows| - 1];
      WithoutMembers(init, id, tenantId, row);
      assert rows == init + [rows[|rows| - 1]];
    }
  }

  /** Deleting by a key no row carries leaves the rows as they are. */
  lemma {:induction false} WithoutAbsent(rows: seq<ReservationRow>, id: nat, tenantId: string)
    requires forall k :: 0 <= k < |rows| ==> rows[k].id != id
    ensures Without(rows, id, tenantId) == rows
  {
    if rows != [] {
      WithoutAbsent(rows[..|rows| - 1], id, tenantId);
    }
  }

  /** Inserting a row under a fresh key and deleting that key by id and tenant restores the table. */
  lemma InsertThenDeleteRestores(rows: seq<ReservationRow>, row: ReservationRow)
    requires forall k :: 0 <= k < |rows| ==> rows[k].id != row.id
    ensures Without(rows + [row], row.id, row.tenantId) == rows
  {
    assert (rows + [row])[..|rows|] == rows;
    WithoutAbsent(rows, row.id, row.tenantId);
  }

  /** The two tables the write touches, and the next key the database will assign. */
  class ReservationStore {
    var reservations: seq<ReservationRow>
    var assignments: seq<AssignmentRow>
    var nextId: nat

    /** Every key in use was assigned before, so `nextId` is fresh. */
    predicate Valid()
      reads this
    {
      (forall k :: 0 <= k < |reservations| ==> reservations[k].id < nextId)
      && (forall k :: 0 <= k < |assignments| ==> assignments[k].reservationId < nextId)
    }

    constructor()
      ensures Valid()
      ensures reservations == [] && assignments == [] && nextId == 0
    {
      reservations := [];
      assignments := [];
      nextId := 0;
    }

    /** `insert(...).select(...).single()` on `reservations`: refused with `failure`, or the row
        is stored under a fresh key and returned. */
    method InsertReservation(command: ReservationInsertCommand, failure: Option<PostgrestError>)
      returns (r: Result<ReservationRow, PostgrestError>)
      requires Valid()
      modifies this
      ensures Valid()
      ensures failure.Some? ==> r == Failure(failure.value) && unchanged(this)
      ensures failure.None? ==> r == Success(RowOf(command, old(nextId)))
      ensures failure.None? ==> reservations == old(reservations) + [RowOf(command, old(nextId))]
      ensures failure.None? ==> assignments == old(assignments) && nextId == old(nextId) + 1
    {
      if failure.Some? {
        return Failure(failure.value);
      }
      var row := RowOf(command, nextId);
      reservations := reservations + [row];
      nextId := nextId + 1;
      return Success(row);
    }

    /** A multi-row insert on `reservation_equipment_items`: refused as a whole with `failure`,
        or all rows are stored. */
    method InsertAssignments(rows: seq<AssignmentRow>, failure: Option<PostgrestError>)
      returns (error: Option<PostgrestError>)
      requires Valid()
      requires forall k :: 0 <= k < |rows| ==> rows[k].reservationId < nextId
      modifies this
      ensures Valid()
      ensures error == failure
      ensures failure.Some? ==> unchanged(this)
      ensures failure.None? ==> assignments == old(assignments) + rows
      ensures failure.None? ==> reservations == old(reservations) && nextId == old(nextId)
    {
      if failure.Some? {
        return failure;
      }
      assignments := assignments + rows;
      return None;
    }

    /** `delete().eq('id', id).eq('tenant_id', tenantId)` on `reservations`: refused with
        `failure`, which changes nothing, or exactly the matching rows are removed. */
    method DeleteReservation(id: nat, tenantId: string, failure: Option<PostgrestError>)
      returns (error: Option<PostgrestError>)
      requires Valid()
      modifies this
      ensures Valid()
      ensures error == failure
      ensures failure.Some? ==> unchanged(this)
      ensures failure.None? ==> reservations == Without(old(reservations), id, tenantId)
      ensures assignments == old(assignments) && nextId == old(nextId)
    {
      if failure.Some? {
        return failure;
      }
      var kept: seq<ReservationRow> := [];
      for i := 0 to |reservations|
        invariant kept == Without(reservations[..i], id, tenantId)
        invariant forall k :: 0 <= k < |kept| ==> kept[k].id < nextId
      {
        assert reservations[..i + 1][..i] == reservations[..i];
        if !(reservations[i].id == id && reservations[i].tenantId == tenantId) {
          kept := kept + [reservations[i]];
        }
      }
      assert reservations[..|reservations|] == reservations;
      reservations := kept;
      return None;
    }
  }

  /** `insertReservationWithEquipment`. The reservation is written first; if that is refused,
      its error is mapped and nothing is written. Otherwise the assignments are written when
      there are any; if those are refused, the reservation just written is deleted again and
      the assignments' error is mapped. The outcome of that delete is not looked at: when it
      succeeds the store is as it was, and when it is refused (`deleteFailure`) the reservation
      stays in the table without its assignments, and the same error is reported. Otherwise
      the reservation and one assignment per item are in the store and the written row is
      returned. */
  method InsertReservationWithEquipment(store: ReservationStore, command: ReservationInsertCommand,
                                        reservationFailure: Option<PostgrestError>,
                                        equipmentFailure: Option<PostgrestError>,
                                        deleteFailure: Option<PostgrestError>)
    returns (r: Result<ReservationInsertResult, PersistenceError>)
    requires store.Valid()
    modifies store
    ensures store.Valid()
    ensures reservationFailure.Some? ==>
      r == Failure(MapPostgrestError(reservationFailure.value))
      && store.reservations == old(store.reservations) && store.assignments == old(store.assignments)
    ensures reservationFailure.None? && command.equipmentItems != [] && equipmentFailure.Some? ==>
      r == Failure(MapPostgrestError(equipmentFailure.value)) && store.assignments == old(store.assignments)
    ensures reservationFailure.None? && command.equipmentItems != [] && equipmentFailure.Some? && deleteFailure.None? ==>
      store.reservations == old(store.reservations)
    ensures reservationFailure.None? && command.equipmentItems != [] && equipmentFailure.Some? && deleteFailure.Some? ==>
      store.reservations == old(store.reservations) + [RowOf(command, old(store.nextId))]
    ensures reservationFailure.None? && (command.equipmentItems == [] || equipmentFailure.None?) ==>
      var row := RowOf(command, old(store.nextId));
      && r == Success(ResultOf(row))
      && store.reservations == old(store.reservations) + [row]
      && store.assignments == old(store.assignments) + AssignmentsOf(command, row.id)
  {
    var inserted := store.InsertReservation(command, reservationFailure);
    if inserted.Failure? {
      return Failure(MapPostgrestError(inserted.error));
    }
    var row := inserted.value;
    if command.equipmentItems != [] {
      var error := store.InsertAssignments(AssignmentsOf(command, row.id), equipmentFailure);
      if error.Some? {
        var _ := store.DeleteReservation(row.id, command.tenantId, deleteFailure);
        if deleteFailure.None? {
          InsertThenDeleteRestores(old(store.reservations), row);
        }
        return Failure(MapPostgrestError(error.value));
      }
    }
    return Success(ResultOf(row));
  }
}
