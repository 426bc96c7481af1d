/** The input rules of the availability search (src/features/availability/schema.ts) as a
    validity predicate over the request as received. Numbers arrive as JSON numbers, so they
    are `real` here and "is an integer" is a rule of its own. */
module AvailabilitySchema {
  import opened Wrappers
  import Time

  datatype WantedEquipmentInput = WantedEquipmentInput(equipmentId: string, qty: real)

  datatype DateRange = DateRange(from: Time.IsoDateTime, to: Time.IsoDateTime)

  /** The request object; `unknownKeys` lists the keys the schema does not declare. */
  datatype ListAvailabilityInput = ListAvailabilityInput(
    tenantId: string,
    range: DateRange,
    serviceId: string,
    wantedEquipments: Option<seq<WantedEquipmentInput>>,
    roomId: Option<string>,
    staffId: Option<string>,
    pageSize: Option<real>,
    unknownKeys: seq<string>)

  predicate IsInteger(x: real) {
    x == x.Floor as real
  }

  /** `z.iso.datetime({ offset: true })`, as far as the time zone designator goes: the text
      ends in `Z` or in a `±HH:MM` offset. */
  predicate ValidIsoDateTime(d: Time.IsoDateTime) {
    (|d.text| > 0 && d.text[|d.text| - 1] == 'Z') || Time.HasOffsetSuffix(d.text)
  }

  /** `dateRangeSchema`: two date-times, the first strictly earlier. */
  predicate ValidRange(r: DateRange) {
    ValidIsoDateTime(r.from) && ValidIsoDateTime(r.to) && r.from.epochMs < r.to.epochMs
  }

  /** `wantedEquipmentSchema`: a non-empty id and a positive integer quantity. */
  predicate ValidWanted(w: WantedEquipmentInput) {
    |w.equipmentId| >= 1 && IsInteger(w.qty) && w.qty > 0.0
  }

  predicate ValidPageSize(p: real) {
    IsInteger(p) && 1.0 <= p <= 50.0
  }

  predicate ValidOptionalId(id: Option<string>) {
    id.Some? ==> |id.value| >= 1
  }

  /** `listAvailabilityInputSchema`, a strict object. */
  predicate ValidInput(i: ListAvailabilityInput) {
    && |i.tenantId| >= 1
    && ValidRange(i.range)
    && |i.serviceId| >= 1
    && (i.wantedEquipments.Some? ==> forall w :: w in i.wantedEquipments.value ==> ValidWanted(w))
    && ValidOptionalId(i.roomId)
    && ValidOptionalId(i.staffId)
    && (i.pageSize.Some? ==> ValidPageSize(i.pageSize.value))
    && i.unknownKeys == []
  }
}
