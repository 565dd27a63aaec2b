/** Bookings: the partial-update shape `BookingModification` and `BookingStatusResponse`. */
module BookingModel {

  import opened Wrappers
  import opened JsonValues
  import opened Schema
  import Enums

  const BookingModification: Schema := [
    Opt("new_booking_date", DateTime),
    Opt("modification_reason", Str),
    Opt("additional_services", StrList)
  ]

  const BookingStatusResponse: Schema := [
    Req("booking_id", Int),
    Req("status", Enum(Enums.BookingStatusWires)),
    Opt("status_details", Str),
    Req("last_updated", DateTime)
  ]

  lemma BookingModificationWellFormed()
    ensures WellFormed(BookingModification)
  {
    assert DistinctNames(BookingModification);
  }

  lemma BookingStatusWellFormed()
    ensures WellFormed(BookingStatusResponse)
  {
    assert DistinctNames(BookingStatusResponse);
  }

  /** All three modification fields are optional: the empty modification is accepted and sends `{}`. */
  lemma EmptyModificationAccepted()
    ensures Validate(BookingModification, map[]).Ok?
    ensures Dump(Validate(BookingModification, map[]).value) == map[]
  {
    BookingModificationWellFormed();
    EmptyAccepted(BookingModification);
  }

  /** A status response has its booking id, status and update time; the details may be left out. */
  lemma BookingStatusRequired(input: map<string, Json>)
    requires Validate(BookingStatusResponse, input).Ok?
    ensures {"booking_id", "status", "last_updated"} <= input.Keys
  {
    RequiredPresent(BookingStatusResponse, input, 0);
    RequiredPresent(BookingStatusResponse, input, 1);
    RequiredPresent(BookingStatusResponse, input, 3);
  }

  /** The status must be CONFIRMED, CANCELLED, COMPLETED or REFUNDED, and the details may be None. */
  lemma BookingStatusMembership(input: map<string, Json>, w: string)
    requires Validate(BookingStatusResponse, input).Ok?
    ensures Validate(BookingStatusResponse, input["status" := JString(w)]).Ok?
            <==> w in {"CONFIRMED", "CANCELLED", "COMPLETED", "REFUNDED"}
    ensures Validate(BookingStatusResponse, input["status" := JString(w)]).Ok? <==> Enums.BookingStatus.FromWire(w).Some?
    ensures Validate(BookingStatusResponse, input["status_details" := JNull]).Ok?
  {
    BookingStatusWellFormed();
    ReplaceField(BookingStatusResponse, input, 1, JString(w));
    ReplaceField(BookingStatusResponse, input, 2, JNull);
    Enums.BookingStatusDecoding();
  }
}
