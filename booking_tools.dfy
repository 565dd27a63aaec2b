/**
 * The booking tools: a partial modification of a booking and its status.
 * Each builds the call it hands to the client; `APIClient.Perform` runs it
 * and the tool returns the client's result unchanged.
 */
module BookingTools {

  import opened Wrappers
  import opened JsonValues
  import opened Schema
  import opened BaseClient
  import Decimal
  import Endpoints
  import ToolCalls
  import BookingModel

  /**
   * `modify_booking`: a PUT of the validated modification to
   * `/api/bookings/{booking_id}/modify`; the body holds only the fields the
   * caller set, and the booking id is read back from the path.  The body is
   * dumped in python mode, so a new booking date reaches the client as a
   * `datetime`, which its JSON encoding refuses: the tool raises before the
   * PUT whenever the date is set to anything but None.
   */
  function ModifyBooking(bookingId: int, modification: map<string, Json>): (r: Result<Call, ToolCalls.Refusal>)
    ensures r.Ok? <==> Validate(BookingModel.BookingModification, modification).Ok? && !DateSet(modification)
    ensures r.Err? && Validate(BookingModel.BookingModification, modification).Err? ==>
              r.error == ToolCalls.Invalid(Validate(BookingModel.BookingModification, modification).error)
    ensures r.Err? && Validate(BookingModel.BookingModification, modification).Ok? ==>
              r.error == ToolCalls.NotSerializable(ToolCalls.DateTimeNotSerializable)
    ensures r.Ok? ==> r.value.verb == PUT && r.value.params.None?
    ensures r.Ok? ==> Endpoints.UnframeInt("/api/bookings/", "/modify", r.value.endpoint) == Some(bookingId)
    ensures r.Ok? ==> r.value.data == Some(JObject(Dump(Validate(BookingModel.BookingModification, modification).value)))
  {
    var s := BookingModel.BookingModification;
    BookingModel.BookingModificationWellFormed();
    Endpoints.UnframeIntFramed("/api/bookings/", bookingId, "/modify");
    DateSerializable(modification);
    ToolCalls.SendValidated(PUT, Endpoints.Framed("/api/bookings/", Decimal.IntToString(bookingId), "/modify"),
                            s, modification)
  }

  /** The modification gives a new booking date other than None. */
  predicate DateSet(modification: map<string, Json>) {
    "new_booking_date" in modification && !modification["new_booking_date"].JNull?
  }

  /** A valid modification's dump can be encoded exactly when it sets no date. */
  lemma DateSerializable(modification: map<string, Json>)
    ensures Validate(BookingModel.BookingModification, modification).Ok? ==>
              (ToolCalls.Serializable(BookingModel.BookingModification,
                                      Dump(Validate(BookingModel.BookingModification, modification).value))
               <==> !DateSet(modification))
  {
    var s := BookingModel.BookingModification;
    if Validate(s, modification).Ok? {
      var body := Dump(Validate(s, modification).value);
      BookingModel.BookingModificationWellFormed();
      DumpValidated(s, modification);
      assert s[0].name == "new_booking_date" && s[0].kind == DateTime;
      assert s[1].kind != DateTime && s[2].kind != DateTime;
      if "new_booking_date" in modification {
        assert Coerce(s[0], modification["new_booking_date"]) == Ok(body["new_booking_date"]);
      }
    }
  }

  /**
   * The as-written tool can never move a booking: any new date makes it
   * raise `TypeError` before the PUT is sent.
   */
  lemma DateChangeRaises(bookingId: int, date: string)
    ensures ModifyBooking(bookingId, map["new_booking_date" := JString(date)])
            == Err(ToolCalls.NotSerializable(ToolCalls.DateTimeNotSerializable))
  {
    DateOnlyValid(date);
  }

  lemma DateOnlyValid(date: string)
    ensures Validate(BookingModel.BookingModification, map["new_booking_date" := JString(date)]).Ok?
  {
    var s, input := BookingModel.BookingModification, map["new_booking_date" := JString(date)];
    BookingModel.BookingModificationWellFormed();
    assert s[0].name == "new_booking_date";
    CanonicalInput(s, input);
  }

  /**
   * `modify_booking` with the body dumped by `model_dump(mode="json",
   * exclude_unset=True)`: the date is sent as its ISO text, every valid
   * modification is sent, and wherever the as-written tool succeeds the two
   * send the same PUT.
   */
  function ModifyBookingJson(bookingId: int, modification: map<string, Json>): (r: Result<Call, ToolCalls.Refusal>)
    ensures r.Ok? <==> Validate(BookingModel.BookingModification, modification).Ok?
    ensures r.Err? ==> r.error == ToolCalls.Invalid(Validate(BookingModel.BookingModification, modification).error)
    ensures ModifyBooking(bookingId, modification).Ok? ==> r == ModifyBooking(bookingId, modification)
    ensures r.Ok? ==> r.value.verb == PUT && r.value.params.None?
    ensures r.Ok? ==> Endpoints.UnframeInt("/api/bookings/", "/modify", r.value.endpoint) == Some(bookingId)
    ensures r.Ok? ==> r.value.data == Some(JObject(Dump(Validate(BookingModel.BookingModification, modification).value)))
  {
    BookingModel.BookingModificationWellFormed();
    Endpoints.UnframeIntFramed("/api/bookings/", bookingId, "/modify");
    ToolCalls.SendValidatedJson(PUT, Endpoints.Framed("/api/bookings/", Decimal.IntToString(bookingId), "/modify"),
                                BookingModel.BookingModification, modification)
  }

  /** With the JSON-mode dump, a new date is sent, alone, as the text given. */
  lemma CorrectedDateChangeSent(bookingId: int, date: string)
    ensures ModifyBookingJson(bookingId, map["new_booking_date" := JString(date)]).Ok?
    ensures ModifyBookingJson(bookingId, map["new_booking_date" := JString(date)]).value.data
            == Some(JObject(map["new_booking_date" := JString(date)]))
  {
    var s, input := BookingModel.BookingModification, map["new_booking_date" := JString(date)];
    DateOnlyValid(date);
    BookingModel.BookingModificationWellFormed();
    assert s[0].name == "new_booking_date";
    ToolCalls.SendsCanonicalInput(PUT, Endpoints.Framed("/api/bookings/", Decimal.IntToString(bookingId), "/modify"), s, input);
  }

  /** `get_booking_status`: a GET of `/api/bookings/{booking_id}/status` with no query and no body. */
  function GetBookingStatus(bookingId: int): (c: Call)
    ensures c.verb == GET && c.params.None? && c.data.None?
    ensures Endpoints.UnframeInt("/api/bookings/", "/status", c.endpoint) == Some(bookingId)
  {
    Endpoints.UnframeIntFramed("/api/bookings/", bookingId, "/status");
    Call(GET, Endpoints.Framed("/api/bookings/", Decimal.IntToString(bookingId), "/status"), None, None)
  }

  /** A modification that sets nothing is still sent, as the empty body. */
  lemma EmptyModificationSent(bookingId: int)
    ensures ModifyBooking(bookingId, map[]).Ok?
    ensures ModifyBooking(bookingId, map[]).value.data == Some(JObject(map[]))
  {
    BookingModel.EmptyModificationAccepted();
  }

  /**
   * Setting only the reason sends only the reason: the unset date and
   * services are not sent as None, so the server keeps them.
   */
  lemma ReasonOnlySent(bookingId: int, reason: string)
    ensures ModifyBooking(bookingId, map["modification_reason" := JString(reason)]).Ok?
    ensures ModifyBooking(bookingId, map["modification_reason" := JString(reason)]).value.data
            == Some(JObject(map["modification_reason" := JString(reason)]))
  {
    var input := map["modification_reason" := JString(reason)];
    BookingModel.BookingModificationWellFormed();
    assert BookingModel.BookingModification[1].name == "modification_reason";
    CanonicalInput(BookingModel.BookingModification, input);
  }

  /** Modifying a booking and reading its status use different paths for the same booking. */
  lemma ModifyAndStatusDistinct(bookingId: int, modification: map<string, Json>)
    requires ModifyBookingJson(bookingId, modification).Ok?
    ensures ModifyBookingJson(bookingId, modification).value.endpoint != GetBookingStatus(bookingId).endpoint
  {
    var m := ModifyBookingJson(bookingId, modification).value.endpoint;
    var s := GetBookingStatus(bookingId).endpoint;
    var text := Decimal.IntToString(bookingId);
    assert m == "/api/bookings/" + text + "/modify";
    assert s == "/api/bookings/" + text + "/status";
    assert |m| == |s|;
    assert m[|m| - 1] == 'y' && s[|s| - 1] == 's';
  }
}
