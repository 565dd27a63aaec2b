/**
 * Refunds: the request `RefundRequest`, `PointsRefundRequest`, the admin
 * decisions `RefundApproval` and `RefundDenial`, and the entity `Refund`.
 */
module RefundModel {

  import opened Wrappers
  import opened JsonValues
  import opened Schema
  import Enums

  const RefundRequest: Schema := [
    Req("refund_type", Enum(Enums.RefundTypeWires)),
    Req("refund_amount", Float, [Gt(0.0)]),
    Req("reason", Str),
    Opt("booking_id", Int),
    Opt("payment_id", Int)
  ]

  const PointsRefundRequest: Schema := [
    Req("customer_id", Int),
    Req("points_to_refund", Int, [Gt(0.0)]),
    Req("reason", Str)
  ]

  const RefundApproval: Schema := [
    Req("approved", Bool),
    Opt("admin_notes", Str)
  ]

  const RefundDenial: Schema := [
    Opt("denial_reason", Str)
  ]

  const Refund: Schema := [
    Req("id", Int),
    Opt("customer_id", Int),
    Req("refund_type", Enum(Enums.RefundTypeWires)),
    Req("refund_amount", Float),
    Req("reason", Str),
    Req("status", Enum(Enums.RefundStatusWires)),
    Opt("booking_id", Int),
    Opt("payment_id", Int),
    Req("requested_at", DateTime),
    Opt("processed_at", DateTime),
    Opt("admin_notes", Str),
    Opt("denial_reason", Str)
  ]

  lemma RefundRequestWellFormed()
    ensures WellFormed(RefundRequest)
  {
    assert DistinctNames(RefundRequest);
  }

  lemma PointsRefundWellFormed()
    ensures WellFormed(PointsRefundRequest)
  {
    assert DistinctNames(PointsRefundRequest);
  }

  lemma RefundWellFormed()
    ensures WellFormed(Refund)
  {
    assert DistinctNames(Refund);
  }

  /** The amount to refund must be strictly positive. */
  lemma RefundAmountPositive(input: map<string, Json>, amount: real)
    requires Validate(RefundRequest, input).Ok?
    ensures Validate(RefundRequest, input["refund_amount" := JFloat(amount)]).Ok? <==> amount > 0.0
    ensures amount <= 0.0 ==>
              Validate(RefundRequest, input["refund_amount" := JFloat(amount)]) == Err([OutOfRange("refund_amount")])
  {
    RefundRequestWellFormed();
    ReplaceField(RefundRequest, input, 1, JFloat(amount));
    WithinOne(amount, Gt(0.0));
  }

  /** The refund type must be one of the three lower-case `RefundType` strings. */
  lemma RefundTypeMembership(input: map<string, Json>, w: string)
    requires Validate(RefundRequest, input).Ok?
    ensures Validate(RefundRequest, input["refund_type" := JString(w)]).Ok?
            <==> w in {"booking_cancellation", "dispute_resolution", "goodwill"}
    ensures Validate(RefundRequest, input["refund_type" := JString(w)]).Ok? <==> Enums.RefundType.FromWire(w).Some?
  {
    RefundRequestWellFormed();
    ReplaceField(RefundRequest, input, 0, JString(w));
    Enums.RefundTypeDecoding();
  }

  /** Type, amount and reason are required. */
  lemma RefundRequestRequired(input: map<string, Json>)
    requires Validate(RefundRequest, input).Ok?
    ensures {"refund_type", "refund_amount", "reason"} <= input.Keys
  {
    RequiredPresent(RefundRequest, input, 0);
    RequiredPresent(RefundRequest, input, 1);
    RequiredPresent(RefundRequest, input, 2);
  }

  function MinimalRefundRequest(t: Enums.RefundType, amount: real, reason: string): map<string, Json> {
    map["refund_type" := JString(t.Wire()), "refund_amount" := JFloat(amount), "reason" := JString(reason)]
  }

  lemma MinimalRefundRequestShape(t: Enums.RefundType, amount: real, reason: string)
    requires amount > 0.0
    ensures var input := MinimalRefundRequest(t, amount, reason);
            && (forall i :: 0 <= i < |RefundRequest| ==> (RefundRequest[i].name in input <==> RefundRequest[i].presence.Required?))
            && (forall i :: 0 <= i < |RefundRequest| && RefundRequest[i].name in input ==>
                  Coerce(RefundRequest[i], input[RefundRequest[i].name]) == Ok(input[RefundRequest[i].name]))
            && input.Keys <= Names(RefundRequest)
  {
    Enums.RefundTypeEncoding();
    WithinOne(amount, Gt(0.0));
    assert RefundRequest[0].name == "refund_type" && RefundRequest[1].name == "refund_amount" && RefundRequest[2].name == "reason";
  }

  /** The booking and payment ids are optional: type, a positive amount and a reason are enough, and are all that is sent. */
  lemma RefundRequestMinimal(t: Enums.RefundType, amount: real, reason: string)
    requires amount > 0.0
    ensures Validate(RefundRequest, MinimalRefundRequest(t, amount, reason)).Ok?
    ensures Dump(Validate(RefundRequest, MinimalRefundRequest(t, amount, reason)).value) == MinimalRefundRequest(t, amount, reason)
  {
    RefundRequestWellFormed();
    MinimalRefundRequestShape(t, amount, reason);
    CanonicalInput(RefundRequest, MinimalRefundRequest(t, amount, reason));
  }

  /** A points refund needs a customer and a reason, and a strictly positive number of points. */
  lemma PointsRefundChecks(input: map<string, Json>, points: int)
    requires Validate(PointsRefundRequest, input).Ok?
    ensures {"customer_id", "points_to_refund", "reason"} <= input.Keys
    ensures Validate(PointsRefundRequest, input["points_to_refund" := JInt(points)]).Ok? <==> points > 0
    ensures points <= 0 ==>
              Validate(PointsRefundRequest, input["points_to_refund" := JInt(points)]) == Err([OutOfRange("points_to_refund")])
  {
    RequiredPresent(PointsRefundRequest, input, 0);
    RequiredPresent(PointsRefundRequest, input, 1);
    RequiredPresent(PointsRefundRequest, input, 2);
    PointsRefundWellFormed();
    ReplaceField(PointsRefundRequest, input, 1, JInt(points));
    WithinOne(points as real, Gt(0.0));
  }

  /** An approval must say whether it approves; the admin notes may be left out. */
  lemma ApprovalChecks(input: map<string, Json>, approved: bool)
    ensures Validate(RefundApproval, input).Ok? ==> "approved" in input
    ensures Validate(RefundApproval, map["approved" := JBool(approved)]).Ok?
    ensures Dump(Validate(RefundApproval, map["approved" := JBool(approved)]).value) == map["approved" := JBool(approved)]
  {
    if Validate(RefundApproval, input).Ok? {
      RequiredPresent(RefundApproval, input, 0);
    }
    var minimal := map["approved" := JBool(approved)];
    ValidateOkIff(RefundApproval, minimal);
    assert minimal.Keys <= Names(RefundApproval) by {
      assert RefundApproval[0].name == "approved";
    }
    DumpCanonical(RefundApproval, minimal);
  }

  /** A denial has no required field: the empty denial is accepted and sends the empty body. */
  lemma EmptyDenialAccepted()
    ensures Validate(RefundDenial, map[]).Ok?
    ensures Dump(Validate(RefundDenial, map[]).value) == map[]
  {
    EmptyAccepted(RefundDenial);
  }

  /** A stored refund's status must be one of the `RefundStatus` wire strings. */
  lemma RefundStatusMembership(input: map<string, Json>, w: string)
    requires Validate(Refund, input).Ok?
    ensures Validate(Refund, input["status" := JString(w)]).Ok? <==> Enums.RefundStatus.FromWire(w).Some?
    ensures Enums.RefundStatus.FromWire(w).None? ==>
              Validate(Refund, input["status" := JString(w)]) == Err([NotAMember("status")])
  {
    RefundWellFormed();
    ReplaceField(Refund, input, 5, JString(w));
    Enums.RefundStatusDecoding();
  }
}
