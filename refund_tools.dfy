/**
 * The refund tools: each one builds the call it hands to the client.  The
 * client runs it with `APIClient.Perform` and the tool returns the client's
 * result unchanged.
 */
module RefundTools {

  import opened Wrappers
  import opened JsonValues
  import opened Schema
  import opened BaseClient
  import Decimal
  import Enums
  import Endpoints
  import ToolCalls
  import RefundModel

  /** The filters of a refund listing, as the server reads them from the query. */
  datatype RefundListing = RefundListing(
    page: int,
    perPage: int,
    customerId: Option<string>,
    status: Option<Enums.RefundStatus>,
    refundType: Option<Enums.RefundType>)

  const ListingKeys: set<string> := {"page", "per_page", "customer_id", "status", "refund_type"}

  /** Reads a listing query back: the two page numbers must be integers, each filter is optional. */
  function ReadListing(q: map<string, Json>): Option<RefundListing> {
    if "page" in q && q["page"].JInt? && "per_page" in q && q["per_page"].JInt? then
      var customer := if "customer_id" in q && q["customer_id"].JString? then Some(q["customer_id"].s) else None;
      var status := if "status" in q && q["status"].JString? then Enums.RefundStatus.FromWire(q["status"].s) else None;
      var refundType := if "refund_type" in q && q["refund_type"].JString? then Enums.RefundType.FromWire(q["refund_type"].s) else None;
      Some(RefundListing(q["page"].i, q["per_page"].i, customer, status, refundType))
    else None
  }

  /**
   * `list_refunds`: a GET of `/api/refunds` whose query always carries the
   * page (default 1) and page size (default 10), and carries each filter
   * only when it is given; an empty customer id counts as not given.  The
   * server reads back exactly the listing asked for.
   */
  method ListRefunds(page: Option<int>, perPage: Option<int>, customerId: Option<string>,
                     status: Option<Enums.RefundStatus>, refundType: Option<Enums.RefundType>)
    returns (call: Call)
    ensures call.verb == GET && call.endpoint == "/api/refunds" && call.data.None? && call.params.Some?
    ensures call.params.value.Keys <= ListingKeys
    ensures "customer_id" in call.params.value <==> customerId.Some? && customerId.value != ""
    ensures "status" in call.params.value <==> status.Some?
    ensures "refund_type" in call.params.value <==> refundType.Some?
    ensures ReadListing(call.params.value)
            == Some(RefundListing(page.GetOr(1), perPage.GetOr(10),
                                  if customerId.Some? && customerId.value != "" then customerId else None,
                                  status, refundType))
  {
    var params: map<string, Json> := map["page" := JInt(page.GetOr(1)), "per_page" := JInt(perPage.GetOr(10))];
    if customerId.Some? && customerId.value != "" {
      params := params["customer_id" := JString(customerId.value)];
    }
    if status.Some? {
      params := params["status" := JString(status.value.Wire())];
      Enums.RefundStatusRoundTrip();
    }
    if refundType.Some? {
      params := params["refund_type" := JString(refundType.value.Wire())];
      Enums.RefundTypeRoundTrip();
    }
    call := Call(GET, "/api/refunds", Some(params), None);
  }

  /** `submit_refund_request`: a POST of the validated request to `/api/refunds/request`. */
  function SubmitRefundRequest(refund: map<string, Json>): (r: Result<Call, ToolCalls.Refusal>)
    ensures r.Ok? <==> Validate(RefundModel.RefundRequest, refund).Ok?
    ensures r.Err? ==> r.error == ToolCalls.Invalid(Validate(RefundModel.RefundRequest, refund).error)
    ensures r.Ok? ==> r.value.verb == POST && r.value.endpoint == "/api/refunds/request" && r.value.params.None?
    ensures r.Ok? ==> r.value.data == Some(JObject(Dump(Validate(RefundModel.RefundRequest, refund).value)))
  {
    RefundModel.RefundRequestWellFormed();
    assert ToolCalls.NoDateTime(RefundModel.RefundRequest);
    ToolCalls.SendValidated(POST, "/api/refunds/request", RefundModel.RefundRequest, refund)
  }

  /** `get_refund_details`: a GET of `/api/refunds/{refund_id}`, no query, no body; the id is read back from the path. */
  function GetRefundDetails(refundId: int): (c: Call)
    ensures c.verb == GET && c.params.None? && c.data.None?
    ensures Endpoints.UnframeInt("/api/refunds/", "", c.endpoint) == Some(refundId)
  {
    Endpoints.UnframeIntFramed("/api/refunds/", refundId, "");
    Call(GET, Endpoints.Framed("/api/refunds/", Decimal.IntToString(refundId), ""), None, None)
  }

  /** `approve_refund`: a POST of the validated approval to `/api/refunds/{refund_id}/approve`. */
  function ApproveRefund(refundId: int, approval: map<string, Json>): (r: Result<Call, ToolCalls.Refusal>)
    ensures r.Ok? <==> Validate(RefundModel.RefundApproval, approval).Ok?
    ensures r.Err? ==> r.error == ToolCalls.Invalid(Validate(RefundModel.RefundApproval, approval).error)
    ensures r.Ok? ==> r.value.verb == POST && r.value.params.None?
    ensures r.Ok? ==> Endpoints.UnframeInt("/api/refunds/", "/approve", r.value.endpoint) == Some(refundId)
    ensures r.Ok? ==> r.value.data == Some(JObject(Dump(Validate(RefundModel.RefundApproval, approval).value)))
  {
    assert DistinctNames(RefundModel.RefundApproval) && ToolCalls.NoDateTime(RefundModel.RefundApproval);
    Endpoints.UnframeIntFramed("/api/refunds/", refundId, "/approve");
    ToolCalls.SendValidated(POST, Endpoints.Framed("/api/refunds/", Decimal.IntToString(refundId), "/approve"),
                            RefundModel.RefundApproval, approval)
  }

  /** `deny_refund`: a POST of the validated denial to `/api/refunds/{refund_id}/deny`. */
  function DenyRefund(refundId: int, denial: map<string, Json>): (r: Result<Call, ToolCalls.Refusal>)
    ensures r.Ok? <==> Validate(RefundModel.RefundDenial, denial).Ok?
    ensures r.Err? ==> r.error == ToolCalls.Invalid(Validate(RefundModel.RefundDenial, denial).error)
    ensures r.Ok? ==> r.value.verb == POST && r.value.params.None?
    ensures r.Ok? ==> Endpoints.UnframeInt("/api/refunds/", "/deny", r.value.endpoint) == Some(refundId)
    ensures r.Ok? ==> r.value.data == Some(JObject(Dump(Validate(RefundModel.RefundDenial, denial).value)))
  {
    assert ToolCalls.NoDateTime(RefundModel.RefundDenial);
    Endpoints.UnframeIntFramed("/api/refunds/", refundId, "/deny");
    ToolCalls.SendValidated(POST, Endpoints.Framed("/api/refunds/", Decimal.IntToString(refundId), "/deny"),
                            RefundModel.RefundDenial, denial)
  }

  /** `request_points_refund`: a POST of the validated request to `/api/refunds/points/cancel`. */
  function RequestPointsRefund(pointsRefund: map<string, Json>): (r: Result<Call, ToolCalls.Refusal>)
    ensures r.Ok? <==> Validate(RefundModel.PointsRefundRequest, pointsRefund).Ok?
    ensures r.Err? ==> r.error == ToolCalls.Invalid(Validate(RefundModel.PointsRefundRequest, pointsRefund).error)
    ensures r.Ok? ==> r.value.verb == POST && r.value.endpoint == "/api/refunds/points/cancel" && r.value.params.None?
    ensures r.Ok? ==> r.value.data == Some(JObject(Dump(Validate(RefundModel.PointsRefundRequest, pointsRefund).value)))
  {
    RefundModel.PointsRefundWellFormed();
    assert ToolCalls.NoDateTime(RefundModel.PointsRefundRequest);
    ToolCalls.SendValidated(POST, "/api/refunds/points/cancel", RefundModel.PointsRefundRequest, pointsRefund)
  }

  /**
   * A minimal refund request (type, amount, reason) is sent as exactly those
   * three fields, with the type as its lower-case wire string.
   */
  lemma SubmitMinimalRequest(t: Enums.RefundType, amount: real, reason: string)
    requires amount > 0.0
    ensures SubmitRefundRequest(RefundModel.MinimalRefundRequest(t, amount, reason)).Ok?
    ensures SubmitRefundRequest(RefundModel.MinimalRefundRequest(t, amount, reason)).value.data
            == Some(JObject(map["refund_type" := JString(t.Wire()), "refund_amount" := JFloat(amount), "reason" := JString(reason)]))
  {
    RefundModel.RefundRequestMinimal(t, amount, reason);
  }

  /** An empty denial is accepted and sends an empty body: the denial reason is optional. */
  lemma DenyWithoutReason(refundId: int)
    ensures DenyRefund(refundId, map[]).Ok?
    ensures DenyRefund(refundId, map[]).value.data == Some(JObject(map[]))
  {
    RefundModel.EmptyDenialAccepted();
  }

  /** Approving and denying the same refund go to different paths. */
  lemma ApproveDenyDistinct(refundId: int, approval: map<string, Json>, denial: map<string, Json>)
    requires ApproveRefund(refundId, approval).Ok? && DenyRefund(refundId, denial).Ok?
    ensures ApproveRefund(refundId, approval).value.endpoint != DenyRefund(refundId, denial).value.endpoint
  {
    var a := ApproveRefund(refundId, approval).value.endpoint;
    var d := DenyRefund(refundId, denial).value.endpoint;
    var text := Decimal.IntToString(refundId);
    assert a == "/api/refunds/" + text + "/approve";
    assert d == "/api/refunds/" + text + "/deny";
    assert a[|a| - 1] == 'e' && d[|d| - 1] == 'y';
  }
}
