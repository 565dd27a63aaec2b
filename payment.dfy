/** Payments: the entity `Payment` and the creation request `PaymentCreate`. */
module PaymentModel {

  import opened Wrappers
  import opened JsonValues
  import opened Schema
  import Enums

  const Payment: Schema := [
    Req("id", Int),
    Req("credit_card_id", Int),
    Req("amount", Float),
    Req("merchant_name", Str),
    Opt("merchant_category", Str),
    Opt("transaction_date", DateTime),
    Req("status", Enum(Enums.PaymentStatusWires)),
    Opt("reference_number", Str),
    Opt("description", Str)
  ]

  const PaymentCreate: Schema := [
    Req("credit_card_id", Int),
    Req("amount", Float, [Gt(0.0)]),
    Req("merchant_name", Str),
    Opt("merchant_category", Str),
    Opt("description", Str)
  ]

  lemma PaymentWellFormed()
    ensures WellFormed(Payment)
  {
    assert DistinctNames(Payment);
  }

  lemma PaymentCreateWellFormed()
    ensures WellFormed(PaymentCreate)
  {
    assert DistinctNames(PaymentCreate);
  }

  /** A payment amount must be strictly positive; 0 and negative amounts are reported against `amount`. */
  lemma PaymentAmountPositive(input: map<string, Json>, amount: real)
    requires Validate(PaymentCreate, input).Ok?
    ensures Validate(PaymentCreate, input["amount" := JFloat(amount)]).Ok? <==> amount > 0.0
    ensures amount <= 0.0 ==> Validate(PaymentCreate, input["amount" := JFloat(amount)]) == Err([OutOfRange("amount")])
  {
    PaymentCreateWellFormed();
    ReplaceField(PaymentCreate, input, 1, JFloat(amount));
    WithinOne(amount, Gt(0.0));
  }

  /** Card, amount and merchant name are required. */
  lemma PaymentCreateRequired(input: map<string, Json>)
    requires Validate(PaymentCreate, input).Ok?
    ensures {"credit_card_id", "amount", "merchant_name"} <= input.Keys
  {
    RequiredPresent(PaymentCreate, input, 0);
    RequiredPresent(PaymentCreate, input, 1);
    RequiredPresent(PaymentCreate, input, 2);
  }

  /** The merchant category is optional and, when given, any string: it is not checked against the merchant categories. */
  lemma PaymentCategoryUnchecked(input: map<string, Json>, category: string)
    requires Validate(PaymentCreate, input).Ok?
    ensures Validate(PaymentCreate, input["merchant_category" := JString(category)]).Ok?
    ensures Validate(PaymentCreate, input["merchant_category" := JNull]).Ok?
    ensures Validate(PaymentCreate, input["description" := JNull]).Ok?
  {
    PaymentCreateWellFormed();
    ReplaceField(PaymentCreate, input, 3, JString(category));
    ReplaceField(PaymentCreate, input, 3, JNull);
    ReplaceField(PaymentCreate, input, 4, JNull);
  }

  /** A payment's status must be one of the `PaymentStatus` wire strings. */
  lemma PaymentStatusMembership(input: map<string, Json>, w: string)
    requires Validate(Payment, input).Ok?
    ensures Validate(Payment, input["status" := JString(w)]).Ok? <==> Enums.PaymentStatus.FromWire(w).Some?
    ensures Enums.PaymentStatus.FromWire(w).None? ==>
              Validate(Payment, input["status" := JString(w)]) == Err([NotAMember("status")])
  {
    PaymentWellFormed();
    ReplaceField(Payment, input, 6, JString(w));
    Enums.PaymentStatusDecoding();
  }

  /** Unlike the creation request, the stored payment's amount has no positivity bound. */
  lemma PaymentEntityAmountUnbounded(input: map<string, Json>, amount: real)
    requires Validate(Payment, input).Ok?
    ensures Validate(Payment, input["amount" := JFloat(amount)]).Ok?
  {
    PaymentWellFormed();
    ReplaceField(Payment, input, 2, JFloat(amount));
  }
}
