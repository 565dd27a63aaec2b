/** The credit-card creation request (`CreditCardCreate`). */
module CreditCardModel {

  import opened Wrappers
  import opened JsonValues
  import opened Schema
  import Enums

  const CreditCardCreate: Schema := [
    Req("card_number", Str),
    Req("card_holder_name", Str),
    Req("expiry_month", Int, [Ge(1.0), Le(12.0)]),
    Req("expiry_year", Int),
    Req("product_type", Enum(Enums.CreditCardProductWires)),
    Req("credit_limit", Float, [Gt(0.0)])
  ]

  lemma CreditCardCreateWellFormed()
    ensures WellFormed(CreditCardCreate)
  {
    assert DistinctNames(CreditCardCreate);
  }

  /** All six fields are required: an accepted request supplies every one of them. */
  lemma CreditCardCreateRequired(input: map<string, Json>)
    requires Validate(CreditCardCreate, input).Ok?
    ensures {"card_number", "card_holder_name", "expiry_month", "expiry_year", "product_type", "credit_limit"} <= input.Keys
  {
    RequiredPresent(CreditCardCreate, input, 0);
    RequiredPresent(CreditCardCreate, input, 1);
    RequiredPresent(CreditCardCreate, input, 2);
    RequiredPresent(CreditCardCreate, input, 3);
    RequiredPresent(CreditCardCreate, input, 4);
    RequiredPresent(CreditCardCreate, input, 5);
  }

  /** The expiry month is accepted exactly in 1..12; any other month is reported against that field alone. */
  lemma ExpiryMonthRange(input: map<string, Json>, month: int)
    requires Validate(CreditCardCreate, input).Ok?
    ensures Validate(CreditCardCreate, input["expiry_month" := JInt(month)]).Ok? <==> 1 <= month <= 12
    ensures !(1 <= month <= 12) ==>
              Validate(CreditCardCreate, input["expiry_month" := JInt(month)]) == Err([OutOfRange("expiry_month")])
  {
    CreditCardCreateWellFormed();
    ReplaceField(CreditCardCreate, input, 2, JInt(month));
    WithinTwo(month as real, Ge(1.0), Le(12.0));
  }

  /** The credit limit must be strictly positive, so a limit of 0 is refused. */
  lemma CreditLimitPositive(input: map<string, Json>, limit: real)
    requires Validate(CreditCardCreate, input).Ok?
    ensures Validate(CreditCardCreate, input["credit_limit" := JFloat(limit)]).Ok? <==> limit > 0.0
    ensures limit <= 0.0 ==>
              Validate(CreditCardCreate, input["credit_limit" := JFloat(limit)]) == Err([OutOfRange("credit_limit")])
  {
    CreditCardCreateWellFormed();
    ReplaceField(CreditCardCreate, input, 5, JFloat(limit));
    WithinOne(limit, Gt(0.0));
  }

  /** The product type is accepted exactly when it is the wire string of a `CreditCardProduct`. */
  lemma ProductTypeMembership(input: map<string, Json>, w: string)
    requires Validate(CreditCardCreate, input).Ok?
    ensures Validate(CreditCardCreate, input["product_type" := JString(w)]).Ok? <==> Enums.CreditCardProduct.FromWire(w).Some?
    ensures Enums.CreditCardProduct.FromWire(w).None? ==>
              Validate(CreditCardCreate, input["product_type" := JString(w)]) == Err([NotAMember("product_type")])
  {
    CreditCardCreateWellFormed();
    ReplaceField(CreditCardCreate, input, 4, JString(w));
    Enums.CreditCardProductDecoding();
  }

  /** Card number, holder name and expiry year carry no range or format check. */
  lemma UncheckedCardFields(input: map<string, Json>, number: string, holder: string, year: int)
    requires Validate(CreditCardCreate, input).Ok?
    ensures Validate(CreditCardCreate, input["card_number" := JString(number)]).Ok?
    ensures Validate(CreditCardCreate, input["card_holder_name" := JString(holder)]).Ok?
    ensures Validate(CreditCardCreate, input["expiry_year" := JInt(year)]).Ok?
  {
    CreditCardCreateWellFormed();
    ReplaceField(CreditCardCreate, input, 0, JString(number));
    ReplaceField(CreditCardCreate, input, 1, JString(holder));
    ReplaceField(CreditCardCreate, input, 3, JInt(year));
  }
}
