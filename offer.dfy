/** Offers: the entity `Offer`, the creation request `OfferCreate` and `OfferActivationRequest`. */
module OfferModel {

  import opened Wrappers
  import opened JsonValues
  import opened Schema

  const Offer: Schema := [
    Req("id", Int),
    Req("title", Str),
    Opt("description", Str),
    Req("category", Str),
    Opt("merchant_id", Int),
    Opt("merchant_name", Str),
    Opt("discount_percentage", Float),
    Opt("max_discount_amount", Float),
    Opt("min_transaction_amount", Float),
    Opt("reward_points", Int),
    Opt("start_date", DateTime),
    Opt("expiry_date", DateTime),
    Opt("is_active", Bool)
  ]

  const OfferCreate: Schema := [
    Req("title", Str),
    Opt("description", Str),
    Req("category", Str),
    Opt("merchant_id", Int),
    Opt("discount_percentage", Float, [Ge(0.0), Le(100.0)]),
    Opt("max_discount_amount", Float, [Ge(0.0)]),
    Opt("min_transaction_amount", Float, [Ge(0.0)]),
    Opt("reward_points", Int, [Ge(0.0)]),
    Req("start_date", DateTime),
    Req("expiry_date", DateTime),
    Opt("terms_and_conditions", Str)
  ]

  const OfferActivationRequest: Schema := [
    Req("customer_id", Int)
  ]

  lemma OfferWellFormed()
    ensures WellFormed(Offer)
  {
    assert DistinctNames(Offer);
  }

  lemma OfferCreateWellFormed()
    ensures WellFormed(OfferCreate)
  {
    assert DistinctNames(OfferCreate);
  }

  lemma OfferCreateDefaultsNone()
    ensures forall i :: 0 <= i < |OfferCreate| && OfferCreate[i].presence.Default? ==> OfferCreate[i].presence == Default(JNull)
  {
  }

  function MinimalOffer(title: string, category: string, start: string, expiry: string): map<string, Json> {
    map["title" := JString(title), "category" := JString(category),
        "start_date" := JString(start), "expiry_date" := JString(expiry)]
  }

  lemma MinimalOfferFields(title: string, category: string, start: string, expiry: string)
    ensures forall i :: 0 <= i < |OfferCreate| ==>
              (OfferCreate[i].name in MinimalOffer(title, category, start, expiry) <==> OfferCreate[i].presence.Required?)
  {
  }

  lemma MinimalOfferKeys(title: string, category: string, start: string, expiry: string)
    ensures MinimalOffer(title, category, start, expiry).Keys <= Names(OfferCreate)
  {
    assert OfferCreate[0].name == "title" && OfferCreate[2].name == "category";
    assert OfferCreate[8].name == "start_date" && OfferCreate[9].name == "expiry_date";
  }

  lemma MinimalOfferValues(title: string, category: string, start: string, expiry: string)
    ensures var input := MinimalOffer(title, category, start, expiry);
            forall i :: 0 <= i < |OfferCreate| && OfferCreate[i].name in input ==>
              Coerce(OfferCreate[i], input[OfferCreate[i].name]) == Ok(input[OfferCreate[i].name])
  {
  }

  /**
   * Title, category and the two dates are the only required fields: those four
   * alone are accepted, whatever the dates (no start-before-expiry check), the
   * other fields take their default None, and the body sent is exactly those
   * four.
   */
  lemma OfferCreateMinimal(title: string, category: string, start: string, expiry: string)
    ensures Validate(OfferCreate, MinimalOffer(title, category, start, expiry)).Ok?
    ensures Dump(Validate(OfferCreate, MinimalOffer(title, category, start, expiry)).value)
            == MinimalOffer(title, category, start, expiry)
  {
    OfferCreateWellFormed();
    MinimalOfferFields(title, category, start, expiry);
    MinimalOfferValues(title, category, start, expiry);
    MinimalOfferKeys(title, category, start, expiry);
    CanonicalInput(OfferCreate, MinimalOffer(title, category, start, expiry));
  }

  /** An accepted creation request supplies title, category, start date and expiry date. */
  lemma OfferCreateRequired(input: map<string, Json>)
    requires Validate(OfferCreate, input).Ok?
    ensures {"title", "category", "start_date", "expiry_date"} <= input.Keys
  {
    RequiredPresent(OfferCreate, input, 0);
    RequiredPresent(OfferCreate, input, 2);
    RequiredPresent(OfferCreate, input, 8);
    RequiredPresent(OfferCreate, input, 9);
  }

  /** A discount percentage is accepted exactly in [0, 100]; None is accepted too. */
  lemma DiscountPercentageRange(input: map<string, Json>, pct: real)
    requires Validate(OfferCreate, input).Ok?
    ensures Validate(OfferCreate, input["discount_percentage" := JFloat(pct)]).Ok? <==> 0.0 <= pct <= 100.0
    ensures !(0.0 <= pct <= 100.0) ==>
              Validate(OfferCreate, input["discount_percentage" := JFloat(pct)]) == Err([OutOfRange("discount_percentage")])
    ensures Validate(OfferCreate, input["discount_percentage" := JNull]).Ok?
  {
    OfferCreateWellFormed();
    ReplaceField(OfferCreate, input, 4, JFloat(pct));
    ReplaceField(OfferCreate, input, 4, JNull);
    WithinTwo(pct, Ge(0.0), Le(100.0));
  }

  /**
   * The maximum discount and minimum transaction amounts are each accepted
   * exactly when non-negative, independently of one another: no min <= max
   * check exists.
   */
  lemma AmountsNonNegative(input: map<string, Json>, maxDiscount: real, minTransaction: real)
    requires Validate(OfferCreate, input).Ok?
    ensures Validate(OfferCreate, input["max_discount_amount" := JFloat(maxDiscount)]
                                        ["min_transaction_amount" := JFloat(minTransaction)]).Ok?
            <==> maxDiscount >= 0.0 && minTransaction >= 0.0
  {
    OfferCreateWellFormed();
    WithinOne(maxDiscount, Ge(0.0));
    WithinOne(minTransaction, Ge(0.0));
    ReplaceField(OfferCreate, input, 5, JFloat(maxDiscount));
    if maxDiscount >= 0.0 {
      ReplaceField(OfferCreate, input["max_discount_amount" := JFloat(maxDiscount)], 6, JFloat(minTransaction));
    } else {
      var input' := input["max_discount_amount" := JFloat(maxDiscount)]["min_transaction_amount" := JFloat(minTransaction)];
      ValidateOkIff(OfferCreate, input');
      assert CheckField(OfferCreate[5], input').Err?;
    }
  }

  /** Reward points, when given, must be a non-negative integer. */
  lemma RewardPointsNonNegative(input: map<string, Json>, points: int)
    requires Validate(OfferCreate, input).Ok?
    ensures Validate(OfferCreate, input["reward_points" := JInt(points)]).Ok? <==> points >= 0
  {
    OfferCreateWellFormed();
    ReplaceField(OfferCreate, input, 7, JInt(points));
    WithinOne(points as real, Ge(0.0));
  }

  /** The category is a free string, not checked against the offer categories. */
  lemma OfferCategoryUnchecked(input: map<string, Json>, category: string)
    requires Validate(OfferCreate, input).Ok?
    ensures Validate(OfferCreate, input["category" := JString(category)]).Ok?
  {
    OfferCreateWellFormed();
    ReplaceField(OfferCreate, input, 2, JString(category));
  }

  /** Activation needs a customer id and nothing else. */
  lemma ActivationNeedsCustomer(input: map<string, Json>, customer: int)
    ensures Validate(OfferActivationRequest, input).Ok? ==> "customer_id" in input
    ensures Validate(OfferActivationRequest, map["customer_id" := JInt(customer)]).Ok?
  {
    if Validate(OfferActivationRequest, input).Ok? {
      RequiredPresent(OfferActivationRequest, input, 0);
    }
  }
}
