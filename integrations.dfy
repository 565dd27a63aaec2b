/**
 * Integration request shapes: card tokens (`CardTokenRequest`, `CardToken`)
 * and the shopping service (`ShoppingProductSearch`, `ShoppingCartItem`,
 * `ShoppingOrder`).
 */
module IntegrationModel {

  import opened Wrappers
  import opened JsonValues
  import opened Schema
  import Enums

  /** The token request, over the wire strings `tokenTypes` of the token-type enumeration. */
  function CardTokenRequest(tokenTypes: set<string>): Schema {
    [
      Req("card_id", Int),
      Def("token_type", Enum(tokenTypes), JString(Enums.TokenTypeSingleUse)),
      Def("expires_in_hours", Int, JInt(24), [Ge(1.0), Le(8760.0)])
    ]
  }

  /** A stored token, over the same token types. */
  function CardToken(tokenTypes: set<string>): Schema {
    [
      Req("id", Str),
      Req("card_id", Int),
      Req("customer_id", Int),
      Req("token_type", Enum(tokenTypes)),
      Req("is_active", Bool),
      Req("created_at", DateTime),
      Req("expires_at", DateTime),
      Opt("last_used_at", DateTime),
      Def("usage_count", Int, JInt(0))
    ]
  }

  const ShoppingProductSearch: Schema := [
    Opt("query", Str),
    Opt("category", Str),
    Opt("brand", Str),
    Opt("min_price", Float, [Ge(0.0)]),
    Opt("max_price", Float, [Ge(0.0)]),
    Def("page", Int, JInt(1), [Ge(1.0)]),
    Def("per_page", Int, JInt(20), [Ge(1.0), Le(100.0)])
  ]

  const ShoppingCartItem: Schema := [
    Req("customer_id", Int),
    Req("product_id", Str),
    Def("quantity", Int, JInt(1), [Ge(1.0)])
  ]

  const ShoppingOrder: Schema := [
    Req("customer_id", Int),
    Req("shipping_address", Dict),
    Req("payment_method", Str)
  ]

  /** The request's defaults pass their checks whenever SINGLE_USE is a token type, as the source declares it. */
  lemma CardTokenRequestWellFormed(tokenTypes: set<string>)
    requires Enums.TokenTypeSingleUse in tokenTypes
    ensures WellFormed(CardTokenRequest(tokenTypes))
  {
    assert DistinctNames(CardTokenRequest(tokenTypes));
    WithinTwo(24.0, Ge(1.0), Le(8760.0));
  }

  lemma CardTokenWellFormed(tokenTypes: set<string>)
    ensures WellFormed(CardToken(tokenTypes))
  {
    assert DistinctNames(CardToken(tokenTypes));
  }

  lemma ProductSearchWellFormed()
    ensures WellFormed(ShoppingProductSearch)
  {
    assert DistinctNames(ShoppingProductSearch);
    WithinOne(1.0, Ge(1.0));
    WithinTwo(20.0, Ge(1.0), Le(100.0));
  }

  lemma CartItemWellFormed()
    ensures WellFormed(ShoppingCartItem)
  {
    assert DistinctNames(ShoppingCartItem);
    WithinOne(1.0, Ge(1.0));
  }

  /** A token lifetime is accepted exactly in 1..8760 hours. */
  lemma ExpiresInHoursRange(tokenTypes: set<string>, input: map<string, Json>, hours: int)
    requires Validate(CardTokenRequest(tokenTypes), input).Ok?
    ensures Validate(CardTokenRequest(tokenTypes), input["expires_in_hours" := JInt(hours)]).Ok? <==> 1 <= hours <= 8760
    ensures !(1 <= hours <= 8760) ==>
              Validate(CardTokenRequest(tokenTypes), input["expires_in_hours" := JInt(hours)]) == Err([OutOfRange("expires_in_hours")])
  {
    assert DistinctNames(CardTokenRequest(tokenTypes));
    ReplaceField(CardTokenRequest(tokenTypes), input, 2, JInt(hours));
    WithinTwo(hours as real, Ge(1.0), Le(8760.0));
  }

  /**
   * The token type is accepted exactly when it is a member of the enumeration,
   * so every type the server offers, not only the default, can be requested.
   */
  lemma TokenTypeMembership(tokenTypes: set<string>, input: map<string, Json>, w: string)
    requires Validate(CardTokenRequest(tokenTypes), input).Ok?
    ensures Validate(CardTokenRequest(tokenTypes), input["token_type" := JString(w)]).Ok? <==> w in tokenTypes
    ensures w !in tokenTypes ==>
              Validate(CardTokenRequest(tokenTypes), input["token_type" := JString(w)]) == Err([NotAMember("token_type")])
  {
    assert DistinctNames(CardTokenRequest(tokenTypes));
    ReplaceField(CardTokenRequest(tokenTypes), input, 1, JString(w));
  }

  /** The card id is the one required field of a token request. */
  lemma CardTokenRequestRequired(tokenTypes: set<string>, input: map<string, Json>)
    requires Validate(CardTokenRequest(tokenTypes), input).Ok?
    ensures "card_id" in input
  {
    RequiredPresent(CardTokenRequest(tokenTypes), input, 0);
  }

  /**
   * A token request that gives only the card id is accepted with the declared
   * defaults, a single-use token valid for 24 hours, yet its body carries the
   * card id alone: the defaults are not sent.
   */
  lemma CardTokenRequestDefaults(tokenTypes: set<string>, card: int)
    requires Enums.TokenTypeSingleUse in tokenTypes
    ensures Validate(CardTokenRequest(tokenTypes), map["card_id" := JInt(card)]).Ok?
    ensures var m := Validate(CardTokenRequest(tokenTypes), map["card_id" := JInt(card)]).value;
            && "token_type" in m.values && m.values["token_type"] == JString("SINGLE_USE")
            && "expires_in_hours" in m.values && m.values["expires_in_hours"] == JInt(24)
    ensures Dump(Validate(CardTokenRequest(tokenTypes), map["card_id" := JInt(card)]).value) == map["card_id" := JInt(card)]
  {
    var s, input := CardTokenRequest(tokenTypes), map["card_id" := JInt(card)];
    CardTokenRequestWellFormed(tokenTypes);
    assert input.Keys <= Names(s) by {
      assert s[0].name == "card_id";
    }
    CanonicalInput(s, input);
    ValueOf(s, input, 1);
    ValueOf(s, input, 2);
  }

  /** A stored token that does not report its usage count has been used 0 times. */
  lemma UsageCountDefault(tokenTypes: set<string>, input: map<string, Json>)
    requires Validate(CardToken(tokenTypes), input).Ok?
    requires "usage_count" !in input
    ensures "usage_count" in Validate(CardToken(tokenTypes), input).value.values
    ensures Validate(CardToken(tokenTypes), input).value.values["usage_count"] == JInt(0)
  {
    CardTokenWellFormed(tokenTypes);
    ValueOf(CardToken(tokenTypes), input, 8);
  }

  /** An empty product search is accepted with page 1 and 20 items per page, and sends the empty body. */
  lemma ProductSearchDefaults()
    ensures Validate(ShoppingProductSearch, map[]).Ok?
    ensures var m := Validate(ShoppingProductSearch, map[]).value;
            && "page" in m.values && m.values["page"] == JInt(1)
            && "per_page" in m.values && m.values["per_page"] == JInt(20)
    ensures Dump(Validate(ShoppingProductSearch, map[]).value) == map[]
  {
    ProductSearchWellFormed();
    EmptyAccepted(ShoppingProductSearch);
    ValueOf(ShoppingProductSearch, map[], 5);
    ValueOf(ShoppingProductSearch, map[], 6);
  }

  /** The page is accepted from 1 up, and the page size exactly in 1..100. */
  lemma ProductSearchPaging(input: map<string, Json>, page: int, perPage: int)
    requires Validate(ShoppingProductSearch, input).Ok?
    ensures Validate(ShoppingProductSearch, input["page" := JInt(page)]).Ok? <==> page >= 1
    ensures Validate(ShoppingProductSearch, input["per_page" := JInt(perPage)]).Ok? <==> 1 <= perPage <= 100
  {
    ProductSearchWellFormed();
    ReplaceField(ShoppingProductSearch, input, 5, JInt(page));
    ReplaceField(ShoppingProductSearch, input, 6, JInt(perPage));
    WithinOne(page as real, Ge(1.0));
    WithinTwo(perPage as real, Ge(1.0), Le(100.0));
  }

  /** Each price bound is accepted when non-negative, with no check that the minimum is below the maximum. */
  lemma PriceBoundsIndependent(input: map<string, Json>, minPrice: real, maxPrice: real)
    requires Validate(ShoppingProductSearch, input).Ok?
    ensures Validate(ShoppingProductSearch, input["min_price" := JFloat(minPrice)]["max_price" := JFloat(maxPrice)]).Ok?
            <==> minPrice >= 0.0 && maxPrice >= 0.0
  {
    ProductSearchWellFormed();
    WithinOne(minPrice, Ge(0.0));
    WithinOne(maxPrice, Ge(0.0));
    ReplaceField(ShoppingProductSearch, input, 3, JFloat(minPrice));
    if minPrice >= 0.0 {
      ReplaceField(ShoppingProductSearch, input["min_price" := JFloat(minPrice)], 4, JFloat(maxPrice));
    } else {
      var input' := input["min_price" := JFloat(minPrice)]["max_price" := JFloat(maxPrice)];
      ValidateOkIff(ShoppingProductSearch, input');
      assert CheckField(ShoppingProductSearch[3], input').Err?;
    }
  }

  /** A cart item needs a customer and a product; the quantity defaults to 1 and must be at least 1. */
  lemma CartItemChecks(input: map<string, Json>, quantity: int)
    requires Validate(ShoppingCartItem, input).Ok?
    ensures {"customer_id", "product_id"} <= input.Keys
    ensures "quantity" !in input ==>
              "quantity" in Validate(ShoppingCartItem, input).value.values &&
              Validate(ShoppingCartItem, input).value.values["quantity"] == JInt(1)
    ensures Validate(ShoppingCartItem, input["quantity" := JInt(quantity)]).Ok? <==> quantity >= 1
  {
    RequiredPresent(ShoppingCartItem, input, 0);
    RequiredPresent(ShoppingCartItem, input, 1);
    CartItemWellFormed();
    ValueOf(ShoppingCartItem, input, 2);
    ReplaceField(ShoppingCartItem, input, 2, JInt(quantity));
    WithinOne(quantity as real, Ge(1.0));
  }

  /** An order needs customer, shipping address and payment method; the payment method is any string. */
  lemma ShoppingOrderChecks(input: map<string, Json>, paymentMethod: string)
    requires Validate(ShoppingOrder, input).Ok?
    ensures {"customer_id", "shipping_address", "payment_method"} <= input.Keys
    ensures Validate(ShoppingOrder, input["payment_method" := JString(paymentMethod)]).Ok?
  {
    RequiredPresent(ShoppingOrder, input, 0);
    RequiredPresent(ShoppingOrder, input, 1);
    RequiredPresent(ShoppingOrder, input, 2);
    assert DistinctNames(ShoppingOrder);
    ReplaceField(ShoppingOrder, input, 2, JString(paymentMethod));
  }
}
