/**
 * The integration tools: card tokens, the hotel and flight offers, travel
 * packages and the shopping service.  Each builds the call it hands to the
 * client; `APIClient.Perform` runs it and the tool returns the client's
 * result unchanged.
 */
module IntegrationTools {

  import opened Wrappers
  import opened JsonValues
  import opened Schema
  import opened BaseClient
  import Decimal
  import Enums
  import Endpoints
  import ToolCalls
  import IntegrationModel

  // ---------------------------------------------------------------------------
  // Card tokens
  // ---------------------------------------------------------------------------

  /**
   * `create_card_token`: a POST of the validated token request to
   * `/api/tokens/create`, for the token types `tokenTypes` of the enumeration.
   */
  function CreateCardToken(tokenTypes: set<string>, tokenRequest: map<string, Json>): (r: Result<Call, ToolCalls.Refusal>)
    ensures r.Ok? <==> Validate(IntegrationModel.CardTokenRequest(tokenTypes), tokenRequest).Ok?
    ensures r.Err? ==> r.error == ToolCalls.Invalid(Validate(IntegrationModel.CardTokenRequest(tokenTypes), tokenRequest).error)
    ensures r.Ok? ==> r.value.verb == POST && r.value.endpoint == "/api/tokens/create" && r.value.params.None?
    ensures r.Ok? ==> r.value.data == Some(JObject(Dump(Validate(IntegrationModel.CardTokenRequest(tokenTypes), tokenRequest).value)))
  {
    var s := IntegrationModel.CardTokenRequest(tokenTypes);
    assert DistinctNames(s) && ToolCalls.NoDateTime(s);
    ToolCalls.SendValidated(POST, "/api/tokens/create", s, tokenRequest)
  }

  /**
   * A token request naming only the card is sent as the card id alone: the
   * server, not this client, applies the single-use type and the 24-hour
   * lifetime.
   */
  lemma CreateTokenForCardOnly(tokenTypes: set<string>, card: int)
    requires Enums.TokenTypeSingleUse in tokenTypes
    ensures CreateCardToken(tokenTypes, map["card_id" := JInt(card)]).Ok?
    ensures CreateCardToken(tokenTypes, map["card_id" := JInt(card)]).value.data == Some(JObject(map["card_id" := JInt(card)]))
  {
    IntegrationModel.CardTokenRequestDefaults(tokenTypes, card);
  }

  /**
   * Any token type of the enumeration, multi-use and recurring as much as
   * single-use, is sent as asked; a string outside it never reaches the client.
   */
  lemma CreateTokenOfType(tokenTypes: set<string>, card: int, tokenType: string)
    ensures var request := map["card_id" := JInt(card), "token_type" := JString(tokenType)];
            && (CreateCardToken(tokenTypes, request).Ok? <==> tokenType in tokenTypes)
            && (tokenType in tokenTypes ==> CreateCardToken(tokenTypes, request).value.data == Some(JObject(request)))
            && (tokenType !in tokenTypes ==>
                  CreateCardToken(tokenTypes, request).error == ToolCalls.Invalid([NotAMember("token_type")]))
  {
    var s := IntegrationModel.CardTokenRequest(tokenTypes);
    var cardOnly := map["card_id" := JInt(card)];
    var request := cardOnly["token_type" := JString(tokenType)];
    assert DistinctNames(s);
    assert cardOnly.Keys <= Names(s) by {
      assert s[0].name == "card_id";
    }
    CanonicalInput(s, cardOnly);
    IntegrationModel.TokenTypeMembership(tokenTypes, cardOnly, tokenType);
    if tokenType in tokenTypes {
      assert request.Keys <= Names(s) by {
        assert s[0].name == "card_id" && s[1].name == "token_type";
      }
      ToolCalls.SendsCanonicalInput(POST, "/api/tokens/create", s, request);
    }
  }

  /** What a tool does with one token. */
  datatype TokenAction = Validation | Details | Deactivation

  /**
   * `validate_card_token`, `get_token_details` and `deactivate_card_token`:
   * validation and deactivation are POSTs with no body, the details a GET;
   * none has a query, and the token id is read back from the path.
   */
  function TokenCall(action: TokenAction, tokenId: string): (c: Call)
    ensures c.params.None? && c.data.None?
    ensures c.verb == (if action == Details then GET else POST)
    ensures action == Validation ==> Endpoints.Unframe("/api/tokens/", "/validate", c.endpoint) == Some(tokenId)
    ensures action == Details ==> Endpoints.Unframe("/api/tokens/", "", c.endpoint) == Some(tokenId)
    ensures action == Deactivation ==> Endpoints.Unframe("/api/tokens/", "/deactivate", c.endpoint) == Some(tokenId)
  {
    match action
    case Validation =>
      Endpoints.UnframeFramed("/api/tokens/", tokenId, "/validate");
      Call(POST, Endpoints.Framed("/api/tokens/", tokenId, "/validate"), None, None)
    case Details =>
      Endpoints.UnframeFramed("/api/tokens/", tokenId, "");
      Call(GET, Endpoints.Framed("/api/tokens/", tokenId, ""), None, None)
    case Deactivation =>
      Endpoints.UnframeFramed("/api/tokens/", tokenId, "/deactivate");
      Call(POST, Endpoints.Framed("/api/tokens/", tokenId, "/deactivate"), None, None)
  }

  /**
   * The token id is interpolated without escaping, so an id holding a `/`
   * reaches another endpoint: the details of token `card/5/tokens` are the
   * same GET, with the same empty query, as the token list of card 5.
   */
  lemma TokenIdAliasesCardTokens()
    ensures TokenCall(Details, "card/5/tokens").verb == GET
    ensures TokenCall(Details, "card/5/tokens").endpoint
            == Endpoints.Framed("/api/tokens/card/", Decimal.IntToString(5), "/tokens")
  {
    assert Decimal.NatToString(5) == "5";
  }

  /**
   * The token call with the id escaped as one path segment: the id is still
   * read back from the path, and no character of the segment is a `/`, `?`
   * or `#`.
   */
  function EscapedTokenCall(action: TokenAction, tokenId: string): (c: Call)
    ensures c.params.None? && c.data.None?
    ensures c.verb == (if action == Details then GET else POST)
    ensures var suffix := match action case Validation => "/validate" case Details => "" case Deactivation => "/deactivate";
            && Endpoints.Unframe("/api/tokens/", suffix, c.endpoint) == Some(Endpoints.Escape(tokenId))
            && Endpoints.Unescape(Endpoints.Escape(tokenId)) == Some(tokenId)
  {
    Endpoints.UnescapeEscape(tokenId);
    TokenCall(action, Endpoints.Escape(tokenId))
  }

  /** With the id escaped, no token's details path is ever a card's token-list path. */
  lemma EscapedDetailsNeverAliasCardTokens(tokenId: string, cardId: int)
    ensures EscapedTokenCall(Details, tokenId).endpoint
            != Endpoints.Framed("/api/tokens/card/", Decimal.IntToString(cardId), "/tokens")
  {
    var details := EscapedTokenCall(Details, tokenId).endpoint;
    var list := Endpoints.Framed("/api/tokens/card/", Decimal.IntToString(cardId), "/tokens");
    var segment := Endpoints.Escape(tokenId);
    assert details == "/api/tokens/" + segment;
    assert list[16] == '/';
    if |details| > 16 {
      assert details[16] == segment[4];
    }
  }

  /**
   * The query of both token listings: always a dictionary, carrying
   * `is_active` exactly when the filter is given.
   */
  method ActiveFilter(isActive: Option<bool>) returns (params: map<string, Json>)
    ensures params.Keys <= {"is_active"}
    ensures "is_active" in params <==> isActive.Some?
    ensures isActive.Some? ==> params["is_active"] == JBool(isActive.value)
  {
    params := map[];
    if isActive.Some? {
      params := params["is_active" := JBool(isActive.value)];
    }
  }

  /** `get_card_tokens`: a GET of `/api/tokens/card/{card_id}/tokens` with the `is_active` filter. */
  method GetCardTokens(cardId: int, isActive: Option<bool>) returns (call: Call)
    ensures call.verb == GET && call.data.None?
    ensures Endpoints.UnframeInt("/api/tokens/card/", "/tokens", call.endpoint) == Some(cardId)
    ensures call.params.Some? && call.params.value.Keys <= {"is_active"}
    ensures "is_active" in call.params.value <==> isActive.Some?
    ensures isActive.Some? ==> call.params.value["is_active"] == JBool(isActive.value)
  {
    var params := ActiveFilter(isActive);
    Endpoints.UnframeIntFramed("/api/tokens/card/", cardId, "/tokens");
    call := Call(GET, Endpoints.Framed("/api/tokens/card/", Decimal.IntToString(cardId), "/tokens"), Some(params), None);
  }

  /** `get_customer_tokens`: a GET of `/api/tokens/customer/{customer_id}` with the same filter. */
  method GetCustomerTokens(customerId: int, isActive: Option<bool>) returns (call: Call)
    ensures call.verb == GET && call.data.None?
    ensures Endpoints.UnframeInt("/api/tokens/customer/", "", call.endpoint) == Some(customerId)
    ensures call.params.Some? && call.params.value.Keys <= {"is_active"}
    ensures "is_active" in call.params.value <==> isActive.Some?
    ensures isActive.Some? ==> call.params.value["is_active"] == JBool(isActive.value)
  {
    var params := ActiveFilter(isActive);
    Endpoints.UnframeIntFramed("/api/tokens/customer/", customerId, "");
    call := Call(GET, Endpoints.Framed("/api/tokens/customer/", Decimal.IntToString(customerId), ""), Some(params), None);
  }

  // ---------------------------------------------------------------------------
  // Hotel, flight and travel-package offers
  // ---------------------------------------------------------------------------

  /**
   * The offer services whose request models are imported but not defined in
   * this repository: their dumped bodies are forwarded as given.
   */
  datatype OfferService = HotelSearch | HotelBooking | FlightSearch | FlightBooking | TravelPackageSearch

  function OfferServicePath(service: OfferService): string {
    match service
    case HotelSearch => "/offers/hotel/search-hotels"
    case HotelBooking => "/offers/hotel/book-hotel"
    case FlightSearch => "/offers/travel/search-flights"
    case FlightBooking => "/offers/travel/book-flight"
    case TravelPackageSearch => "/offers/search/travel-package"
  }

  /**
   * `search_hotels`, `book_hotel`, `search_flights`, `book_flight` and
   * `search_travel_packages`: a POST, with no query, of the request body
   * unchanged, each service to a path of its own.
   */
  function ForwardOffer(service: OfferService, body: map<string, Json>): (c: Call)
    ensures c.verb == POST && c.params.None? && c.data == Some(JObject(body))
    ensures forall other: OfferService :: other != service ==> c.endpoint != OfferServicePath(other)
  {
    OfferPathsDistinct();
    Call(POST, OfferServicePath(service), None, Some(JObject(body)))
  }

  /** No two offer services share a path. */
  lemma OfferPathsDistinct()
    ensures forall a: OfferService, b: OfferService :: a != b ==> OfferServicePath(a) != OfferServicePath(b)
  {
    forall a: OfferService, b: OfferService | a != b ensures OfferServicePath(a) != OfferServicePath(b) {
      var p, q := OfferServicePath(a), OfferServicePath(b);
      if |p| == |q| {
        assert p[8] != q[8] || p[15] != q[15] || p[16] != q[16];
      }
    }
  }

  /** Bookings looked up by a reference or id that is a string. */
  datatype Lookup = HotelBookingDetails | FlightBookingDetails | ProductDetails | ShoppingOrderDetails

  function LookupPrefix(lookup: Lookup): string {
    match lookup
    case HotelBookingDetails => "/offers/hotel/booking/"
    case FlightBookingDetails => "/offers/travel/booking/"
    case ProductDetails => "/offers/shopping/product/"
    case ShoppingOrderDetails => "/offers/shopping/order/"
  }

  /**
   * `get_hotel_booking_details`, `get_flight_booking_details`,
   * `get_product_details` and `get_shopping_order_details`: a GET with no
   * query and no body; the reference is read back from the path.
   */
  function LookupCall(lookup: Lookup, reference: string): (c: Call)
    ensures c.verb == GET && c.params.None? && c.data.None?
    ensures Endpoints.Unframe(LookupPrefix(lookup), "", c.endpoint) == Some(reference)
  {
    Endpoints.UnframeFramed(LookupPrefix(lookup), reference, "");
    Call(GET, Endpoints.Framed(LookupPrefix(lookup), reference, ""), None, None)
  }

  /** The listings that take no argument at all. */
  datatype Catalogue = Cities | Airports | ShoppingCategories | ShoppingBrands | IntegrationStatus

  function CataloguePath(catalogue: Catalogue): string {
    match catalogue
    case Cities => "/offers/hotel/cities"
    case Airports => "/offers/travel/airports"
    case ShoppingCategories => "/offers/shopping/categories"
    case ShoppingBrands => "/offers/shopping/brands"
    case IntegrationStatus => "/simulator/status"
  }

  /**
   * `get_available_cities`, `get_available_airports`,
   * `get_shopping_categories`, `get_shopping_brands` and
   * `check_integration_status`: a GET with no query and no body, each to a
   * path of its own.
   */
  function CatalogueCall(catalogue: Catalogue): (c: Call)
    ensures c.verb == GET && c.params.None? && c.data.None?
    ensures forall other: Catalogue :: other != catalogue ==> c.endpoint != CataloguePath(other)
  {
    CataloguePathsDistinct();
    Call(GET, CataloguePath(catalogue), None, None)
  }

  /** No two catalogues share a path. */
  lemma CataloguePathsDistinct()
    ensures forall a: Catalogue, b: Catalogue :: a != b ==> CataloguePath(a) != CataloguePath(b)
  {
    forall a: Catalogue, b: Catalogue | a != b ensures CataloguePath(a) != CataloguePath(b) {
      var p, q := CataloguePath(a), CataloguePath(b);
      if |p| == |q| {
        assert p[8] != q[8] || p[17] != q[17];
      }
    }
  }

  // ---------------------------------------------------------------------------
  // Shopping
  // ---------------------------------------------------------------------------

  /** `search_shopping_products`: a POST of the validated search to `/offers/shopping/search`. */
  function SearchShoppingProducts(search: map<string, Json>): (r: Result<Call, ToolCalls.Refusal>)
    ensures r.Ok? <==> Validate(IntegrationModel.ShoppingProductSearch, search).Ok?
    ensures r.Err? ==> r.error == ToolCalls.Invalid(Validate(IntegrationModel.ShoppingProductSearch, search).error)
    ensures r.Ok? ==> r.value.verb == POST && r.value.endpoint == "/offers/shopping/search" && r.value.params.None?
    ensures r.Ok? ==> r.value.data == Some(JObject(Dump(Validate(IntegrationModel.ShoppingProductSearch, search).value)))
  {
    IntegrationModel.ProductSearchWellFormed();
    assert ToolCalls.NoDateTime(IntegrationModel.ShoppingProductSearch);
    ToolCalls.SendValidated(POST, "/offers/shopping/search", IntegrationModel.ShoppingProductSearch, search)
  }

  /** `add_to_shopping_cart`: a POST of the validated cart item to `/offers/shopping/add-to-cart`. */
  function AddToShoppingCart(cartItem: map<string, Json>): (r: Result<Call, ToolCalls.Refusal>)
    ensures r.Ok? <==> Validate(IntegrationModel.ShoppingCartItem, cartItem).Ok?
    ensures r.Err? ==> r.error == ToolCalls.Invalid(Validate(IntegrationModel.ShoppingCartItem, cartItem).error)
    ensures r.Ok? ==> r.value.verb == POST && r.value.endpoint == "/offers/shopping/add-to-cart" && r.value.params.None?
    ensures r.Ok? ==> r.value.data == Some(JObject(Dump(Validate(IntegrationModel.ShoppingCartItem, cartItem).value)))
  {
    IntegrationModel.CartItemWellFormed();
    assert ToolCalls.NoDateTime(IntegrationModel.ShoppingCartItem);
    ToolCalls.SendValidated(POST, "/offers/shopping/add-to-cart", IntegrationModel.ShoppingCartItem, cartItem)
  }

  /** `create_shopping_order`: a POST of the validated order to `/offers/shopping/create-order`. */
  function CreateShoppingOrder(order: map<string, Json>): (r: Result<Call, ToolCalls.Refusal>)
    ensures r.Ok? <==> Validate(IntegrationModel.ShoppingOrder, order).Ok?
    ensures r.Err? ==> r.error == ToolCalls.Invalid(Validate(IntegrationModel.ShoppingOrder, order).error)
    ensures r.Ok? ==> r.value.verb == POST && r.value.endpoint == "/offers/shopping/create-order" && r.value.params.None?
    ensures r.Ok? ==> r.value.data == Some(JObject(Dump(Validate(IntegrationModel.ShoppingOrder, order).value)))
  {
    assert DistinctNames(IntegrationModel.ShoppingOrder) && ToolCalls.NoDateTime(IntegrationModel.ShoppingOrder);
    ToolCalls.SendValidated(POST, "/offers/shopping/create-order", IntegrationModel.ShoppingOrder, order)
  }

  /** An empty product search is sent as the empty body; the server applies the paging defaults. */
  lemma EmptySearchSendsNothing()
    ensures SearchShoppingProducts(map[]).Ok?
    ensures SearchShoppingProducts(map[]).value.data == Some(JObject(map[]))
  {
    IntegrationModel.ProductSearchDefaults();
  }

  /** A cart item with a quantity below 1 never reaches the client. */
  lemma CartQuantityChecked(cartItem: map<string, Json>, quantity: int)
    requires Validate(IntegrationModel.ShoppingCartItem, cartItem).Ok?
    ensures AddToShoppingCart(cartItem["quantity" := JInt(quantity)]).Ok? <==> quantity >= 1
  {
    IntegrationModel.CartItemChecks(cartItem, quantity);
  }
}
