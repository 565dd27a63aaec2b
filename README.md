# Bus payments, offers and rewards: MCP tool adapters and their API client

This project models the core of an MCP server that puts a bus-payments,
offers and rewards REST API behind tools. The model covers:

- **The shared HTTP client** (`BaseClient`, a `class APIClient`). It joins
  the base URL and the endpoint, and merges the JSON content-type header with
  any caller headers. It sends the request and turns the answer into the
  decoded JSON body, the success envelope `{"message": "Success",
  "status_code": s}`, or an `Exception("API Error: <detail>")` for any status
  of 400 or above. The network is a parameter: a function from the request
  sent to the response received. The fallback chain that picks the error
  detail is written imperatively (`ReadErrorDetail`). It is proved equal to a
  declarative definition by body shape (`ErrorDetail`).
- **The string enumerations** (`Enums`). Each one has its wire strings and
  its value lookup, proved to be a bijection.
- **The request and entity models**, through one validator for the
  declarative field lists that pydantic interprets (`Schema`). Required and
  optional fields, defaults, `ge`/`gt`/`le` bounds, enum membership and
  nullability are checked. Every failing field is reported.
  `model_dump(exclude_unset=True)` is `Dump`. The shapes are one constant
  each, in `CreditCardModel`, `OfferModel`, `PaymentModel`, `RewardModel`,
  `RefundModel`, `IntegrationModel`, `CustomerModel`, `MerchantModel` and
  `BookingModel`. Lemmas state each shape's required fields, bounds, defaults
  and minimal accepted inputs.
- **The refund, integration and booking tools** (`RefundTools`,
  `IntegrationTools`, `BookingTools`).
  - Each tool builds a `Call`: a verb, an endpoint, an optional query and an
    optional body.
  - `APIClient.Perform` runs the call through the client's wrapper for that
    verb. The tool returns the result unchanged.
  - A tool that takes a request model validates it first. An invalid model
    never reaches the client.
  - The body is the exclude-unset dump (`ToolCalls.SendValidated`). The
    client encodes it as JSON. A dump that sets a datetime field to a value
    makes that encoding raise `TypeError`, and nothing is sent.
  - Endpoints with a path parameter are stated by reading the id back from
    the path (`Endpoints.Unframe`, `Endpoints.UnframeInt`).
  - Integer ids are written in decimal (`Decimal`).

Where the repository's description of the system and its code disagree,
the model follows the code:

- **Object error bodies.** A JSON object error body with neither `error` nor
  `message` gives the detail `HTTP <status>`, not the body text
  (models/base_client.py:42-48).
- **Error message.** The raised message is the detail prefixed with
  `API Error: ` (models/base_client.py:53), not the bare detail.
- **Path parameters.** They are interpolated into the path as they are,
  with no escaping (for example tools/integration_tools.py:44). See the
  finding below.
- **Datetime bodies.** The tools dump their models in pydantic's default
  python mode, which keeps a datetime as a `datetime` object. The client
  passes the dump to httpx as `json=` (models/base_client.py:32-38), and
  `json.dumps` refuses that object. So `modify_booking` raises whenever it
  is given a new booking date (tools/booking_tools.py:19-20). See the
  findings below.
- **Non-object JSON bodies.** A body that is a string, list, number, boolean
  or null follows Python's own `in` and indexing rules. The raw text is used
  where those raise (`PyIn`, `PyIndex`).

## Model

| member | source | states |
|---|---|---|
| BaseClient.APIClient.constructor | models/base_client.py:13-15 | the base URL is the configured `API_BASE_URL` when set, else `http://192.168.86.189:5001`; the timeout is 30 seconds |
| BaseClient.MergeHeaders | models/base_client.py:28-30 | the content type is always present, every caller header is kept and wins over the default, and no other header is added |
| BaseClient.ReadErrorDetail | models/base_client.py:42-51 | the imperative fallback chain (start from `HTTP <status>`, look up `error`, then `message`, fall back to the non-empty text when decoding or a lookup raises) computes exactly `ErrorDetail` |
| BaseClient.APIClient.MakeRequest | models/base_client.py:17-59 | the request sent has the verb, base URL + endpoint, the query and body untouched and the merged headers; the outcome is the server's response normalised: raised from 400 up, else the JSON body or the success envelope |
| BaseClient.APIClient.Get | models/base_client.py:61-63 | a GET of base URL + endpoint with the query, no body, and only the JSON content type |
| BaseClient.APIClient.Post | models/base_client.py:65-67 | a POST of base URL + endpoint with the query and `data` as the body |
| BaseClient.APIClient.Put | models/base_client.py:69-71 | a PUT of base URL + endpoint with the query and `data` as the body |
| BaseClient.APIClient.Delete | models/base_client.py:73-75 | a DELETE of base URL + endpoint with the query and no body |
| BaseClient.APIClient.Perform | models/base_client.py:61-75 | any tool call is sent with its verb, endpoint and query; GET and DELETE never carry a body; the headers are exactly the JSON content type; the tool's result is the client's normalised outcome |
| BaseClient.ErrorMessage | models/base_client.py:53 | the exception text starts with `API Error: ` and continues with the detail as Python prints it |
| BaseClient.RaisesIffClientOrServerError | models/base_client.py:42 | a request raises if and only if the status is 400 or above |
| BaseClient.SuccessBody | models/base_client.py:56-59 | below 400 a decoded body is returned unchanged, and an undecodable one becomes `{"message": "Success", "status_code": status}` |
| BaseClient.ObjectBodyDetail | models/base_client.py:43-48 | for an object body, `error` wins over `message`, `message` is used when only it is present, and `HTTP <status>` otherwise |
| BaseClient.TextBodyDetail | models/base_client.py:49-51 | an undecodable body gives its text when non-empty, else `HTTP <status>` |
| BaseClient.DetailOrigin | models/base_client.py:42-51 | the detail is always the body's `error` or `message` value, the raw text, or `HTTP <status>` |
| BaseClient.NonObjectBodyDetail | models/base_client.py:45-51 | numbers, booleans and null make the lookup raise (raw text); a string mentioning `error` makes the indexing raise (raw text); a list with neither key gives `HTTP <status>` |
| BaseClient.ErrorExamples | models/base_client.py:42-53 | 402 with `{"error": "Card expired"}` raises `API Error: Card expired`; 404 with a message raises that message; 500 with an empty body raises `API Error: HTTP 500` |
| BaseClient.ServerErrorText | models/base_client.py:43 | the fallback detail of a 500 is the text `HTTP 500` |
| JsonValues.ScalarText | models/base_client.py:53 | a string detail prints as itself and None prints as `None` |
| Decimal.NatRoundTrip | tools/refund_tools.py:54 | the decimal text of a natural number interpolated into a path parses back to that number |
| Decimal.IntRoundTrip | tools/refund_tools.py:54 | the decimal text of any integer id, negative ones included, parses back to it |
| Decimal.IntToString | tools/booking_tools.py:30 | the text of an integer starts with `-` exactly when it is negative |
| Endpoints.Unframe | tools/integration_tools.py:44 | when an id is read out of a path, putting it back between the prefix and suffix gives that path |
| Endpoints.UnframeFramed | tools/integration_tools.py:34 | a string id interpolated between a prefix and a suffix is read back exactly |
| Endpoints.UnframeIntFramed | tools/refund_tools.py:68 | an integer id interpolated between a prefix and a suffix is read back exactly |
| Endpoints.FramedInjective | tools/refund_tools.py:82 | within one path template, distinct ids give distinct paths |
| Endpoints.Escape | tools/integration_tools.py:44 | the corrected interpolation: an escaped id contains no `/`, `?` or `#`, so it stays one path segment |
| Endpoints.UnescapeEscape | tools/integration_tools.py:44 | an escaped id is unescaped back to itself |
| Endpoints.EscapeInjective | tools/integration_tools.py:44 | distinct ids escape to distinct segments |
| Enums.EncodingIsInjective | models/enums.py:3-90 | no two members of an enumeration share a wire string |
| Enums.BookingStatusListing | models/enums.py:3-8 | the four booking statuses are listed, each once |
| Enums.BookingStatusRoundTrip | models/enums.py:3-8 | looking up a status's value gives that status back |
| Enums.BookingStatusDecoding | models/enums.py:3-8 | the lookup succeeds exactly on CONFIRMED, CANCELLED, COMPLETED and REFUNDED, and returns the member with that value |
| Enums.BookingStatusEncoding | models/enums.py:3-8 | values and lookup form a bijection between the 4 members and their wire strings |
| Enums.CreditCardProductListing | models/enums.py:10-15 | the four card products are listed, each once |
| Enums.CreditCardProductRoundTrip | models/enums.py:10-15 | looking up a product's value gives that product back |
| Enums.CreditCardProductDecoding | models/enums.py:10-15 | the lookup succeeds exactly on BASIC, SILVER, GOLD and PLATINUM |
| Enums.CreditCardProductEncoding | models/enums.py:10-15 | values and lookup form a bijection between the 4 products and their wire strings |
| Enums.MerchantCategoryListing | models/enums.py:17-39 | the 21 merchant categories are listed, each once |
| Enums.MerchantCategoryRoundTrip | models/enums.py:17-39 | looking up a category's value gives that category back |
| Enums.MerchantCategoryDecoding | models/enums.py:17-39 | the lookup succeeds exactly on the 21 declared values |
| Enums.MerchantCategoryEncoding | models/enums.py:17-39 | values and lookup form a bijection between the 21 categories and their wire strings |
| Enums.OfferCategoryListing | models/enums.py:41-62 | the 20 offer categories are listed, each once |
| Enums.OfferCategoryRoundTrip | models/enums.py:41-62 | looking up a category's value gives that category back |
| Enums.OfferCategoryDecoding | models/enums.py:41-62 | the lookup succeeds exactly on the 20 declared values |
| Enums.OfferCategoryEncoding | models/enums.py:41-62 | values and lookup form a bijection between the 20 categories and their wire strings |
| Enums.PaymentStatusListing | models/enums.py:64-69 | the four payment statuses are listed, each once |
| Enums.PaymentStatusRoundTrip | models/enums.py:64-69 | looking up a status's value gives that status back |
| Enums.PaymentStatusDecoding | models/enums.py:64-69 | the lookup succeeds exactly on PENDING, COMPLETED, FAILED and REFUNDED |
| Enums.PaymentStatusEncoding | models/enums.py:64-69 | values and lookup form a bijection between the 4 statuses and their wire strings |
| Enums.RefundStatusListing | models/enums.py:71-78 | the six refund statuses are listed, each once |
| Enums.RefundStatusRoundTrip | models/enums.py:71-78 | looking up a status's value gives that status back |
| Enums.RefundStatusDecoding | models/enums.py:71-78 | the lookup succeeds exactly on the six declared values |
| Enums.RefundStatusEncoding | models/enums.py:71-78 | values and lookup form a bijection between the 6 statuses and their wire strings |
| Enums.RefundTypeListing | models/enums.py:80-84 | the three refund types are listed, each once |
| Enums.RefundTypeRoundTrip | models/enums.py:80-84 | looking up a type's value gives that type back |
| Enums.RefundTypeDecoding | models/enums.py:80-84 | the lookup succeeds exactly on booking_cancellation, dispute_resolution and goodwill |
| Enums.RefundTypeEncoding | models/enums.py:80-84 | values and lookup form a bijection between the 3 types and their wire strings |
| Enums.RefundTypeLowerCase | models/enums.py:80-84 | unlike the other enumerations, every refund type's value is lower snake case |
| Enums.RewardStatusListing | models/enums.py:86-90 | the three reward statuses are listed, each once |
| Enums.RewardStatusRoundTrip | models/enums.py:86-90 | looking up a status's value gives that status back |
| Enums.RewardStatusDecoding | models/enums.py:86-90 | the lookup succeeds exactly on EARNED, REDEEMED and EXPIRED |
| Enums.RewardStatusEncoding | models/enums.py:86-90 | values and lookup form a bijection between the 3 statuses and their wire strings |
| Schema.Names | models/customer.py:17-24 | the declared names are exactly the names of the fields |
| Schema.SameNames | models/customer.py:26-33 | two field lists with the same names position by position declare the same name set |
| Schema.ShiftedNames | models/merchant.py:20-29 | a field list whose names recur, shifted, in another declares a subset of its names |
| Schema.WithinOne | models/credit_card.py:11 | a field with one bound accepts a number exactly when that bound holds |
| Schema.WithinTwo | models/credit_card.py:8 | a field with two bounds accepts a number exactly when both hold |
| Schema.Dump | tools/refund_tools.py:43 | the exclude-unset dump holds exactly the fields that were set, with their validated values |
| Schema.CoerceIdempotent | models/offer.py:21-33 | validating an already validated field value changes nothing |
| Schema.ValidateOkIff | models/credit_card.py:4-11 | a model is accepted if and only if every field passes its check |
| Schema.ValidateModel | models/offer.py:21-33 | an accepted model has a value for every declared field; the set fields are the supplied declared ones; each value is its field's checked value |
| Schema.ValidateErrors | models/credit_card.py:4-11 | a refused model reports at least one error, an error for every failing field, and no error for a field that passes |
| Schema.SingleFailure | models/credit_card.py:4-11 | when exactly one field fails, the refusal reports exactly that field's error |
| Schema.ValueOf | models/integrations.py:6-10 | a field's value in an accepted model is the result of that field's check |
| Schema.ValidateConforms | models/offer.py:21-33 | an accepted model satisfies every field's kind, nullability, bounds and enum membership |
| Schema.DumpValidated | tools/refund_tools.py:43 | the exclude-unset dump of an accepted model holds exactly the supplied declared fields, each with its validated value |
| Schema.DumpCanonical | tools/booking_tools.py:19 | when the supplied values are already in validated form, the body is the supplied declared fields as given |
| Schema.DumpRoundTrip | models/customer.py:26-33 | validating the dump of a conforming model gives that model back |
| Schema.ReplaceField | models/offer.py:27 | in an accepted model, changing one field is accepted if and only if the new value passes that field's check, and a failure reports that field alone |
| Schema.MissingReported | models/refund.py:8-10 | leaving a required field out is reported as that field missing |
| Schema.RequiredPresent | models/refund.py:8-10 | an accepted model supplied every required field |
| Schema.CanonicalInput | models/offer.py:21-33 | required fields in validated form and nothing undeclared are accepted; the unsupplied fields take their defaults; the dump is the input |
| Schema.EmptyAccepted | models/booking.py:6-10 | a model whose every field has a default accepts the empty input and dumps it as `{}` |
| CreditCardModel.CreditCardCreateWellFormed | models/credit_card.py:4-11 | the card creation fields have distinct names and valid defaults |
| CreditCardModel.CreditCardCreateRequired | models/credit_card.py:6-11 | an accepted card creation supplied all six fields |
| CreditCardModel.ExpiryMonthRange | models/credit_card.py:8 | the expiry month is accepted exactly in 1..12, and any other month is reported against that field alone |
| CreditCardModel.CreditLimitPositive | models/credit_card.py:11 | the credit limit is accepted exactly when strictly positive |
| CreditCardModel.ProductTypeMembership | models/credit_card.py:10 | the product type is accepted exactly when it is a `CreditCardProduct` value, and otherwise reported as not a member |
| CreditCardModel.UncheckedCardFields | models/credit_card.py:6-9 | card number, holder name and expiry year accept any string or integer |
| OfferModel.OfferWellFormed | models/offer.py:5-19 | the offer fields have distinct names |
| OfferModel.OfferCreateWellFormed | models/offer.py:21-33 | the offer creation fields have distinct names and valid defaults |
| OfferModel.OfferCreateDefaultsNone | models/offer.py:24-33 | every optional offer creation field defaults to None |
| OfferModel.OfferCreateMinimal | models/offer.py:21-33 | title, category and the two dates alone are accepted, whatever the dates, and make up the whole exclude-unset dump |
| OfferModel.OfferCreateRequired | models/offer.py:23-32 | an accepted offer creation supplied title, category, start date and expiry date |
| OfferModel.DiscountPercentageRange | models/offer.py:27 | the discount percentage is accepted exactly in [0, 100], None included, and is otherwise reported against that field alone |
| OfferModel.AmountsNonNegative | models/offer.py:28-29 | maximum discount and minimum transaction are accepted exactly when both are non-negative, with no ordering between them |
| OfferModel.RewardPointsNonNegative | models/offer.py:30 | reward points are accepted exactly when non-negative |
| OfferModel.OfferCategoryUnchecked | models/offer.py:25 | the offer category is any string, not an `OfferCategory` value |
| OfferModel.ActivationNeedsCustomer | models/offer.py:35-37 | an activation needs the customer id, and the customer id alone is enough |
| PaymentModel.PaymentWellFormed | models/payment.py:6-16 | the payment fields have distinct names |
| PaymentModel.PaymentCreateWellFormed | models/payment.py:18-24 | the payment creation fields have distinct names and valid defaults |
| PaymentModel.PaymentAmountPositive | models/payment.py:21 | the payment amount is accepted exactly when strictly positive, and 0 or less is reported against it alone |
| PaymentModel.PaymentCreateRequired | models/payment.py:20-22 | an accepted payment supplied card, amount and merchant name |
| PaymentModel.PaymentCategoryUnchecked | models/payment.py:23-24 | the merchant category and description may be None or any string |
| PaymentModel.PaymentStatusMembership | models/payment.py:14 | a stored payment's status is accepted exactly when it is a `PaymentStatus` value |
| PaymentModel.PaymentEntityAmountUnbounded | models/payment.py:10 | the stored payment's amount has no bound |
| RewardModel.RewardWellFormed | models/reward.py:6-19 | the reward fields have distinct names |
| RewardModel.RedeemPointsWellFormed | models/reward.py:21-24 | the redemption fields have distinct names and valid defaults |
| RewardModel.RedeemPointsPositive | models/reward.py:23 | a redemption is accepted exactly for a strictly positive number of points, and sends the points alone |
| RewardModel.RedeemPointsRequired | models/reward.py:23 | an accepted redemption supplied the points |
| RewardModel.RewardStatusMembership | models/reward.py:15 | a reward's status is accepted exactly when it is EARNED, REDEEMED or EXPIRED |
| RewardModel.RewardMinimal | models/reward.py:6-19 | id, customer and status alone make an accepted reward, dumped as those three |
| RewardModel.RewardRequired | models/reward.py:8-15 | an accepted reward supplied its id, customer and status |
| RefundModel.RefundRequestWellFormed | models/refund.py:6-12 | the refund request fields have distinct names and valid defaults |
| RefundModel.PointsRefundWellFormed | models/refund.py:14-18 | the points refund fields have distinct names |
| RefundModel.RefundWellFormed | models/refund.py:29-42 | the refund fields have distinct names |
| RefundModel.RefundAmountPositive | models/refund.py:9 | the refund amount is accepted exactly when strictly positive |
| RefundModel.RefundTypeMembership | models/refund.py:8 | the refund type is accepted exactly when it is one of the three lower-case `RefundType` values |
| RefundModel.RefundRequestRequired | models/refund.py:8-10 | an accepted refund request supplied type, amount and reason |
| RefundModel.RefundRequestMinimal | models/refund.py:6-12 | type, a positive amount and a reason are accepted alone and are all that is sent |
| RefundModel.PointsRefundChecks | models/refund.py:14-18 | a points refund needs customer, points and reason, and is accepted exactly for strictly positive points |
| RefundModel.ApprovalChecks | models/refund.py:20-23 | an approval must say whether it approves; that flag alone is accepted and sent |
| RefundModel.EmptyDenialAccepted | models/refund.py:25-27 | a denial may omit its reason: the empty denial is accepted and sends `{}` |
| RefundModel.RefundStatusMembership | models/refund.py:36 | a refund's status is accepted exactly when it is a `RefundStatus` value |
| IntegrationModel.CardTokenRequestWellFormed | models/integrations.py:6-10 | for any token-type enumeration that has `SINGLE_USE`, the token request fields are distinct and its defaults (single use, 24 hours) pass their own checks |
| IntegrationModel.CardTokenWellFormed | models/integrations.py:12-22 | the token fields have distinct names |
| IntegrationModel.ProductSearchWellFormed | models/integrations.py:30-38 | the product search fields are distinct and the defaults page 1 and 20 per page pass their bounds |
| IntegrationModel.CartItemWellFormed | models/integrations.py:40-44 | the cart item fields are distinct and the default quantity 1 passes its bound |
| IntegrationModel.ExpiresInHoursRange | models/integrations.py:10 | a token lifetime is accepted exactly in 1..8760 hours |
| IntegrationModel.TokenTypeMembership | models/integrations.py:9 | a requested token type is accepted exactly when it is a member of the token-type enumeration, with a single `token_type` error otherwise |
| IntegrationModel.CardTokenRequestRequired | models/integrations.py:8 | an accepted token request supplied the card id |
| IntegrationModel.CardTokenRequestDefaults | models/integrations.py:8-10 | a token request with only the card id takes a single-use type and 24 hours, yet dumps the card id alone |
| IntegrationModel.UsageCountDefault | models/integrations.py:22 | a stored token that omits its usage count has a count of 0 |
| IntegrationModel.ProductSearchDefaults | models/integrations.py:37-38 | the empty search takes page 1 and 20 per page, and dumps as `{}` |
| IntegrationModel.ProductSearchPaging | models/integrations.py:37-38 | the page is accepted from 1 up and the page size exactly in 1..100 |
| IntegrationModel.PriceBoundsIndependent | models/integrations.py:35-36 | the two price bounds are accepted exactly when both are non-negative, with no ordering between them |
| IntegrationModel.CartItemChecks | models/integrations.py:42-44 | a cart item needs customer and product, its quantity defaults to 1 and is accepted exactly from 1 up |
| IntegrationModel.ShoppingOrderChecks | models/integrations.py:48-50 | an order needs customer, shipping address and payment method, and the method is any string |
| CustomerModel.CustomerCreateWellFormed | models/customer.py:17-24 | the customer creation fields have distinct names and valid defaults |
| CustomerModel.CustomerUpdateWellFormed | models/customer.py:26-33 | the customer update fields have distinct names and valid defaults |
| CustomerModel.CustomerCreateRequired | models/customer.py:19-21 | an accepted customer creation supplied first name, last name and email |
| CustomerModel.CustomerCreateMinimal | models/customer.py:17-24 | names and email alone are accepted; phone, birth date and address default to None and are not sent |
| CustomerModel.EmptyUpdateAccepted | models/customer.py:26-33 | the empty customer update is accepted and sends `{}` |
| CustomerModel.UpdateSendsOnlyGiven | models/customer.py:26-33 | an update of the email alone sends the email alone |
| CustomerModel.UpdateNamesMatchCreate | models/customer.py:17-33 | the update declares the same fields as the creation, in the same order |
| CustomerModel.CreateNamesInEntity | models/customer.py:5-24 | the stored customer has every creation field plus its id and the two timestamps |
| MerchantModel.MerchantWellFormed | models/merchant.py:6-18 | the merchant fields have distinct names |
| MerchantModel.MerchantCreateWellFormed | models/merchant.py:20-29 | the merchant registration fields have distinct names and valid defaults |
| MerchantModel.MerchantCreateRequired | models/merchant.py:22-25 | an accepted registration supplied business id, name and category |
| MerchantModel.MerchantCategoryMembership | models/merchant.py:25 | a registration's category is accepted exactly when it is a `MerchantCategory` value |
| MerchantModel.MerchantEntityCategoryFree | models/merchant.py:12 | a stored merchant's category is any string |
| MerchantModel.MerchantRequired | models/merchant.py:8-12 | an accepted stored merchant has id, business id, name and category |
| MerchantModel.MerchantMinimal | models/merchant.py:6-18 | those four fields alone make an accepted merchant, dumped as those four |
| MerchantModel.CreateNamesInEntity | models/merchant.py:6-29 | every registration field is a stored merchant field, which adds id, the active flag and the registration time |
| BookingModel.BookingModificationWellFormed | models/booking.py:6-10 | the modification fields have distinct names and valid defaults |
| BookingModel.BookingStatusWellFormed | models/booking.py:12-17 | the status response fields have distinct names |
| BookingModel.EmptyModificationAccepted | models/booking.py:6-10 | every modification field is optional: the empty modification is accepted and dumps as `{}` |
| BookingModel.BookingStatusRequired | models/booking.py:14-17 | an accepted status response has booking id, status and update time |
| BookingModel.BookingStatusMembership | models/booking.py:15-16 | the status is accepted exactly when it is a `BookingStatus` value, and the details may be None |
| ToolCalls.SendValidated | tools/booking_tools.py:19-20 | an invalid model is refused with its validation errors; a valid model whose dump sets a datetime field to a value raises `Object of type datetime is not JSON serializable`; in both cases nothing is sent; any other is sent with no query and a body of exactly the supplied declared fields, validated; for a shape without datetime fields, sent exactly when valid |
| ToolCalls.SendValidatedJson | tools/booking_tools.py:19-20 | the corrected send with the JSON-mode dump: sent exactly when valid, with the same body; the same call wherever the as-written send succeeds |
| ToolCalls.SendsCanonicalInput | tools/booking_tools.py:19-20 | a model supplied in validated form with declared fields only is sent as given by the corrected send, and by the as-written send exactly when it sets no datetime |
| RefundTools.ListRefunds | tools/refund_tools.py:18-33 | a GET of `/api/refunds` with no body; the query always has page (default 1) and page size (default 10), has the customer, status and type exactly when given (an empty customer id counts as not given), and reads back as the listing asked for |
| RefundTools.SubmitRefundRequest | tools/refund_tools.py:41-44 | accepted exactly when the refund request validates, then a POST of its exclude-unset dump with no query to `/api/refunds/request`; refused with the validation errors otherwise |
| RefundTools.GetRefundDetails | tools/refund_tools.py:52-54 | a GET with no query and no body whose path reads back as the refund id |
| RefundTools.ApproveRefund | tools/refund_tools.py:62-68 | accepted exactly when the approval validates, then a POST of its dump to a path that reads back as the refund id under `/approve` |
| RefundTools.DenyRefund | tools/refund_tools.py:76-82 | accepted exactly when the denial validates, then a POST of its dump to a path that reads back as the refund id under `/deny` |
| RefundTools.RequestPointsRefund | tools/refund_tools.py:90-93 | accepted exactly when the points refund validates, then a POST of its dump with no query to `/api/refunds/points/cancel`; refused with the validation errors otherwise |
| RefundTools.SubmitMinimalRequest | tools/refund_tools.py:41-44 | a request of type, positive amount and reason sends those three, the type as its lower-case value |
| RefundTools.DenyWithoutReason | tools/refund_tools.py:76-82 | an empty denial is sent as `{}` |
| RefundTools.ApproveDenyDistinct | tools/refund_tools.py:68 | approving and denying one refund go to different paths |
| IntegrationTools.CreateCardToken | tools/integration_tools.py:21-24 | for any token-type enumeration, accepted exactly when the token request validates, then a POST of its dump with no query to `/api/tokens/create`; refused with the validation errors otherwise |
| IntegrationTools.CreateTokenOfType | tools/integration_tools.py:21-24 | a request of a card and a token type is sent as given exactly when the type is a member of the enumeration (multi-use and recurring included when they are members); otherwise it is refused with a `token_type` error |
| IntegrationTools.CreateTokenForCardOnly | tools/integration_tools.py:21-24 | a token request of the card id alone sends the card id alone, leaving the defaults to the server |
| IntegrationTools.TokenCall | tools/integration_tools.py:32-54 | validation and deactivation are POSTs, the details a GET, none with a query or a body, each to a path that reads back as the token id |
| IntegrationTools.TokenIdAliasesCardTokens | tools/integration_tools.py:44 | the details of token `card/5/tokens` are a GET of the token list of card 5 |
| IntegrationTools.EscapedTokenCall | tools/integration_tools.py:32-54 | with the id escaped, each token call's path holds the escaped id as one segment, which unescapes back to the token id |
| IntegrationTools.EscapedDetailsNeverAliasCardTokens | tools/integration_tools.py:44 | with the id escaped, no token's details path is a card's token-list path |
| IntegrationTools.ActiveFilter | tools/integration_tools.py:67-69 | the token-listing query is always a dictionary, holding `is_active` with the given value exactly when the filter is not None |
| IntegrationTools.GetCardTokens | tools/integration_tools.py:62-70 | a GET with no body to a path that reads back as the card id; the query is always a dictionary, holding `is_active` exactly when the filter is given |
| IntegrationTools.GetCustomerTokens | tools/integration_tools.py:78-86 | a GET with no body to a path that reads back as the customer id, with the same `is_active` filter |
| IntegrationTools.ForwardOffer | tools/integration_tools.py:95-183 | hotel search and booking, flight search and booking and package search POST the body unchanged with no query, each to a path no other service uses |
| IntegrationTools.OfferPathsDistinct | tools/integration_tools.py:98-183 | the five offer service paths are pairwise distinct |
| IntegrationTools.LookupCall | tools/integration_tools.py:117-257 | the hotel booking, flight booking, product and order lookups are GETs with no query and no body to a path that reads back as the reference |
| IntegrationTools.CatalogueCall | tools/integration_tools.py:127-268 | cities, airports, shopping categories, brands and integration status are GETs with no query and no body, each to a path of its own |
| IntegrationTools.CataloguePathsDistinct | tools/integration_tools.py:129-268 | the five catalogue paths are pairwise distinct |
| IntegrationTools.SearchShoppingProducts | tools/integration_tools.py:192-195 | accepted exactly when the search validates, then a POST of its dump to `/offers/shopping/search` |
| IntegrationTools.AddToShoppingCart | tools/integration_tools.py:233-236 | accepted exactly when the cart item validates, then a POST of its dump to `/offers/shopping/add-to-cart` |
| IntegrationTools.CreateShoppingOrder | tools/integration_tools.py:244-247 | accepted exactly when the order validates, then a POST of its dump to `/offers/shopping/create-order` |
| IntegrationTools.EmptySearchSendsNothing | tools/integration_tools.py:192-195 | an empty product search is sent as `{}`, leaving the paging defaults to the server |
| IntegrationTools.CartQuantityChecked | tools/integration_tools.py:233-236 | a cart item reaches the client exactly when its quantity is at least 1 |
| BookingTools.ModifyBooking | tools/booking_tools.py:14-20 | sent exactly when the modification validates and sets no new booking date other than None, as a PUT of its dump to a path that reads back as the booking id under `/modify`; an invalid one is refused with its validation errors, a dated one raises the datetime `TypeError` |
| BookingTools.DateSerializable | tools/booking_tools.py:19-20 | a valid modification's python-mode dump can be encoded as JSON exactly when it sets no new booking date |
| BookingTools.DateChangeRaises | tools/booking_tools.py:19-20 | any new booking date makes the tool raise the datetime `TypeError` instead of sending the PUT |
| BookingTools.ModifyBookingJson | tools/booking_tools.py:14-20 | the corrected tool with the JSON-mode dump: a PUT of the dump exactly when the modification validates, the same PUT wherever the as-written tool sends one |
| BookingTools.CorrectedDateChangeSent | tools/booking_tools.py:19-20 | with the JSON-mode dump, a new booking date is sent alone, as its text |
| BookingTools.GetBookingStatus | tools/booking_tools.py:28-30 | a GET with no query and no body to a path that reads back as the booking id under `/status` |
| BookingTools.EmptyModificationSent | tools/booking_tools.py:14-20 | a modification that sets nothing is still sent, as `{}` |
| BookingTools.ReasonOnlySent | tools/booking_tools.py:19-20 | setting only the reason sends only the reason, so the unset date and services are not overwritten with None |
| BookingTools.ModifyAndStatusDistinct | tools/booking_tools.py:20-30 | modifying a booking (with the corrected tool) and reading its status use different paths |

## Findings

| source | as written | input that shows it | evidently intended | confidence | as-written member | corrected member |
|---|---|---|---|---|---|---|
| tools/integration_tools.py:44 | the string token id is interpolated into the path as it is | token id `card/5/tokens`: `get_token_details` sends a GET of `/api/tokens/card/5/tokens`, the token list of card 5 | path parameters substituted as one escaped segment | high; not executed | IntegrationTools.TokenIdAliasesCardTokens | IntegrationTools.EscapedDetailsNeverAliasCardTokens |
| tools/booking_tools.py:19-20 | `model_dump(exclude_unset=True)` in python mode keeps `new_booking_date` a `datetime`, which the client passes to httpx as `json=` | `modify_booking(7, {"new_booking_date": "2025-01-01T10:00:00"})`: `json.dumps` raises `TypeError: Object of type datetime is not JSON serializable` before the PUT, so no booking can be moved | `model_dump(mode="json", exclude_unset=True)`, sending the date as ISO text | high; not executed | BookingTools.DateChangeRaises | BookingTools.CorrectedDateChangeSent |

The raw interpolation of the first finding also appears in the other tools
that take a string id: `validate_card_token`, `deactivate_card_token`, the hotel and flight
booking lookups, and the product and order lookups. The tool models
(`TokenCall`, `LookupCall`) keep the code's raw behaviour. `EscapedTokenCall`
is the corrected token call. For the second finding, `ModifyBooking` keeps
the code's behaviour and `ModifyBookingJson` is the corrected tool.

## Left out

- The HTTP transport itself is left out: `httpx.AsyncClient`, `await`, the 30-second timeout, connection and timeout failures, and URL parsing. The server is a function parameter. An empty query dictionary and no query are kept apart, although they put the same URL on the wire.
- Loading `.env` and reading the environment are left out. The configured base URL is a constructor argument.
- The FastMCP wiring is left out: tool names, descriptions, tags and meta, the unused JWT key generation, and the transport choice. tools/__init__.py does not register the refund, integration and booking tools at all.
- The stub tools that return hard-coded placeholders are left out: the customer, merchant, offer, payment, reward, credit-card, profile-history and health tools.
- The tests and demo scripts are left out. They mock the client and assert no behaviour.
- The hotel, flight and travel-package request models are imported but defined nowhere in the repository. Their bodies are forwarded as given (`IntegrationTools.ForwardOffer`).
- `TokenType` is also imported but undefined. Its set of wire strings is a parameter of the token shapes and of `create_card_token`. Only its member `SINGLE_USE`, the declared default, is assumed.
- `TokenValidationResponse`, `IntegrationStatus`, `RefundListResponse`, models/responses.py and models/profile_history.py are left out. They are response containers that no core operation validates.
- Pydantic's lax coercions are left out: a numeric string is not accepted for an int field, and `"true"` is not accepted for a bool. Only an int is accepted for a float field, and only an integral float for an int field.
- Datetime fields accept any string. Their format is not parsed, and no ordering between dates is checked, as in the code. The corrected JSON-mode send (`ToolCalls.SendValidatedJson`, `BookingTools.ModifyBookingJson`) sends the date as the text given, not re-printed in ISO form.
- Floats are modelled as exact reals, so rounding and NaN are not modelled.
- Dictionary key order is left out, since a map has none.
- Header names are compared case-sensitively.
- BaseClient.ErrorMessage: defined only for a detail that is a string, integer, boolean or None. Python's `str()` of a float, list or dict detail is not modelled.
- The upper-snake form of the enumeration values other than the refund types is not stated as a lemma of its own. The values are fixed by the decoding lemmas.
- Python's `1 == True` equality in list membership is not modelled. A list body is searched for the string keys only.
