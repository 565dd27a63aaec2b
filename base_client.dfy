/**
 * The HTTP transport shared by every tool: `APIClient` builds the request
 * (URL, headers, query, JSON body), hands it to the server, and turns the
 * answer into either the decoded JSON body or an `Exception("API Error: ...")`.
 *
 * The network is a parameter: `server` maps the request sent to the response
 * received.  A response carries its status, its raw text and, when the text
 * parses, the decoded JSON.
 */
module BaseClient {

  import opened Wrappers
  import opened JsonValues
  import Decimal

  const DefaultBaseUrl: string := "http://192.168.86.189:5001"
  const DefaultTimeout: real := 30.0

  datatype Verb = GET | POST | PUT | DELETE

  /** What the HTTP library is asked to send. */
  datatype HttpRequest = HttpRequest(
    verb: Verb,
    url: string,
    params: Option<map<string, Json>>,
    body: Option<Json>,
    headers: map<string, string>)

  datatype Response = Response(status: int, text: string, json: Option<Json>)

  /** The method returns a JSON value, or raises with the given error detail. */
  datatype Outcome = Returned(value: Json) | Raised(detail: Json)

  /** A tool's request, before the client adds the base URL and the headers. */
  datatype Call = Call(verb: Verb, endpoint: string, params: Option<map<string, Json>>, data: Option<Json>)

  const DefaultHeaders: map<string, string> := map["Content-Type" := "application/json"]

  /** The headers sent: the JSON content type, overridden by any header of the caller's. */
  function MergeHeaders(headers: Option<map<string, string>>): (h: map<string, string>)
    ensures "Content-Type" in h
    ensures headers.Some? ==> forall k :: k in headers.value ==> k in h && h[k] == headers.value[k]
    ensures (headers.None? || "Content-Type" !in headers.value) ==> h["Content-Type"] == "application/json"
    ensures h.Keys == {"Content-Type"} + (if headers.Some? then headers.value.Keys else {})
  {
    if headers.Some? then DefaultHeaders + headers.value else DefaultHeaders
  }

  function HttpStatusText(status: int): string {
    "HTTP " + Decimal.IntToString(status)
  }

  /** The body returned when a successful response is not JSON. */
  function SuccessEnvelope(status: int): Json {
    JObject(map["message" := JString("Success"), "status_code" := JInt(status)])
  }

  predicate OccursAt(text: string, s: string, i: int) {
    0 <= i <= |text| - |s| && text[i..i + |s|] == s
  }

  /** `s` occurs in `text` as a contiguous substring (Python's `in` on `str`). */
  predicate Contains(text: string, s: string) {
    exists i | 0 <= i <= |text| - |s| :: OccursAt(text, s, i)
  }

  /** Python's `key in data` on a decoded JSON value; `None` when Python raises `TypeError`. */
  function PyIn(key: string, data: Json): Option<bool> {
    match data
    case JObject(fields) => Some(key in fields)
    case JArray(items) => Some(JString(key) in items)
    case JString(s) => Some(Contains(s, key))
    case _ => None
  }

  /** Python's `data[key]`; `None` when Python raises (indexing a list or a string with a string). */
  function PyIndex(data: Json, key: string): Option<Json> {
    match data
    case JObject(fields) => if key in fields then Some(fields[key]) else None
    case _ => None
  }

  /**
   * The error detail, by the shape of the body: an object gives its `error`
   * value, else its `message` value, else `HTTP <status>`; a body that is not
   * JSON, or whose shape makes the lookup raise, gives the raw text when it is
   * non-empty and `HTTP <status>` otherwise.
   */
  function ErrorDetail(r: Response): Json {
    var fallback := JString(HttpStatusText(r.status));
    var textOrFallback := if r.text != "" then JString(r.text) else fallback;
    match r.json
    case None => textOrFallback
    case Some(JObject(fields)) =>
      if "error" in fields then fields["error"]
      else if "message" in fields then fields["message"]
      else fallback
    case Some(JArray(items)) =>
      if JString("error") in items || JString("message") in items then textOrFallback else fallback
    case Some(JString(s)) =>
      if Contains(s, "error") || Contains(s, "message") then textOrFallback else fallback
    case Some(_) => textOrFallback
  }

  /** What a request comes to: an error from 400 up, otherwise the JSON body or the success envelope. */
  function Normalise(r: Response): Outcome {
    if r.status >= 400 then Raised(ErrorDetail(r))
    else Returned(r.json.GetOr(SuccessEnvelope(r.status)))
  }

  /** The text of the raised exception, for a detail Python prints as itself. */
  function ErrorMessage(detail: Json): (msg: string)
    requires IsScalar(detail)
    ensures |msg| >= 11 && msg[..11] == "API Error: "
    ensures msg[11..] == ScalarText(detail)
  {
    "API Error: " + ScalarText(detail)
  }

  /**
   * The error detail as the `try`/`except` of the client computes it: start
   * from `HTTP <status>`, look the keys up in the decoded body, and when the
   * decoding or a lookup raises, fall back to the raw text if it is non-empty.
   */
  method ReadErrorDetail(response: Response) returns (errorDetail: Json)
    ensures errorDetail == ErrorDetail(response)
  {
    errorDetail := JString(HttpStatusText(response.status));
    var raised := false;
    if response.json.None? {
      raised := true;
    } else {
      var errorData := response.json.value;
      var hasError := PyIn("error", errorData);
      if hasError.None? {
        raised := true;
      } else if hasError.value {
        var v := PyIndex(errorData, "error");
        if v.None? {
          raised := true;
        } else {
          errorDetail := v.value;
        }
      } else {
        var hasMessage := PyIn("message", errorData);
        if hasMessage.None? {
          raised := true;
        } else if hasMessage.value {
          var v := PyIndex(errorData, "message");
          if v.None? {
            raised := true;
          } else {
            errorDetail := v.value;
          }
        }
      }
    }
    if raised && response.text != "" {
      errorDetail := JString(response.text);
    }
  }

  class APIClient {
    var baseUrl: string
    var timeout: real

    /** `configured` is the value of `API_BASE_URL` in the environment, if it is set. */
    constructor(configured: Option<string>)
      ensures baseUrl == configured.GetOr(DefaultBaseUrl)
      ensures timeout == DefaultTimeout
    {
      baseUrl := configured.GetOr(DefaultBaseUrl);
      timeout := DefaultTimeout;
    }

    /**
     * Sends one request and normalises the answer.  The URL is the base URL
     * followed by the endpoint, with no separator added; the query and body
     * are passed through untouched.
     */
    method MakeRequest(verb: Verb, endpoint: string, params: Option<map<string, Json>>, jsonData: Option<Json>,
                       headers: Option<map<string, string>>, server: HttpRequest -> Response)
      returns (sent: HttpRequest, outcome: Outcome)
      ensures sent == HttpRequest(verb, baseUrl + endpoint, params, jsonData, MergeHeaders(headers))
      ensures outcome == Normalise(server(sent))
    {
      var url := baseUrl + endpoint;
      var defaultHeaders := DefaultHeaders;
      if headers.Some? && |headers.value| > 0 {
        defaultHeaders := defaultHeaders + headers.value;
      }
      assert defaultHeaders == MergeHeaders(headers) by {
        if headers.Some? && |headers.value| == 0 {
          assert headers.value == map[];
        }
      }
      sent := HttpRequest(verb, url, params, jsonData, defaultHeaders);
      var response := server(sent);

      if response.status >= 400 {
        var errorDetail := ReadErrorDetail(response);
        outcome := Raised(errorDetail);
        assert outcome == Normalise(response);
      } else if response.json.Some? {
        outcome := Returned(response.json.value);
        assert outcome == Normalise(response);
      } else {
        outcome := Returned(SuccessEnvelope(response.status));
        assert outcome == Normalise(response);
      }
    }

    /** GET sends no body. */
    method Get(endpoint: string, params: Option<map<string, Json>>, server: HttpRequest -> Response)
      returns (sent: HttpRequest, outcome: Outcome)
      ensures sent == HttpRequest(GET, baseUrl + endpoint, params, None, DefaultHeaders)
      ensures outcome == Normalise(server(sent))
    {
      sent, outcome := MakeRequest(GET, endpoint, params, None, None, server);
    }

    /** POST sends `data` as the JSON body. */
    method Post(endpoint: string, data: Option<Json>, params: Option<map<string, Json>>, server: HttpRequest -> Response)
      returns (sent: HttpRequest, outcome: Outcome)
      ensures sent == HttpRequest(POST, baseUrl + endpoint, params, data, DefaultHeaders)
      ensures outcome == Normalise(server(sent))
    {
      sent, outcome := MakeRequest(POST, endpoint, params, data, None, server);
    }

    /** PUT sends `data` as the JSON body. */
    method Put(endpoint: string, data: Option<Json>, params: Option<map<string, Json>>, server: HttpRequest -> Response)
      returns (sent: HttpRequest, outcome: Outcome)
      ensures sent == HttpRequest(PUT, baseUrl + endpoint, params, data, DefaultHeaders)
      ensures outcome == Normalise(server(sent))
    {
      sent, outcome := MakeRequest(PUT, endpoint, params, data, None, server);
    }

    /** DELETE sends no body. */
    method Delete(endpoint: string, params: Option<map<string, Json>>, server: HttpRequest -> Response)
      returns (sent: HttpRequest, outcome: Outcome)
      ensures sent == HttpRequest(DELETE, baseUrl + endpoint, params, None, DefaultHeaders)
      ensures outcome == Normalise(server(sent))
    {
      sent, outcome := MakeRequest(DELETE, endpoint, params, None, None, server);
    }

    /**
     * Runs a tool's call through the wrapper for its verb, and returns the
     * client's result unchanged.  GET and DELETE drop any body.
     */
    method Perform(call: Call, server: HttpRequest -> Response)
      returns (sent: HttpRequest, outcome: Outcome)
      ensures sent.verb == call.verb && sent.url == baseUrl + call.endpoint && sent.params == call.params
      ensures sent.body == (if call.verb == GET || call.verb == DELETE then None else call.data)
      ensures sent.headers == map["Content-Type" := "application/json"]
      ensures outcome == Normalise(server(sent))
    {
      match call.verb
      case GET => sent, outcome := Get(call.endpoint, call.params, server);
      case POST => sent, outcome := Post(call.endpoint, call.data, call.params, server);
      case PUT => sent, outcome := Put(call.endpoint, call.data, call.params, server);
      case DELETE => sent, outcome := Delete(call.endpoint, call.params, server);
    }
  }

  // ---------------------------------------------------------------------------
  // Properties of the outcome
  // ---------------------------------------------------------------------------

  /** A request raises exactly when the status is 400 or above; below that it always returns. */
  lemma RaisesIffClientOrServerError(r: Response)
    ensures Normalise(r).Raised? <==> r.status >= 400
    ensures Normalise(r).Returned? <==> r.status < 400
  {
  }

  /** On success the decoded JSON comes back unchanged; a body that is not JSON becomes the success envelope. */
  lemma SuccessBody(r: Response)
    requires r.status < 400
    ensures r.json.Some? ==> Normalise(r) == Returned(r.json.value)
    ensures r.json.None? ==> Normalise(r).value.JObject?
    ensures r.json.None? ==> Normalise(r).value.fields == map["message" := JString("Success"), "status_code" := JInt(r.status)]
  {
  }

  /**
   * For a JSON object body, the detail is its `error` value when it has one,
   * even if it also has `message`; its `message` value when only that is
   * present; and `HTTP <status>` otherwise, whatever the raw text says.
   */
  lemma ObjectBodyDetail(r: Response, fields: map<string, Json>)
    requires r.json == Some(JObject(fields))
    ensures "error" in fields ==> ErrorDetail(r) == fields["error"]
    ensures "error" !in fields && "message" in fields ==> ErrorDetail(r) == fields["message"]
    ensures "error" !in fields && "message" !in fields ==> ErrorDetail(r) == JString("HTTP " + Decimal.IntToString(r.status))
  {
  }

  /** A body that is not JSON gives its text as the detail when non-empty, `HTTP <status>` otherwise. */
  lemma TextBodyDetail(r: Response)
    requires r.json.None?
    ensures r.text != "" ==> ErrorDetail(r) == JString(r.text)
    ensures r.text == "" ==> ErrorDetail(r) == JString("HTTP " + Decimal.IntToString(r.status))
  {
  }

  /**
   * The detail always comes from the body or the status: one of the body's
   * `error` or `message` values, its raw text, or `HTTP <status>`.
   */
  lemma DetailOrigin(r: Response)
    ensures || ErrorDetail(r) == JString(HttpStatusText(r.status))
            || (r.text != "" && ErrorDetail(r) == JString(r.text))
            || (r.json.Some? && r.json.value.JObject? && "error" in r.json.value.fields
                && ErrorDetail(r) == r.json.value.fields["error"])
            || (r.json.Some? && r.json.value.JObject? && "message" in r.json.value.fields
                && ErrorDetail(r) == r.json.value.fields["message"])
  {
  }

  /**
   * A JSON body that is not an object: a number, a boolean or null makes
   * Python's `in` raise, and a string or list that mentions `error` makes the
   * indexing raise, so the raw text is the detail; a list that mentions
   * neither key gives `HTTP <status>`.
   */
  lemma NonObjectBodyDetail(r: Response)
    requires r.json.Some? && !r.json.value.JObject?
    ensures (r.json.value.JInt? || r.json.value.JFloat? || r.json.value.JBool? || r.json.value.JNull?) && r.text != "" ==>
              ErrorDetail(r) == JString(r.text)
    ensures r.json.value.JString? && Contains(r.json.value.s, "error") && r.text != "" ==>
              ErrorDetail(r) == JString(r.text)
    ensures r.json.value.JArray? && JString("error") !in r.json.value.items && JString("message") !in r.json.value.items ==>
              ErrorDetail(r) == JString(HttpStatusText(r.status))
  {
  }

  /** The three error examples: a card decline, a missing resource, a server error with an empty body. */
  lemma ErrorExamples()
    ensures Normalise(Response(402, "{\"error\": \"Card expired\"}", Some(JObject(map["error" := JString("Card expired")]))))
            == Raised(JString("Card expired"))
    ensures ErrorMessage(JString("Card expired")) == "API Error: Card expired"
    ensures Normalise(Response(404, "{\"message\": \"Not found\"}", Some(JObject(map["message" := JString("Not found")]))))
            == Raised(JString("Not found"))
    ensures Normalise(Response(500, "", None)) == Raised(JString("HTTP 500"))
    ensures ErrorMessage(JString("HTTP 500")) == "API Error: HTTP 500"
  {
    ServerErrorText();
    assert ErrorDetail(Response(500, "", None)) == JString("HTTP 500");
  }

  /** The fallback detail of a 500. */
  lemma ServerErrorText()
    ensures HttpStatusText(500) == "HTTP 500"
  {
    assert Decimal.NatToString(5) == "5";
    assert Decimal.NatToString(50) == "50";
    assert Decimal.NatToString(500) == "500";
    assert Decimal.IntToString(500) == "500";
  }
}
