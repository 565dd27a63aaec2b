/**
 * What every tool that takes a request model does before the client sends
 * anything: the argument is validated against its model, the body is the
 * model's `model_dump(exclude_unset=True)`, and the client encodes that body
 * as JSON.  Either step can raise, and then nothing is sent.
 */
module ToolCalls {

  import opened Wrappers
  import opened JsonValues
  import opened Schema
  import opened BaseClient

  /** Why a tool raises before its request is sent. */
  datatype Refusal =
    | Invalid(errors: seq<FieldError>)   // the argument fails its model: a `ValidationError`
    | NotSerializable(message: string)   // the body is not JSON: the `TypeError` of `json.dumps`

  const DateTimeNotSerializable: string := "Object of type datetime is not JSON serializable"

  /**
   * A dump the client can encode.  `model_dump()` in its default python mode
   * keeps a datetime field as a `datetime` object, which `json.dumps` refuses;
   * strings, numbers, booleans, the `str` enumerations, lists, dictionaries
   * and None it encodes.
   */
  predicate Serializable(s: Schema, body: map<string, Json>) {
    forall i :: 0 <= i < |s| && s[i].kind == DateTime && s[i].name in body ==> body[s[i].name].JNull?
  }

  predicate NoDateTime(s: Schema) {
    forall i :: 0 <= i < |s| ==> s[i].kind != DateTime
  }

  /**
   * The send as the tools write it.  An invalid argument is refused with its
   * validation errors.  A valid one whose dump sets a datetime field to a
   * value raises the encoder's `TypeError`.  Any other is sent with no query,
   * and its body holds exactly the declared fields the caller supplied, each
   * with its validated value.
   */
  function SendValidated(verb: Verb, endpoint: string, s: Schema, input: map<string, Json>): (r: Result<Call, Refusal>)
    requires DistinctNames(s)
    ensures r.Ok? <==> Validate(s, input).Ok? && Serializable(s, Dump(Validate(s, input).value))
    ensures NoDateTime(s) ==> (r.Ok? <==> Validate(s, input).Ok?)
    ensures Validate(s, input).Err? ==> r == Err(Invalid(Validate(s, input).error)) && |r.error.errors| > 0
    ensures Validate(s, input).Ok? && r.Err? ==> r.error == NotSerializable(DateTimeNotSerializable)
    ensures r.Ok? ==> r.value.verb == verb && r.value.endpoint == endpoint && r.value.params.None?
    ensures r.Ok? ==> r.value.data.Some? && r.value.data.value.JObject?
    ensures r.Ok? ==> r.value.data.value.fields.Keys == input.Keys * Names(s)
    ensures r.Ok? ==> forall i :: 0 <= i < |s| && s[i].name in input ==>
                        Coerce(s[i], input[s[i].name]) == Ok(r.value.data.value.fields[s[i].name])
  {
    match Validate(s, input)
    case Err(errors) =>
      ValidateErrors(s, input);
      Err(Invalid(errors))
    case Ok(model) =>
      DumpValidated(s, input);
      if Serializable(s, Dump(model)) then Ok(Call(verb, endpoint, None, Some(JObject(Dump(model)))))
      else Err(NotSerializable(DateTimeNotSerializable))
  }

  /**
   * The corrected send, dumping with `model_dump(mode="json", exclude_unset=True)`:
   * a datetime becomes its ISO text, so every valid argument is sent, and
   * wherever the tools' own send succeeds the two make the same call.
   */
  function SendValidatedJson(verb: Verb, endpoint: string, s: Schema, input: map<string, Json>): (r: Result<Call, Refusal>)
    requires DistinctNames(s)
    ensures r.Ok? <==> Validate(s, input).Ok?
    ensures r.Err? ==> r.error == Invalid(Validate(s, input).error)
    ensures SendValidated(verb, endpoint, s, input).Ok? ==> r == SendValidated(verb, endpoint, s, input)
    ensures r.Ok? ==> r.value.verb == verb && r.value.endpoint == endpoint && r.value.params.None?
    ensures r.Ok? ==> r.value.data.Some? && r.value.data.value.JObject?
    ensures r.Ok? ==> r.value.data.value.fields.Keys == input.Keys * Names(s)
    ensures r.Ok? ==> forall i :: 0 <= i < |s| && s[i].name in input ==>
                        Coerce(s[i], input[s[i].name]) == Ok(r.value.data.value.fields[s[i].name])
  {
    match Validate(s, input)
    case Err(errors) => Err(Invalid(errors))
    case Ok(model) =>
      DumpValidated(s, input);
      Ok(Call(verb, endpoint, None, Some(JObject(Dump(model)))))
  }

  /** The body of an accepted call. */
  function Body(r: Result<Call, Refusal>): map<string, Json>
    requires r.Ok? && r.value.data.Some? && r.value.data.value.JObject?
  {
    r.value.data.value.fields
  }

  /**
   * When every supplied value is already in its validated form and only
   * declared fields are supplied, the corrected send sends the argument
   * itself, and the tools' own send does so exactly when no datetime is set.
   */
  lemma SendsCanonicalInput(verb: Verb, endpoint: string, s: Schema, input: map<string, Json>)
    requires DistinctNames(s)
    requires Validate(s, input).Ok?
    requires input.Keys <= Names(s)
    requires forall i :: 0 <= i < |s| && s[i].name in input ==> Coerce(s[i], input[s[i].name]) == Ok(input[s[i].name])
    ensures SendValidatedJson(verb, endpoint, s, input).Ok?
    ensures Body(SendValidatedJson(verb, endpoint, s, input)) == input
    ensures SendValidated(verb, endpoint, s, input).Ok? <==> Serializable(s, input)
  {
    DumpCanonical(s, input);
    var body := Dump(Validate(s, input).value);
    assert body == input;
    assert SendValidatedJson(verb, endpoint, s, input) == Ok(Call(verb, endpoint, None, Some(JObject(body))));
  }
}
