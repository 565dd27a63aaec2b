/**
 * The schema library: what a pydantic `BaseModel` subclass does with the field
 * declarations `name: T = Field(default, ge=.., gt=.., le=..)`.
 *
 * A shape is a list of field specifications.  `Validate` builds a model from a
 * mapping of field names to JSON values (required fields present, values of the
 * declared type, numeric bounds, enum membership) and reports every failing
 * field.  A model remembers which fields the caller supplied (`fieldsSet`), and
 * `Dump` is `model_dump(exclude_unset=True)`: the supplied fields only, never
 * the declared defaults.
 */
module Schema {

  import opened Wrappers
  import opened JsonValues

  /** The declared Python type of a field (`Optional[...]` is `nullable`). */
  datatype Kind =
    | Str
    | Int
    | Float
    | Bool
    | DateTime
    | Dict
    | StrList
    | Enum(wires: set<string>)

  /** The numeric bounds `ge`, `gt` and `le` of `Field(...)`. */
  datatype Constraint = Ge(bound: real) | Gt(bound: real) | Le(bound: real)

  /** `Field(...)` (required) or `Field(default)`. */
  datatype Presence = Required | Default(value: Json)

  datatype FieldSpec = FieldSpec(name: string, kind: Kind, nullable: bool, presence: Presence, constraints: seq<Constraint>)

  type Schema = seq<FieldSpec>

  /** One entry of a pydantic `ValidationError`: the field and the rule it broke. */
  datatype FieldError =
    | Missing(field: string)
    | WrongType(field: string)
    | NotAMember(field: string)
    | OutOfRange(field: string)

  /** A validated instance: a value for every declared field, and the fields the caller supplied. */
  datatype Model = Model(values: map<string, Json>, fieldsSet: set<string>)

  /** `name: T = Field(..., bounds)` */
  function Req(name: string, kind: Kind, constraints: seq<Constraint> := []): FieldSpec {
    FieldSpec(name, kind, false, Required, constraints)
  }

  /** `name: Optional[T] = Field(None, bounds)` */
  function Opt(name: string, kind: Kind, constraints: seq<Constraint> := []): FieldSpec {
    FieldSpec(name, kind, true, Default(JNull), constraints)
  }

  /** `name: T = Field(default, bounds)` */
  function Def(name: string, kind: Kind, default: Json, constraints: seq<Constraint> := []): FieldSpec {
    FieldSpec(name, kind, false, Default(default), constraints)
  }

  function Names(s: Schema): (r: set<string>)
    ensures forall i :: 0 <= i < |s| ==> s[i].name in r
    ensures forall k :: k in r ==> exists i :: 0 <= i < |s| && s[i].name == k
  {
    if s == [] then {} else {s[0].name} + Names(s[1..])
  }

  /** Two shapes that declare the same names in the same order have the same name set. */
  lemma SameNames(s: Schema, t: Schema)
    requires |s| == |t|
    requires forall i :: 0 <= i < |s| ==> s[i].name == t[i].name
    ensures Names(s) == Names(t)
  {
    forall k | k in Names(s) ensures k in Names(t) {
      var i :| 0 <= i < |s| && s[i].name == k;
    }
    forall k | k in Names(t) ensures k in Names(s) {
      var i :| 0 <= i < |t| && t[i].name == k;
    }
  }

  /** A shape whose names reappear in `t` from position `offset` on has its names among `t`'s. */
  lemma ShiftedNames(s: Schema, t: Schema, offset: nat)
    requires |s| + offset <= |t|
    requires forall i :: 0 <= i < |s| ==> s[i].name == t[i + offset].name
    ensures Names(s) <= Names(t)
  {
    forall k | k in Names(s) ensures k in Names(t) {
      var i :| 0 <= i < |s| && s[i].name == k;
      assert t[i + offset].name == k;
    }
  }

  predicate DistinctNames(s: Schema) {
    forall i, j :: 0 <= i < j < |s| ==> s[i].name != s[j].name
  }

  /** Conversion of a non-null JSON value to the declared type; `None` is a type error. */
  function Convert(kind: Kind, v: Json): Option<Json> {
    match kind
    case Str => if v.JString? then Some(v) else None
    case Int =>
      if v.JInt? then Some(v)
      else if v.JFloat? && v.r.Floor as real == v.r then Some(JInt(v.r.Floor))
      else None
    case Float =>
      if v.JFloat? then Some(v)
      else if v.JInt? then Some(JFloat(v.i as real))
      else None
    case Bool => if v.JBool? then Some(v) else None
    case DateTime => if v.JString? then Some(v) else None
    case Dict => if v.JObject? then Some(v) else None
    case StrList =>
      if v.JArray? && forall k :: 0 <= k < |v.items| ==> v.items[k].JString? then Some(v) else None
    case Enum(wires) => if v.JString? && v.s in wires then Some(v) else None
  }

  function Number(v: Json): real {
    match v
    case JInt(i) => i as real
    case JFloat(r) => r
    case _ => 0.0
  }

  predicate Holds(c: Constraint, x: real) {
    match c
    case Ge(b) => x >= b
    case Gt(b) => x > b
    case Le(b) => x <= b
  }

  /** The numeric value satisfies every bound of the field. */
  predicate Within(x: real, cs: seq<Constraint>) {
    cs == [] || (Holds(cs[0], x) && Within(x, cs[1..]))
  }

  lemma WithinOne(x: real, c: Constraint)
    ensures Within(x, [c]) <==> Holds(c, x)
  {
    assert [c][1..] == [];
  }

  lemma WithinTwo(x: real, c: Constraint, d: Constraint)
    ensures Within(x, [c, d]) <==> Holds(c, x) && Holds(d, x)
  {
    assert [c, d][1..] == [d];
    WithinOne(x, d);
  }

  /** Validation of one supplied value: null only where `Optional`, then the type, then the bounds. */
  function Coerce(f: FieldSpec, v: Json): Result<Json, FieldError> {
    if v.JNull? then
      if f.nullable then Ok(JNull) else Err(WrongType(f.name))
    else if f.kind.Enum? && v.JString? && v.s !in f.kind.wires then
      Err(NotAMember(f.name))
    else
      match Convert(f.kind, v)
      case None => Err(WrongType(f.name))
      case Some(c) => if Within(Number(c), f.constraints) then Ok(c) else Err(OutOfRange(f.name))
  }

  /** The value a field takes: the supplied one, validated, or else its default. */
  function CheckField(f: FieldSpec, input: map<string, Json>): Result<Json, FieldError> {
    if f.name in input then Coerce(f, input[f.name])
    else
      match f.presence
      case Required => Err(Missing(f.name))
      case Default(d) => Ok(d)
  }

  /** Building a model from a mapping; undeclared keys are ignored, as pydantic does by default. */
  function Validate(s: Schema, input: map<string, Json>): Result<Model, seq<FieldError>> {
    if s == [] then Ok(Model(map[], {}))
    else
      var head := CheckField(s[0], input);
      var rest := Validate(s[1..], input);
      if head.Ok? && rest.Ok? then
        Ok(Model(rest.value.values[s[0].name := head.value],
                 if s[0].name in input then {s[0].name} + rest.value.fieldsSet else rest.value.fieldsSet))
      else
        Err((if head.Err? then [head.error] else []) + (if rest.Err? then rest.error else []))
  }

  /** `model_dump(exclude_unset=True)` */
  function Dump(m: Model): (body: map<string, Json>)
    ensures body.Keys == m.fieldsSet * m.values.Keys
    ensures forall k :: k in body ==> body[k] == m.values[k]
  {
    map k | k in m.fieldsSet && k in m.values :: m.values[k]
  }

  /** A shape is well formed when its field names are distinct and its defaults pass its own checks. */
  predicate WellFormed(s: Schema) {
    DistinctNames(s) && DefaultsValid(s)
  }

  predicate DefaultsValid(s: Schema) {
    forall i :: 0 <= i < |s| && s[i].presence.Default? ==>
      Coerce(s[i], s[i].presence.value) == Ok(s[i].presence.value)
  }

  predicate FieldConforms(f: FieldSpec, m: Model) {
    && f.name in m.values
    && if f.name in m.fieldsSet then Coerce(f, m.values[f.name]) == Ok(m.values[f.name])
       else f.presence == Default(m.values[f.name])
  }

  /**
   * The invariant of a model of shape `s`: every declared field has a value, a
   * supplied value is one validation leaves as it is, an unsupplied one is the
   * declared default.
   */
  predicate Conforms(s: Schema, m: Model) {
    && m.values.Keys == Names(s)
    && m.fieldsSet <= Names(s)
    && forall i :: 0 <= i < |s| ==> FieldConforms(s[i], m)
  }

  // ---------------------------------------------------------------------------
  // Properties of validation
  // ---------------------------------------------------------------------------

  /** Validating an already validated value changes nothing (enum strings are not encoded twice). */
  lemma CoerceIdempotent(f: FieldSpec, v: Json)
    requires Coerce(f, v).Ok?
    ensures Coerce(f, Coerce(f, v).value) == Coerce(f, v)
  {
    var c := Coerce(f, v).value;
    if !v.JNull? {
      assert Convert(f.kind, v) == Some(c);
      assert Number(c) == Number(v);
    }
  }

  /** A model is built exactly when every declared field passes. */
  lemma {:induction false} ValidateOkIff(s: Schema, input: map<string, Json>)
    ensures Validate(s, input).Ok? <==> forall i :: 0 <= i < |s| ==> CheckField(s[i], input).Ok?
  {
    if s != [] {
      ValidateOkIff(s[1..], input);
      assert forall i :: 1 <= i < |s| ==> s[1..][i - 1] == s[i];
    }
  }

  /** The model holds each field's checked value, and the supplied fields are the declared keys of the input. */
  lemma {:induction false} ValidateModel(s: Schema, input: map<string, Json>)
    requires DistinctNames(s)
    requires Validate(s, input).Ok?
    ensures Validate(s, input).value.values.Keys == Names(s)
    ensures Validate(s, input).value.fieldsSet == Names(s) * input.Keys
    ensures forall i :: 0 <= i < |s| ==>
              CheckField(s[i], input) == Ok(Validate(s, input).value.values[s[i].name])
  {
    if s != [] {
      assert DistinctNames(s[1..]) by {
        forall i, j | 0 <= i < j < |s[1..]| ensures s[1..][i].name != s[1..][j].name {
          assert s[1..][i] == s[i + 1] && s[1..][j] == s[j + 1];
        }
      }
      ValidateModel(s[1..], input);
      var m, rest := Validate(s, input).value, Validate(s[1..], input).value;
      assert m.values == rest.values[s[0].name := CheckField(s[0], input).value];
      assert Names(s) == {s[0].name} + Names(s[1..]);
      forall i | 1 <= i < |s|
        ensures CheckField(s[i], input) == Ok(m.values[s[i].name])
      {
        assert s[1..][i - 1] == s[i];
        assert s[i].name != s[0].name;
      }
    }
  }

  /** Validation fails with one error per failing field, and with no other. */
  lemma {:induction false} ValidateErrors(s: Schema, input: map<string, Json>)
    requires Validate(s, input).Err?
    ensures |Validate(s, input).error| > 0
    ensures forall i :: 0 <= i < |s| && CheckField(s[i], input).Err? ==>
              CheckField(s[i], input).error in Validate(s, input).error
    ensures forall e :: e in Validate(s, input).error ==>
              exists i :: 0 <= i < |s| && CheckField(s[i], input) == Err(e)
  {
    var head := CheckField(s[0], input);
    var rest := Validate(s[1..], input);
    if rest.Err? {
      ValidateErrors(s[1..], input);
    }
    forall i | 1 <= i < |s| ensures s[1..][i - 1] == s[i] {}
    forall i | 0 <= i < |s| && CheckField(s[i], input).Err?
      ensures CheckField(s[i], input).error in Validate(s, input).error
    {
      if i > 0 {
        assert CheckField(s[1..][i - 1], input).Err?;
        ValidateOkIff(s[1..], input);
      }
    }
    forall e | e in Validate(s, input).error
      ensures exists i :: 0 <= i < |s| && CheckField(s[i], input) == Err(e)
    {
      if head.Err? && e == head.error {
        assert CheckField(s[0], input) == Err(e);
      } else {
        var i :| 0 <= i < |s[1..]| && CheckField(s[1..][i], input) == Err(e);
        assert CheckField(s[i + 1], input) == Err(e);
      }
    }
  }

  /** When only field `k` fails, the error list is that field's error alone. */
  lemma {:induction false} SingleFailure(s: Schema, input: map<string, Json>, k: nat)
    requires k < |s|
    requires CheckField(s[k], input).Err?
    requires forall i :: 0 <= i < |s| && i != k ==> CheckField(s[i], input).Ok?
    ensures Validate(s, input) == Err([CheckField(s[k], input).error])
  {
    forall i | 1 <= i < |s| ensures s[1..][i - 1] == s[i] {}
    if k == 0 {
      assert forall i :: 0 <= i < |s[1..]| ==> CheckField(s[1..][i], input).Ok?;
      ValidateOkIff(s[1..], input);
      assert Validate(s[1..], input).Ok?;
      var e := CheckField(s[0], input).error;
      assert Validate(s, input) == Err([e] + []);
      assert [e] + [] == [e];
    } else {
      assert s[1..][k - 1] == s[k];
      SingleFailure(s[1..], input, k - 1);
      var e := CheckField(s[k], input).error;
      assert CheckField(s[0], input).Ok?;
      assert Validate(s, input) == Err([] + [e]);
      assert [] + [e] == [e];
    }
  }

  /** The value the model gives field `k`: the supplied value validated, or else the default. */
  lemma ValueOf(s: Schema, input: map<string, Json>, k: nat)
    requires DistinctNames(s)
    requires k < |s|
    requires Validate(s, input).Ok?
    ensures s[k].name in Validate(s, input).value.values
    ensures CheckField(s[k], input) == Ok(Validate(s, input).value.values[s[k].name])
  {
    ValidateModel(s, input);
  }

  /** A model validated from `input` conforms to its shape. */
  lemma ValidateConforms(s: Schema, input: map<string, Json>)
    requires WellFormed(s)
    requires Validate(s, input).Ok?
    ensures Conforms(s, Validate(s, input).value)
  {
    ValidateModel(s, input);
    var m := Validate(s, input).value;
    forall i | 0 <= i < |s| ensures FieldConforms(s[i], m) {
      if s[i].name in input {
        CoerceIdempotent(s[i], input[s[i].name]);
      }
    }
  }

  /**
   * Partial-update semantics: the dumped body holds exactly the declared fields
   * the caller supplied, each with its validated value.
   */
  lemma DumpValidated(s: Schema, input: map<string, Json>)
    requires DistinctNames(s)
    requires Validate(s, input).Ok?
    ensures Dump(Validate(s, input).value).Keys == input.Keys * Names(s)
    ensures forall i :: 0 <= i < |s| && s[i].name in input ==>
              Coerce(s[i], input[s[i].name]) == Ok(Dump(Validate(s, input).value)[s[i].name])
  {
    ValidateModel(s, input);
  }

  /** When the supplied values are already in validated form the body is the input minus undeclared keys. */
  lemma DumpCanonical(s: Schema, input: map<string, Json>)
    requires DistinctNames(s)
    requires Validate(s, input).Ok?
    requires forall i :: 0 <= i < |s| && s[i].name in input ==>
               Coerce(s[i], input[s[i].name]) == Ok(input[s[i].name])
    ensures Dump(Validate(s, input).value) == map k | k in input && k in Names(s) :: input[k]
  {
    DumpValidated(s, input);
    var body := Dump(Validate(s, input).value);
    forall k | k in body ensures body[k] == input[k] {
      var i :| 0 <= i < |s| && s[i].name == k;
    }
  }

  /** Round trip: re-validating the dumped body of a conforming model gives the model back. */
  lemma DumpRoundTrip(s: Schema, m: Model)
    requires DistinctNames(s)
    requires Conforms(s, m)
    ensures Validate(s, Dump(m)) == Ok(m)
  {
    var body := Dump(m);
    forall i | 0 <= i < |s| ensures CheckField(s[i], body) == Ok(m.values[s[i].name]) {
      assert FieldConforms(s[i], m);
    }
    ValidateOkIff(s, body);
    ValidateModel(s, body);
    var m' := Validate(s, body).value;
    forall k | k in m.values ensures k in m'.values && m'.values[k] == m.values[k] {
      var i :| 0 <= i < |s| && s[i].name == k;
    }
    assert m'.values == m.values;
    assert m'.fieldsSet == m.fieldsSet;
  }

  /**
   * Changing one field of an accepted input keeps it accepted exactly when the
   * new value passes that field's own check; otherwise the only error is that
   * field's.
   */
  lemma ReplaceField(s: Schema, input: map<string, Json>, k: nat, v: Json)
    requires DistinctNames(s)
    requires k < |s|
    requires Validate(s, input).Ok?
    ensures Validate(s, input[s[k].name := v]).Ok? <==> Coerce(s[k], v).Ok?
    ensures Coerce(s[k], v).Err? ==> Validate(s, input[s[k].name := v]) == Err([Coerce(s[k], v).error])
  {
    var input' := input[s[k].name := v];
    ValidateOkIff(s, input);
    forall i | 0 <= i < |s| && i != k ensures CheckField(s[i], input') == CheckField(s[i], input) {
      assert s[i].name != s[k].name;
    }
    assert CheckField(s[k], input') == Coerce(s[k], v);
    ValidateOkIff(s, input');
    if Coerce(s[k], v).Err? {
      SingleFailure(s, input', k);
    }
  }

  /** A required field that is not supplied is reported by name. */
  lemma MissingReported(s: Schema, input: map<string, Json>, k: nat)
    requires k < |s|
    requires s[k].presence.Required?
    requires s[k].name !in input
    ensures Validate(s, input).Err?
    ensures Missing(s[k].name) in Validate(s, input).error
  {
    ValidateOkIff(s, input);
    ValidateErrors(s, input);
  }

  /** In an accepted input every required field is present. */
  lemma RequiredPresent(s: Schema, input: map<string, Json>, k: nat)
    requires k < |s|
    requires s[k].presence.Required?
    requires Validate(s, input).Ok?
    ensures s[k].name in input
  {
    if s[k].name !in input {
      MissingReported(s, input, k);
    }
  }

  /**
   * An input of declared fields that supplies every required one, each with a
   * value in validated form, is accepted; every other field takes its
   * default, and the body sent back is the input itself.
   */
  lemma CanonicalInput(s: Schema, input: map<string, Json>)
    requires DistinctNames(s)
    requires forall i :: 0 <= i < |s| && s[i].presence.Required? ==> s[i].name in input
    requires forall i :: 0 <= i < |s| && s[i].name in input ==> Coerce(s[i], input[s[i].name]) == Ok(input[s[i].name])
    requires input.Keys <= Names(s)
    ensures Validate(s, input).Ok?
    ensures forall i :: 0 <= i < |s| && s[i].name !in input ==>
              s[i].name in Validate(s, input).value.values &&
              s[i].presence == Default(Validate(s, input).value.values[s[i].name])
    ensures Dump(Validate(s, input).value) == input
  {
    ValidateOkIff(s, input);
    ValidateModel(s, input);
    DumpCanonical(s, input);
  }

  /** A shape whose fields all have defaults accepts the empty mapping, and dumps it to the empty body. */
  lemma EmptyAccepted(s: Schema)
    requires DistinctNames(s)
    requires forall i :: 0 <= i < |s| ==> s[i].presence.Default?
    ensures Validate(s, map[]).Ok?
    ensures Dump(Validate(s, map[]).value) == map[]
  {
    ValidateOkIff(s, map[]);
    ValidateModel(s, map[]);
  }
}
