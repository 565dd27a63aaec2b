/** Customers: the entity `Customer`, `CustomerCreate` and the partial-update shape `CustomerUpdate`. */
module CustomerModel {

  import opened Wrappers
  import opened JsonValues
  import opened Schema

  const Customer: Schema := [
    Req("id", Int),
    Req("first_name", Str),
    Req("last_name", Str),
    Req("email", Str),
    Opt("phone", Str),
    Opt("date_of_birth", Str),
    Opt("address", Str),
    Opt("created_at", DateTime),
    Opt("updated_at", DateTime)
  ]

  const CustomerCreate: Schema := [
    Req("first_name", Str),
    Req("last_name", Str),
    Req("email", Str),
    Opt("phone", Str),
    Opt("date_of_birth", Str),
    Opt("address", Str)
  ]

  const CustomerUpdate: Schema := [
    Opt("first_name", Str),
    Opt("last_name", Str),
    Opt("email", Str),
    Opt("phone", Str),
    Opt("date_of_birth", Str),
    Opt("address", Str)
  ]

  lemma CustomerCreateWellFormed()
    ensures WellFormed(CustomerCreate)
  {
    assert DistinctNames(CustomerCreate);
  }

  lemma CustomerUpdateWellFormed()
    ensures WellFormed(CustomerUpdate)
  {
    assert DistinctNames(CustomerUpdate);
  }

  /** First name, last name and email are required to create a customer. */
  lemma CustomerCreateRequired(input: map<string, Json>)
    requires Validate(CustomerCreate, input).Ok?
    ensures {"first_name", "last_name", "email"} <= input.Keys
  {
    RequiredPresent(CustomerCreate, input, 0);
    RequiredPresent(CustomerCreate, input, 1);
    RequiredPresent(CustomerCreate, input, 2);
  }

  function MinimalCustomer(first: string, last: string, email: string): map<string, Json> {
    map["first_name" := JString(first), "last_name" := JString(last), "email" := JString(email)]
  }

  lemma MinimalCustomerShape(first: string, last: string, email: string)
    ensures var input := MinimalCustomer(first, last, email);
            && (forall i :: 0 <= i < |CustomerCreate| ==> (CustomerCreate[i].name in input <==> CustomerCreate[i].presence.Required?))
            && (forall i :: 0 <= i < |CustomerCreate| && CustomerCreate[i].name in input ==>
                  Coerce(CustomerCreate[i], input[CustomerCreate[i].name]) == Ok(input[CustomerCreate[i].name]))
            && input.Keys <= Names(CustomerCreate)
  {
    assert CustomerCreate[0].name == "first_name" && CustomerCreate[1].name == "last_name" && CustomerCreate[2].name == "email";
  }

  /**
   * Any three strings for the names and email are accepted (there is no length
   * or format check); phone, date of birth and address are then None, and the
   * body sent holds the three given fields only.
   */
  lemma CustomerCreateMinimal(first: string, last: string, email: string)
    ensures Validate(CustomerCreate, MinimalCustomer(first, last, email)).Ok?
    ensures var m := Validate(CustomerCreate, MinimalCustomer(first, last, email)).value;
            && "phone" in m.values && m.values["phone"] == JNull
            && "date_of_birth" in m.values && m.values["date_of_birth"] == JNull
            && "address" in m.values && m.values["address"] == JNull
    ensures Dump(Validate(CustomerCreate, MinimalCustomer(first, last, email)).value) == MinimalCustomer(first, last, email)
  {
    var input := MinimalCustomer(first, last, email);
    CustomerCreateWellFormed();
    MinimalCustomerShape(first, last, email);
    CanonicalInput(CustomerCreate, input);
    ValueOf(CustomerCreate, input, 3);
    ValueOf(CustomerCreate, input, 4);
    ValueOf(CustomerCreate, input, 5);
  }

  /** Every update field is optional: the empty update is accepted and sends the empty body. */
  lemma EmptyUpdateAccepted()
    ensures Validate(CustomerUpdate, map[]).Ok?
    ensures Dump(Validate(CustomerUpdate, map[]).value) == map[]
  {
    CustomerUpdateWellFormed();
    EmptyAccepted(CustomerUpdate);
  }

  lemma EmailOnlyShape(email: string)
    ensures var input := map["email" := JString(email)];
            && (forall i :: 0 <= i < |CustomerUpdate| ==> !CustomerUpdate[i].presence.Required?)
            && (forall i :: 0 <= i < |CustomerUpdate| && CustomerUpdate[i].name in input ==>
                  Coerce(CustomerUpdate[i], input[CustomerUpdate[i].name]) == Ok(input[CustomerUpdate[i].name]))
            && input.Keys <= Names(CustomerUpdate)
  {
    assert CustomerUpdate[2].name == "email";
  }

  /** An update sends exactly the fields it names: changing only the email sends only the email. */
  lemma UpdateSendsOnlyGiven(email: string)
    ensures Validate(CustomerUpdate, map["email" := JString(email)]).Ok?
    ensures Dump(Validate(CustomerUpdate, map["email" := JString(email)]).value) == map["email" := JString(email)]
  {
    CustomerUpdateWellFormed();
    EmailOnlyShape(email);
    CanonicalInput(CustomerUpdate, map["email" := JString(email)]);
  }

  /** The update shape declares the same field names as the create shape, position by position. */
  lemma UpdateNamesMatchCreate()
    ensures |CustomerUpdate| == |CustomerCreate|
    ensures forall i :: 0 <= i < |CustomerUpdate| ==> CustomerUpdate[i].name == CustomerCreate[i].name
    ensures Names(CustomerUpdate) == Names(CustomerCreate)
  {
    SameNames(CustomerUpdate, CustomerCreate);
  }

  /** The stored customer has every create field, plus its id and the two timestamps. */
  lemma CreateNamesInEntity()
    ensures forall i :: 0 <= i < |CustomerCreate| ==> CustomerCreate[i].name == Customer[i + 1].name
    ensures Names(CustomerCreate) <= Names(Customer)
    ensures |Customer| == |CustomerCreate| + 3
    ensures Customer[0].name == "id" && Customer[7].name == "created_at" && Customer[8].name == "updated_at"
  {
    ShiftedNames(CustomerCreate, Customer, 1);
  }
}
