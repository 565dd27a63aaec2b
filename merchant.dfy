/** Merchants: the entity `Merchant` and the creation request `MerchantCreate`. */
module MerchantModel {

  import opened Wrappers
  import opened JsonValues
  import opened Schema
  import Enums

  const Merchant: Schema := [
    Req("id", Int),
    Req("merchant_id", Str),
    Req("name", Str),
    Opt("description", Str),
    Req("category", Str),
    Opt("website", Str),
    Opt("contact_email", Str),
    Opt("phone", Str),
    Opt("address", Str),
    Opt("is_active", Bool),
    Opt("created_at", DateTime)
  ]

  const MerchantCreate: Schema := [
    Req("merchant_id", Str),
    Req("name", Str),
    Opt("description", Str),
    Req("category", Enum(Enums.MerchantCategoryWires)),
    Opt("website", Str),
    Opt("contact_email", Str),
    Opt("phone", Str),
    Opt("address", Str)
  ]

  lemma MerchantWellFormed()
    ensures WellFormed(Merchant)
  {
    assert DistinctNames(Merchant);
  }

  lemma MerchantCreateWellFormed()
    ensures WellFormed(MerchantCreate)
  {
    assert DistinctNames(MerchantCreate);
  }

  /** Business id, name and category are required to register a merchant. */
  lemma MerchantCreateRequired(input: map<string, Json>)
    requires Validate(MerchantCreate, input).Ok?
    ensures {"merchant_id", "name", "category"} <= input.Keys
  {
    RequiredPresent(MerchantCreate, input, 0);
    RequiredPresent(MerchantCreate, input, 1);
    RequiredPresent(MerchantCreate, input, 3);
  }

  /** On registration the category must be one of the 21 `MerchantCategory` wire strings. */
  lemma MerchantCategoryMembership(input: map<string, Json>, w: string)
    requires Validate(MerchantCreate, input).Ok?
    ensures Validate(MerchantCreate, input["category" := JString(w)]).Ok? <==> Enums.MerchantCategory.FromWire(w).Some?
    ensures Enums.MerchantCategory.FromWire(w).None? ==>
              Validate(MerchantCreate, input["category" := JString(w)]) == Err([NotAMember("category")])
  {
    MerchantCreateWellFormed();
    ReplaceField(MerchantCreate, input, 3, JString(w));
    Enums.MerchantCategoryDecoding();
  }

  /** The stored merchant's category is a free string. */
  lemma MerchantEntityCategoryFree(input: map<string, Json>, category: string)
    requires Validate(Merchant, input).Ok?
    ensures Validate(Merchant, input["category" := JString(category)]).Ok?
  {
    MerchantWellFormed();
    ReplaceField(Merchant, input, 4, JString(category));
  }

  /** A stored merchant always has its id, business id, name and category. */
  lemma MerchantRequired(input: map<string, Json>)
    requires Validate(Merchant, input).Ok?
    ensures {"id", "merchant_id", "name", "category"} <= input.Keys
  {
    RequiredPresent(Merchant, input, 0);
    RequiredPresent(Merchant, input, 1);
    RequiredPresent(Merchant, input, 2);
    RequiredPresent(Merchant, input, 4);
  }

  function MinimalMerchant(id: int, merchantId: string, name: string, category: string): map<string, Json> {
    map["id" := JInt(id), "merchant_id" := JString(merchantId), "name" := JString(name), "category" := JString(category)]
  }

  lemma MinimalMerchantFields(id: int, merchantId: string, name: string, category: string)
    ensures forall i :: 0 <= i < |Merchant| && Merchant[i].presence.Required? ==>
              Merchant[i].name in MinimalMerchant(id, merchantId, name, category)
  {
  }

  lemma MinimalMerchantKeys(id: int, merchantId: string, name: string, category: string)
    ensures MinimalMerchant(id, merchantId, name, category).Keys <= Names(Merchant)
  {
    assert Merchant[0].name == "id" && Merchant[1].name == "merchant_id";
    assert Merchant[2].name == "name" && Merchant[4].name == "category";
  }

  lemma MinimalMerchantValues(id: int, merchantId: string, name: string, category: string)
    ensures var input := MinimalMerchant(id, merchantId, name, category);
            forall i :: 0 <= i < |Merchant| && Merchant[i].name in input ==>
              Coerce(Merchant[i], input[Merchant[i].name]) == Ok(input[Merchant[i].name])
  {
  }

  /** Those four fields are enough: every other merchant field is optional. */
  lemma MerchantMinimal(id: int, merchantId: string, name: string, category: string)
    ensures Validate(Merchant, MinimalMerchant(id, merchantId, name, category)).Ok?
    ensures Dump(Validate(Merchant, MinimalMerchant(id, merchantId, name, category)).value)
            == MinimalMerchant(id, merchantId, name, category)
  {
    MerchantWellFormed();
    MinimalMerchantFields(id, merchantId, name, category);
    MinimalMerchantKeys(id, merchantId, name, category);
    MinimalMerchantValues(id, merchantId, name, category);
    CanonicalInput(Merchant, MinimalMerchant(id, merchantId, name, category));
  }

  /** Every registration field is a field of the stored merchant, which adds its id, the active flag and the registration time. */
  lemma CreateNamesInEntity()
    ensures forall i :: 0 <= i < |MerchantCreate| ==> MerchantCreate[i].name == Merchant[i + 1].name
    ensures Names(MerchantCreate) <= Names(Merchant)
    ensures |Merchant| == |MerchantCreate| + 3
    ensures Merchant[0].name == "id" && Merchant[9].name == "is_active" && Merchant[10].name == "created_at"
  {
    ShiftedNames(MerchantCreate, Merchant, 1);
  }
}
