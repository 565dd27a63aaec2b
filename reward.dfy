/** Rewards: the entity `Reward` and the redemption request `RedeemPointsRequest`. */
module RewardModel {

  import opened Wrappers
  import opened JsonValues
  import opened Schema
  import Enums

  const Reward: Schema := [
    Req("id", Int),
    Req("customer_id", Int),
    Opt("payment_id", Int),
    Opt("offer_id", Int),
    Opt("points_earned", Int),
    Opt("points_redeemed", Int),
    Opt("dollar_value", Float),
    Req("status", Enum(Enums.RewardStatusWires)),
    Opt("earned_date", DateTime),
    Opt("redeemed_date", DateTime),
    Opt("expiry_date", DateTime),
    Opt("description", Str)
  ]

  const RedeemPointsRequest: Schema := [
    Req("points", Int, [Gt(0.0)]),
    Opt("description", Str)
  ]

  lemma RewardWellFormed()
    ensures WellFormed(Reward)
  {
    assert DistinctNames(Reward);
  }

  lemma RedeemPointsWellFormed()
    ensures WellFormed(RedeemPointsRequest)
  {
    assert DistinctNames(RedeemPointsRequest);
  }

  /**
   * Redeeming requires a strictly positive number of points; the description
   * may be left out, in which case the body carries the points alone.
   */
  lemma RedeemPointsPositive(points: int)
    ensures Validate(RedeemPointsRequest, map["points" := JInt(points)]).Ok? <==> points > 0
    ensures points <= 0 ==> Validate(RedeemPointsRequest, map["points" := JInt(points)]) == Err([OutOfRange("points")])
    ensures points > 0 ==> Dump(Validate(RedeemPointsRequest, map["points" := JInt(points)]).value) == map["points" := JInt(points)]
  {
    var input := map["points" := JInt(points)];
    RedeemPointsWellFormed();
    WithinOne(points as real, Gt(0.0));
    ValidateOkIff(RedeemPointsRequest, input);
    if points > 0 {
      assert input.Keys <= Names(RedeemPointsRequest) by {
        assert RedeemPointsRequest[0].name == "points";
      }
      DumpCanonical(RedeemPointsRequest, input);
    } else {
      SingleFailure(RedeemPointsRequest, input, 0);
    }
  }

  /** An accepted redemption supplies the points. */
  lemma RedeemPointsRequired(input: map<string, Json>)
    requires Validate(RedeemPointsRequest, input).Ok?
    ensures "points" in input
  {
    RequiredPresent(RedeemPointsRequest, input, 0);
  }

  /** A reward's status must be EARNED, REDEEMED or EXPIRED. */
  lemma RewardStatusMembership(input: map<string, Json>, w: string)
    requires Validate(Reward, input).Ok?
    ensures Validate(Reward, input["status" := JString(w)]).Ok? <==> w in {"EARNED", "REDEEMED", "EXPIRED"}
    ensures Validate(Reward, input["status" := JString(w)]).Ok? <==> Enums.RewardStatus.FromWire(w).Some?
  {
    RewardWellFormed();
    ReplaceField(Reward, input, 7, JString(w));
    Enums.RewardStatusDecoding();
  }

  function MinimalReward(id: int, customer: int, status: Enums.RewardStatus): map<string, Json> {
    map["id" := JInt(id), "customer_id" := JInt(customer), "status" := JString(status.Wire())]
  }

  lemma MinimalRewardFields(id: int, customer: int, status: Enums.RewardStatus)
    ensures forall i :: 0 <= i < |Reward| ==>
              (Reward[i].name in MinimalReward(id, customer, status) <==> Reward[i].presence.Required?)
  {
  }

  lemma MinimalRewardKeys(id: int, customer: int, status: Enums.RewardStatus)
    ensures MinimalReward(id, customer, status).Keys <= Names(Reward)
  {
    assert Reward[0].name == "id" && Reward[1].name == "customer_id" && Reward[7].name == "status";
  }

  lemma MinimalRewardValues(id: int, customer: int, status: Enums.RewardStatus)
    ensures var input := MinimalReward(id, customer, status);
            forall i :: 0 <= i < |Reward| && Reward[i].name in input ==>
              Coerce(Reward[i], input[Reward[i].name]) == Ok(input[Reward[i].name])
  {
    Enums.RewardStatusEncoding();
  }

  /** A reward needs only its id, customer and status; everything else is optional. */
  lemma RewardMinimal(id: int, customer: int, status: Enums.RewardStatus)
    ensures Validate(Reward, MinimalReward(id, customer, status)).Ok?
    ensures Dump(Validate(Reward, MinimalReward(id, customer, status)).value) == MinimalReward(id, customer, status)
  {
    RewardWellFormed();
    MinimalRewardFields(id, customer, status);
    MinimalRewardKeys(id, customer, status);
    MinimalRewardValues(id, customer, status);
    CanonicalInput(Reward, MinimalReward(id, customer, status));
  }

  /** ... and an accepted reward always has those three. */
  lemma RewardRequired(input: map<string, Json>)
    requires Validate(Reward, input).Ok?
    ensures {"id", "customer_id", "status"} <= input.Keys
  {
    RequiredPresent(Reward, input, 0);
    RequiredPresent(Reward, input, 1);
    RequiredPresent(Reward, input, 7);
  }
}
