/** Feature extraction: turns raw plan records into normalised plan features,
    keyed by plan id. */
module Features {
  import opened PlanData

  /** The normalised features of one plan. */
  datatype PlanFeatures = PlanFeatures(
    planId: int,
    monthlyPremium: real,
    deductible: real,
    outOfPocketMax: real,
    primaryCareCopay: real,
    specialistCopay: real,
    metalTierScore: real,
    hsaEligible: bool,
    coversTelehealth: bool,
    networkSize: real,
    qualityRating: real,
    customerSatisfaction: real,
    dataFreshness: real
  )

  /** Coverage richness of each known metal tier. */
  const MetalTierScores: map<string, real> :=
    map["Bronze" := 1.0, "Silver" := 2.0, "Gold" := 3.0, "Platinum" := 4.0, "Catastrophic" := 0.5]

  /** The tier looked up in the table, with 'Bronze' for a missing tier and
      1.0 for a tier the table does not know. */
  function MetalTierScore(tier: Option<string>): (s: real)
    ensures s in {0.5, 1.0, 2.0, 3.0, 4.0}
    ensures s == 1.0 <==> tier.None? || tier.value !in {"Silver", "Gold", "Platinum", "Catastrophic"}
    ensures tier == Some("Gold") ==> s == 3.0
    ensures tier == Some("Catastrophic") ==> s == 0.5
  {
    var name := GetOr(tier, "Bronze");
    if name in MetalTierScores then MetalTierScores[name] else 1.0
  }

  /** Linear decay of the data's age over 30 days, clamped below at 0; 0.5
      when the timestamp is missing or could not be parsed. A timestamp in
      the future (negative age) gives a value above 1. */
  function Freshness(daysOld: Option<int>): (f: real)
    ensures daysOld.None? ==> f == 0.5
    ensures 0.0 <= f
    ensures daysOld.Some? && daysOld.value >= 0 ==> f <= 1.0
    ensures daysOld.Some? && daysOld.value >= 30 ==> f == 0.0
    ensures daysOld == Some(0) ==> f == 1.0
    ensures daysOld.Some? && 0 <= daysOld.value <= 30 ==> f == 1.0 - daysOld.value as real / 30.0
  {
    match daysOld
    case None => 0.5
    case Some(d) => Max(0.0, 1.0 - d as real / 30.0)
  }

  /** An older record is never fresher. */
  lemma FreshnessNonIncreasing(d1: int, d2: int)
    requires d1 <= d2
    ensures Freshness(Some(d2)) <= Freshness(Some(d1))
  {
    assert d1 as real / 30.0 <= d2 as real / 30.0;
  }

  /** The features of one record under the id `id`, with the documented
      default for every missing field. */
  function FeaturesOf(plan: RawPlan, id: int): (f: PlanFeatures)
    ensures f.planId == id
    ensures f.monthlyPremium == if plan.monthlyPremiumBase.Some? then plan.monthlyPremiumBase.value else 0.0
    ensures f.deductible == if plan.annualDeductibleIndividual.Some? then plan.annualDeductibleIndividual.value else 0.0
    ensures f.outOfPocketMax == if plan.outOfPocketMaxIndividual.Some? then plan.outOfPocketMaxIndividual.value else 0.0
    ensures f.primaryCareCopay == if plan.primaryCareCopay.Some? then plan.primaryCareCopay.value else 0.0
    ensures f.specialistCopay == if plan.specialistCopay.Some? then plan.specialistCopay.value else 0.0
    ensures f.networkSize == if plan.estimatedProvidersCount.Some? then plan.estimatedProvidersCount.value else 1000.0
    ensures f.qualityRating == if plan.qualityRating.Some? then plan.qualityRating.value else 3.0
    ensures f.customerSatisfaction == if plan.customerSatisfactionScore.Some? then plan.customerSatisfactionScore.value else 3.0
    ensures f.hsaEligible <==> plan.hsaEligible == Some(true)
    ensures f.coversTelehealth <==> plan.coversTelehealth == Some(true)
    ensures f.metalTierScore == MetalTierScore(plan.metalTier)
    ensures f.metalTierScore in {0.5, 1.0, 2.0, 3.0, 4.0}
    ensures f.dataFreshness == Freshness(plan.lastScrapedDaysOld)
    ensures plan.lastScrapedDaysOld.None? ==> f.dataFreshness == 0.5
    ensures 0.0 <= f.dataFreshness
  {
    PlanFeatures(
      planId := id,
      monthlyPremium := GetOr(plan.monthlyPremiumBase, 0.0),
      deductible := GetOr(plan.annualDeductibleIndividual, 0.0),
      outOfPocketMax := GetOr(plan.outOfPocketMaxIndividual, 0.0),
      primaryCareCopay := GetOr(plan.primaryCareCopay, 0.0),
      specialistCopay := GetOr(plan.specialistCopay, 0.0),
      metalTierScore := MetalTierScore(plan.metalTier),
      hsaEligible := IsSet(plan.hsaEligible),
      coversTelehealth := IsSet(plan.coversTelehealth),
      networkSize := GetOr(plan.estimatedProvidersCount, 1000.0),
      qualityRating := GetOr(plan.qualityRating, 3.0),
      customerSatisfaction := GetOr(plan.customerSatisfactionScore, 3.0),
      dataFreshness := Freshness(plan.lastScrapedDaysOld))
  }

  /** The feature map of a batch: records are taken in order, a record with a
      falsy plan id is skipped, and a later record overwrites an earlier one
      with the same id. */
  function ExtractedFeatures(plans: seq<RawPlan>): (m: map<int, PlanFeatures>)
    ensures forall id :: id in m ==> id != 0 && m[id].planId == id
  {
    if |plans| == 0 then map[]
    else
      var m := ExtractedFeatures(plans[..|plans| - 1]);
      var last := plans[|plans| - 1];
      match PlanKey(last)
      case None => m
      case Some(id) => m[id := FeaturesOf(last, id)]
  }

  /** The id is the truthy plan id of some record of the batch. */
  ghost predicate KeyPresent(plans: seq<RawPlan>, id: int)
  {
    exists i :: 0 <= i < |plans| && PlanKey(plans[i]) == Some(id)
  }

  /** The extracted keys are exactly the truthy plan ids of the batch. */
  lemma {:induction false} ExtractedKeys(plans: seq<RawPlan>)
    ensures forall id :: id in ExtractedFeatures(plans) <==> KeyPresent(plans, id)
  {
    if |plans| > 0 {
      var pre := plans[..|plans| - 1];
      ExtractedKeys(pre);
      forall id
        ensures id in ExtractedFeatures(plans) <==> KeyPresent(plans, id)
      {
        if KeyPresent(plans, id) && PlanKey(plans[|plans| - 1]) != Some(id) {
          var i :| 0 <= i < |plans| && PlanKey(plans[i]) == Some(id);
          assert i < |pre| && pre[i] == plans[i];
        }
        if KeyPresent(pre, id) {
          var i :| 0 <= i < |pre| && PlanKey(pre[i]) == Some(id);
          assert plans[i] == pre[i];
        }
      }
    }
  }

  /** A duplicated id keeps the features of its last record. */
  lemma {:induction false} ExtractedKeepsLastRecord(plans: seq<RawPlan>, i: nat, id: int)
    requires i < |plans| && PlanKey(plans[i]) == Some(id)
    requires forall j :: i < j < |plans| ==> PlanKey(plans[j]) != Some(id)
    ensures id in ExtractedFeatures(plans)
    ensures ExtractedFeatures(plans)[id] == FeaturesOf(plans[i], id)
  {
    if i < |plans| - 1 {
      var pre := plans[..|plans| - 1];
      assert pre[i] == plans[i];
      ExtractedKeepsLastRecord(pre, i, id);
    }
  }
}
