/** The recommendation engine object: it extracts features into its feature
    field, derives preference weights, and ranks plans for a profile. */
module Engine {
  import opened PlanData
  import opened Features
  import opened Preferences
  import opened Scoring

  class RecommendationEngine {
    /** The features of the last extracted batch. */
    var planFeatures: map<int, PlanFeatures>

    constructor ()
      ensures planFeatures == map[]
    {
      planFeatures := map[];
    }

    /** Fills the feature map record by record and stores it in `planFeatures`. */
    method ExtractPlanFeatures(plans: seq<RawPlan>) returns (features: map<int, PlanFeatures>)
      modifies this
      ensures features == ExtractedFeatures(plans)
      ensures planFeatures == features
    {
      features := map[];
      for i := 0 to |plans|
        invariant features == ExtractedFeatures(plans[..i])
      {
        var plan := plans[i];
        assert plans[..i + 1][..i] == plans[..i];
        if plan.planId.None? || plan.planId.value == 0 {
          continue;
        }
        var planId := plan.planId.value;
        var metalTierScore := MetalTierScore(plan.metalTier);
        var dataFreshness := 0.5;
        if plan.lastScrapedDaysOld.Some? {
          var daysOld := plan.lastScrapedDaysOld.value;
          dataFreshness := Max(0.0, 1.0 - daysOld as real / 30.0);
        }
        features := features[planId := PlanFeatures(
          planId := planId,
          monthlyPremium := GetOr(plan.monthlyPremiumBase, 0.0),
          deductible := GetOr(plan.annualDeductibleIndividual, 0.0),
          outOfPocketMax := GetOr(plan.outOfPocketMaxIndividual, 0.0),
          primaryCareCopay := GetOr(plan.primaryCareCopay, 0.0),
          specialistCopay := GetOr(plan.specialistCopay, 0.0),
          metalTierScore := metalTierScore,
          hsaEligible := IsSet(plan.hsaEligible),
          coversTelehealth := IsSet(plan.coversTelehealth),
          networkSize := GetOr(plan.estimatedProvidersCount, 1000.0),
          qualityRating := GetOr(plan.qualityRating, 3.0),
          customerSatisfaction := GetOr(plan.customerSatisfactionScore, 3.0),
          dataFreshness := dataFreshness)];
      }
      assert plans[..|plans|] == plans;
      planFeatures := features;
    }

    /** Starts from the base weights and applies the override rules in order,
        each one overwriting the weights it names. */
    method CalculateUserPreferences(profile: UserProfile) returns (w: Weights)
      ensures w == PreferenceWeights(profile)
      ensures w.quality == (if profile.income > 100000 then 0.4 else 0.2)
      ensures w.convenience == (if HasPriority(profile, "hsa_eligible") then 0.4 else 0.2)
      ensures HasPriority(profile, "low_premium") ==> w.premium == 0.6
      ensures HasPriority(profile, "good_coverage") ==> w.coverage == 0.6
      ensures profile.priorityFactors.None? ==> w == PreferenceWeights(profile.(priorityFactors := Some([])))
      ensures 0.1 <= w.premium <= 0.6 && 0.2 <= w.coverage <= 0.6
    {
      w := Weights(premium := 0.3, coverage := 0.3, quality := 0.2, convenience := 0.2);

      if profile.income < 30000 {
        w := w.(premium := 0.5, coverage := 0.2);
      } else if profile.income > 100000 {
        w := w.(quality := 0.4, premium := 0.1);
      }

      if profile.age > 60 {
        w := w.(coverage := 0.5, premium := 0.1);
      }

      if |profile.healthConditions| > 0 {
        w := w.(coverage := 0.6, premium := 0.1);
      }

      if profile.tobaccoUser {
        w := w.(premium := 0.4);
      }

      if profile.priorityFactors.Some? && |profile.priorityFactors.value| > 0 {
        var factors := profile.priorityFactors.value;
        if "low_premium" in factors {
          w := w.(premium := 0.6);
        }
        if "good_coverage" in factors {
          w := w.(coverage := 0.6);
        }
        if "hsa_eligible" in factors {
          w := w.(convenience := 0.4);
        }
      }
    }

    /** Appends each reason whose condition holds, in evaluation order. */
    method GetMatchReasons(f: PlanFeatures, profile: UserProfile, w: Weights) returns (reasons: seq<MatchReason>)
      ensures reasons == MatchReasons(f, profile, w)
    {
      reasons := [];
      ghost var r0 := reasons;
      if f.monthlyPremium < 400.0 && w.premium > 0.3 {
        reasons := reasons + [LowPremium];
      }
      assert reasons == r0 + IfApplies(LowPremium, f, profile, w);
      ghost var r1 := reasons;
      if f.metalTierScore >= 3.0 && w.coverage > 0.3 {
        reasons := reasons + [ComprehensiveCoverage];
      }
      assert reasons == r1 + IfApplies(ComprehensiveCoverage, f, profile, w);
      ghost var r2 := reasons;
      if f.qualityRating >= 4.0 && w.quality > 0.2 {
        reasons := reasons + [HighQualityRating];
      }
      assert reasons == r2 + IfApplies(HighQualityRating, f, profile, w);
      ghost var r3 := reasons;
      if f.coversTelehealth && |profile.healthConditions| > 0 {
        reasons := reasons + [TelehealthForConditions];
      }
      assert reasons == r3 + IfApplies(TelehealthForConditions, f, profile, w);
      ghost var r4 := reasons;
      if f.hsaEligible && profile.income > 50000 {
        reasons := reasons + [HsaTaxSavings];
      }
      assert reasons == r4 + IfApplies(HsaTaxSavings, f, profile, w);
      ghost var r5 := reasons;
      if f.dataFreshness > 0.8 {
        reasons := reasons + [RecentlyUpdated];
      }
      assert reasons == r5 + IfApplies(RecentlyUpdated, f, profile, w);
      MatchReasonsUnfold(f, profile, w);
    }

    /** Scores every record whose plan id has features, ranks the scored
        list, and turns its first `topK` entries into recommendations. */
    method GetRecommendations(profile: UserProfile, plans: seq<RawPlan>, topK: int) returns (recs: seq<Recommendation>)
      modifies this
      ensures planFeatures == ExtractedFeatures(plans)
      ensures recs == Recommend(profile, plans, topK)
    {
      var features := ExtractPlanFeatures(plans);
      var preferences := CalculateUserPreferences(profile);

      var scoredPlans: seq<ScoredPlan> := [];
      for i := 0 to |plans|
        invariant planFeatures == features
        invariant scoredPlans == ScoredPlans(plans[..i], features, profile, preferences)
      {
        var plan := plans[i];
        assert plans[..i + 1][..i] == plans[..i];
        if plan.planId.Some? && plan.planId.value in features {
          var planId := plan.planId.value;
          var score := Score(features[planId], preferences);
          var reasons := GetMatchReasons(features[planId], profile, preferences);
          scoredPlans := scoredPlans + [ScoredPlan(plan, score, reasons)];
        }
      }
      assert plans[..|plans|] == plans;

      scoredPlans := SortByScoreDesc(scoredPlans);

      var top := scoredPlans[..SliceEnd(|scoredPlans|, topK)];
      recs := [];
      for i := 0 to |top|
        invariant planFeatures == features
        invariant |recs| == i
        invariant forall k :: 0 <= k < i ==> recs[k] == RecommendationOf(top[k], profile)
      {
        var item := top[i];
        var recommendation := Recommendation(
          plan := item.plan,
          compatibilityScore := RoundMillis(item.score),
          matchReasons := item.matchReasons,
          recommendedFor := RecommendationReason(profile, item.plan));
        recs := recs + [recommendation];
      }
    }
  }
}
