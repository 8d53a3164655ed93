/** Plan comparison: every recommendation for a batch is verified, and the
    verified list is summarised into price, value, coverage and data-quality
    insights. */
module Comparison {
  import opened PlanData
  import opened Features
  import opened Preferences
  import opened Scoring
  import opened Verification
  import opened Engine

  /** A recommended record with its recommendation and its verification. */
  datatype VerifiedPlan = VerifiedPlan(plan: RawPlan, recommendation: Recommendation, verification: VerificationResult)

  /** The three advice lines; the first carries the profile's age and income. */
  datatype Advice = ProfileSummary(age: int, income: int) | ConsiderHsa | LookForTelehealth | BasicCoverage

  datatype PriceAnalysis = PriceAnalysis(cheapest: real, mostExpensive: real, average: real, priceRange: real)

  datatype ValueAnalysis = ValueAnalysis(bestValue: real, averageScore: real, recommendedPlan: VerifiedPlan)

  datatype CoverageAnalysis = CoverageAnalysis(metalTiers: set<string>, hsaEligibleCount: nat, telehealthCount: nat)

  datatype DataQuality = DataQuality(verifiedPlans: nat, averageConfidence: real)

  /** The insights of a verified list; an empty list gives only the
      "no plans to compare" marker. */
  datatype Insights =
    | NoPlansToCompare
    | Insights(price: PriceAnalysis, value: ValueAnalysis, coverage: CoverageAnalysis,
               dataQuality: DataQuality, recommendations: seq<Advice>)

  datatype ComparisonResult = ComparisonResult(plans: seq<VerifiedPlan>, insights: Insights, userProfile: UserProfile)

  // ---------------------------------------------------------------------
  // Aggregates over a non-empty list of numbers

  function SumOf(xs: seq<real>): real
  {
    if |xs| == 0 then 0.0 else SumOf(xs[..|xs| - 1]) + xs[|xs| - 1]
  }

  function MinOf(xs: seq<real>): (m: real)
    requires |xs| > 0
    ensures m in xs
    ensures forall i :: 0 <= i < |xs| ==> m <= xs[i]
  {
    if |xs| == 1 then xs[0] else Min(MinOf(xs[..|xs| - 1]), xs[|xs| - 1])
  }

  function MaxOf(xs: seq<real>): (m: real)
    requires |xs| > 0
    ensures m in xs
    ensures forall i :: 0 <= i < |xs| ==> xs[i] <= m
  {
    if |xs| == 1 then xs[0] else Max(MaxOf(xs[..|xs| - 1]), xs[|xs| - 1])
  }

  function Mean(xs: seq<real>): real
    requires |xs| > 0
  {
    SumOf(xs) / (|xs| as real)
  }

  /** A sum of values within [lo, hi] lies between n * lo and n * hi. */
  lemma {:induction false} SumBetween(xs: seq<real>, lo: real, hi: real)
    requires forall i :: 0 <= i < |xs| ==> lo <= xs[i] <= hi
    ensures (|xs| as real) * lo <= SumOf(xs) <= (|xs| as real) * hi
  {
    if |xs| > 0 {
      var pre := xs[..|xs| - 1];
      assert forall i :: 0 <= i < |pre| ==> pre[i] == xs[i];
      SumBetween(pre, lo, hi);
    }
  }

  /** Values within [lo, hi] have their mean within [lo, hi]. */
  lemma MeanBetween(xs: seq<real>, lo: real, hi: real)
    requires |xs| > 0
    requires forall i :: 0 <= i < |xs| ==> lo <= xs[i] <= hi
    ensures lo <= Mean(xs) <= hi
  {
    SumBetween(xs, lo, hi);
    DivideBetween(SumOf(xs), |xs| as real, lo, hi);
  }

  lemma DivideBetween(s: real, n: real, lo: real, hi: real)
    requires n > 0.0 && n * lo <= s <= n * hi
    ensures lo <= s / n <= hi
  {
    assert s / n * n == s;
  }

  /** The mean lies between the least and the largest value. */
  lemma MeanBetweenExtremes(xs: seq<real>)
    requires |xs| > 0
    ensures MinOf(xs) <= Mean(xs) <= MaxOf(xs)
  {
    MeanBetween(xs, MinOf(xs), MaxOf(xs));
  }

  // ---------------------------------------------------------------------
  // The columns of a verified list

  function PremiumOf(vp: VerifiedPlan): real
  {
    GetOr(vp.plan.monthlyPremiumBase, 0.0)
  }

  function ScoreOf(vp: VerifiedPlan): real
  {
    vp.recommendation.compatibilityScore
  }

  function Premiums(vps: seq<VerifiedPlan>): seq<real>
  {
    seq(|vps|, i requires 0 <= i < |vps| => PremiumOf(vps[i]))
  }

  function Scores(vps: seq<VerifiedPlan>): seq<real>
  {
    seq(|vps|, i requires 0 <= i < |vps| => ScoreOf(vps[i]))
  }

  function Confidences(vps: seq<VerifiedPlan>): seq<real>
  {
    seq(|vps|, i requires 0 <= i < |vps| => vps[i].verification.overallConfidence)
  }

  /** Number of entries that satisfy `keep`. */
  function CountIf(vps: seq<VerifiedPlan>, keep: VerifiedPlan -> bool): (n: nat)
    ensures n <= |vps|
    ensures n == |vps| <==> forall i :: 0 <= i < |vps| ==> keep(vps[i])
    ensures n == 0 <==> forall i :: 0 <= i < |vps| ==> !keep(vps[i])
  {
    if |vps| == 0 then 0
    else
      var pre := vps[..|vps| - 1];
      assert forall i :: 0 <= i < |pre| ==> pre[i] == vps[i];
      CountIf(pre, keep) + (if keep(vps[|vps| - 1]) then 1 else 0)
  }

  /** Index of the FIRST entry with the largest score. */
  function FirstBest(vps: seq<VerifiedPlan>): (k: nat)
    requires |vps| > 0
    ensures k < |vps|
    ensures forall i :: 0 <= i < |vps| ==> ScoreOf(vps[i]) <= ScoreOf(vps[k])
    ensures forall i :: 0 <= i < k ==> ScoreOf(vps[i]) < ScoreOf(vps[k])
  {
    if |vps| == 1 then 0
    else
      var pre := vps[..|vps| - 1];
      var k := FirstBest(pre);
      assert forall i :: 0 <= i < |pre| ==> pre[i] == vps[i];
      if ScoreOf(vps[|vps| - 1]) > ScoreOf(pre[k]) then |vps| - 1 else k
  }

  /** With scores non-increasing along the list, the first entry is the best. */
  lemma FirstBestOfRanked(vps: seq<VerifiedPlan>)
    requires |vps| > 0
    requires forall i, j :: 0 <= i < j < |vps| ==> ScoreOf(vps[i]) >= ScoreOf(vps[j])
    ensures FirstBest(vps) == 0
  {
  }

  function MetalTiers(vps: seq<VerifiedPlan>): set<string>
  {
    set i | 0 <= i < |vps| :: GetOr(vps[i].plan.metalTier, "")
  }

  function AdviceFor(p: UserProfile): seq<Advice>
  {
    [ProfileSummary(p.age, p.income), ConsiderHsa, if HasConditions(p) then LookForTelehealth else BasicCoverage]
  }

  /** The insights of a verified list: extremes, means and spread of the
      premiums (a missing premium reads as 0), best and mean compatibility
      score with the first best entry, the tiers and feature counts, the
      number of verified records and their mean confidence, and the advice. */
  function ComparisonInsights(vps: seq<VerifiedPlan>, p: UserProfile): (r: Insights)
    ensures r.NoPlansToCompare? <==> |vps| == 0
  {
    if |vps| == 0 then NoPlansToCompare
    else
      var premiums := Premiums(vps);
      var scores := Scores(vps);
      Insights(
        price := PriceAnalysis(
          cheapest := MinOf(premiums),
          mostExpensive := MaxOf(premiums),
          average := Mean(premiums),
          priceRange := MaxOf(premiums) - MinOf(premiums)),
        value := ValueAnalysis(
          bestValue := MaxOf(scores),
          averageScore := Mean(scores),
          recommendedPlan := vps[FirstBest(vps)]),
        coverage := CoverageAnalysis(
          metalTiers := MetalTiers(vps),
          hsaEligibleCount := CountIf(vps, (vp: VerifiedPlan) => IsSet(vp.plan.hsaEligible)),
          telehealthCount := CountIf(vps, (vp: VerifiedPlan) => IsSet(vp.plan.coversTelehealth))),
        dataQuality := DataQuality(
          verifiedPlans := CountIf(vps, (vp: VerifiedPlan) => vp.verification.isVerified),
          averageConfidence := Mean(Confidences(vps))),
        recommendations := AdviceFor(p))
  }

  /** What the insights of a non-empty list promise: the cheapest premium is
      at most the mean, which is at most the dearest, so the range is not
      negative; the recommended entry belongs to the list and carries the best
      score, which bounds the mean score; every count is at most the length
      of the list; every tier in the set is the tier of some entry; and the
      third advice line depends on the health conditions alone. */
  lemma InsightsOfList(vps: seq<VerifiedPlan>, p: UserProfile)
    requires |vps| > 0
    ensures var r := ComparisonInsights(vps, p);
      && r.Insights?
      && r.price.cheapest <= r.price.average <= r.price.mostExpensive
      && r.price.priceRange >= 0.0
      && r.price.cheapest in Premiums(vps) && r.price.mostExpensive in Premiums(vps)
      && r.value.recommendedPlan in vps
      && ScoreOf(r.value.recommendedPlan) == r.value.bestValue
      && r.value.averageScore <= r.value.bestValue
      && r.coverage.hsaEligibleCount <= |vps| && r.coverage.telehealthCount <= |vps|
      && r.dataQuality.verifiedPlans <= |vps|
      && (forall t :: t in r.coverage.metalTiers ==>
            exists i :: 0 <= i < |vps| && GetOr(vps[i].plan.metalTier, "") == t)
      && r.recommendations[2] == (if HasConditions(p) then LookForTelehealth else BasicCoverage)
  {
    MeanBetweenExtremes(Premiums(vps));
    MeanBetweenExtremes(Scores(vps));
    var k := FirstBest(vps);
    assert Scores(vps)[k] == ScoreOf(vps[k]);
  }

  /** With every confidence in [0, 1], so is the mean confidence. */
  lemma MeanConfidenceBounds(vps: seq<VerifiedPlan>, p: UserProfile)
    requires |vps| > 0
    requires forall i :: 0 <= i < |vps| ==> 0.0 <= vps[i].verification.overallConfidence <= 1.0
    ensures 0.0 <= ComparisonInsights(vps, p).dataQuality.averageConfidence <= 1.0
  {
    MeanBetween(Confidences(vps), 0.0, 1.0);
  }

  // ---------------------------------------------------------------------
  // The whole comparison

  function VerifiedPlanOf(rec: Recommendation): VerifiedPlan
  {
    VerifiedPlan(rec.plan, rec, VerificationOf(rec.plan))
  }

  function VerifiedPlans(recs: seq<Recommendation>): seq<VerifiedPlan>
  {
    seq(|recs|, i requires 0 <= i < |recs| => VerifiedPlanOf(recs[i]))
  }

  /** Every record with a truthy plan id is recommended (top_k is the batch
      size), verified, and summarised. */
  function Comparison(p: UserProfile, plans: seq<RawPlan>): (r: ComparisonResult)
    ensures r.userProfile == p
    ensures |r.plans| <= |plans|
    ensures r.insights.NoPlansToCompare? <==> |r.plans| == 0
  {
    var vps := VerifiedPlans(Recommend(p, plans, |plans|));
    ComparisonResult(vps, ComparisonInsights(vps, p), p)
  }

  /** The records of the verified entries, in order. */
  function RecordsOf(vps: seq<VerifiedPlan>): (ps: seq<RawPlan>)
    ensures |ps| == |vps|
  {
    seq(|vps|, i requires 0 <= i < |vps| => vps[i].plan)
  }

  /** The comparison of a batch lists one verified entry per record with a
      truthy plan id (a duplicated record once per occurrence), in ranking
      order, each entry verified by its own record. */
  lemma ComparedEntries(p: UserProfile, plans: seq<RawPlan>)
    ensures var r := Comparison(p, plans);
      && |r.plans| == CountKeyed(plans)
      && r.userProfile == p
      && multiset(RecordsOf(r.plans)) == multiset(KeyedRecords(plans))
      && (forall i :: 0 <= i < |r.plans| ==>
            r.plans[i].plan in plans && r.plans[i].verification == VerificationOf(r.plans[i].plan))
      && (forall i, j :: 0 <= i < j < |r.plans| ==> ScoreOf(r.plans[i]) >= ScoreOf(r.plans[j]))
  {
    var recs := Recommend(p, plans, |plans|);
    var vps := VerifiedPlans(recs);
    assert Comparison(p, plans).plans == vps;
    KeyedRecordsFromBatch(plans);
    RecommendLength(p, plans, |plans|);
    RecommendOrdered(p, plans, |plans|);
    ComparedRecords(p, plans);
    forall i | 0 <= i < |vps|
      ensures vps[i].plan in plans && vps[i].verification == VerificationOf(vps[i].plan)
    {
      assert vps[i].plan == RecordsOf(vps)[i];
      assert vps[i].plan in multiset(KeyedRecords(plans));
    }
    forall i, j | 0 <= i < j < |vps|
      ensures ScoreOf(vps[i]) >= ScoreOf(vps[j])
    {
      assert ScoreOf(vps[i]) == recs[i].compatibilityScore && ScoreOf(vps[j]) == recs[j].compatibilityScore;
    }
  }

  /** With top_k the batch size nothing is cut: the verified entries are the
      whole ranking, so they hold exactly the keyed records. */
  lemma ComparedRecords(p: UserProfile, plans: seq<RawPlan>)
    ensures multiset(RecordsOf(Comparison(p, plans).plans)) == multiset(KeyedRecords(plans))
  {
    var recs := Recommend(p, plans, |plans|);
    var ranked := Ranked(p, plans);
    assert Comparison(p, plans).plans == VerifiedPlans(recs);
    RecommendIsTopK(p, plans, |plans|);
    assert |ranked| <= |plans|;
    VerifiedRecords(recs, ranked);
  }

  /** Verifying a list of recommendations keeps their records. */
  lemma VerifiedRecords(recs: seq<Recommendation>, ranked: seq<ScoredPlan>)
    requires |recs| == |ranked|
    requires forall i :: 0 <= i < |recs| ==> recs[i].plan == ranked[i].plan
    ensures RecordsOf(VerifiedPlans(recs)) == PlansOf(ranked)
  {
  }

  /** For a ranked list of verified records, the recommended plan is the
      first entry and the mean confidence lies in (0, 1]. */
  lemma InsightsOfRankedList(vps: seq<VerifiedPlan>, p: UserProfile)
    requires |vps| > 0
    requires forall i, j :: 0 <= i < j < |vps| ==> ScoreOf(vps[i]) >= ScoreOf(vps[j])
    requires forall i :: 0 <= i < |vps| ==> 0.0 < vps[i].verification.overallConfidence <= 1.0
    ensures ComparisonInsights(vps, p).value.recommendedPlan == vps[0]
    ensures 0.0 < ComparisonInsights(vps, p).dataQuality.averageConfidence <= 1.0
  {
    FirstBestOfRanked(vps);
    var cs := Confidences(vps);
    MeanBetween(cs, 0.0, 1.0);
    SumPositive(cs);
    PositiveQuotient(SumOf(cs), |cs| as real);
  }

  lemma PositiveQuotient(s: real, n: real)
    requires s > 0.0 && n > 0.0
    ensures s / n > 0.0
  {
  }

  /** The insights of a batch are the "no plans" marker exactly when no record
      has a truthy plan id; otherwise the recommended plan is the first
      (highest-ranked) entry and the mean confidence lies in (0, 1]. */
  lemma ComparedInsights(p: UserProfile, plans: seq<RawPlan>)
    ensures var r := Comparison(p, plans);
      && (r.insights.NoPlansToCompare? <==> CountKeyed(plans) == 0)
      && (r.insights.Insights? ==>
            && r.insights.value.recommendedPlan == r.plans[0]
            && 0.0 < r.insights.dataQuality.averageConfidence <= 1.0)
  {
    var vps := VerifiedPlans(Recommend(p, plans, |plans|));
    assert Comparison(p, plans) == ComparisonResult(vps, ComparisonInsights(vps, p), p);
    ComparedEntries(p, plans);
    if |vps| > 0 {
      VerifiedConfidencesBounded(vps);
      InsightsOfRankedList(vps, p);
    }
  }

  /** Entries verified by their own records have confidences in (0, 1]. */
  lemma VerifiedConfidencesBounded(vps: seq<VerifiedPlan>)
    requires forall i :: 0 <= i < |vps| ==> vps[i].verification == VerificationOf(vps[i].plan)
    ensures forall i :: 0 <= i < |vps| ==> 0.0 < vps[i].verification.overallConfidence <= 1.0
  {
    forall i | 0 <= i < |vps|
      ensures 0.0 < vps[i].verification.overallConfidence <= 1.0
    {
      VerificationOfRecord(vps[i].plan);
    }
  }

  /** A non-empty sum of positive values is positive. */
  lemma {:induction false} SumPositive(xs: seq<real>)
    requires |xs| > 0
    requires forall i :: 0 <= i < |xs| ==> xs[i] > 0.0
    ensures SumOf(xs) > 0.0
  {
    var pre := xs[..|xs| - 1];
    assert forall i :: 0 <= i < |pre| ==> pre[i] == xs[i];
    if |pre| > 0 {
      SumPositive(pre);
    }
  }

  /** A list built entry by entry from the batch's recommendations yields
      the comparison of the batch. */
  lemma ComparisonOfVerified(p: UserProfile, plans: seq<RawPlan>, recs: seq<Recommendation>, vps: seq<VerifiedPlan>)
    requires recs == Recommend(p, plans, |plans|)
    requires |vps| == |recs|
    requires forall k :: 0 <= k < |recs| ==> vps[k] == VerifiedPlanOf(recs[k])
    ensures ComparisonResult(vps, ComparisonInsights(vps, p), p) == Comparison(p, plans)
  {
    assert vps == VerifiedPlans(recs);
  }

  // ---------------------------------------------------------------------
  // The comparison engine object

  class ComparisonEngine {
    const recommendationEngine: RecommendationEngine
    const verificationSystem: VerificationSystem

    constructor ()
      ensures fresh(recommendationEngine) && fresh(verificationSystem)
      ensures recommendationEngine.planFeatures == map[]
    {
      recommendationEngine := new RecommendationEngine();
      verificationSystem := new VerificationSystem();
    }

    /** Recommends every plan of the batch, verifies each recommended record
        in ranking order, and summarises the verified list. */
    method ComparePlans(plans: seq<RawPlan>, userProfile: UserProfile) returns (r: ComparisonResult)
      modifies recommendationEngine
      ensures recommendationEngine.planFeatures == ExtractedFeatures(plans)
      ensures r == Comparison(userProfile, plans)
    {
      var recommendations := recommendationEngine.GetRecommendations(userProfile, plans, |plans|);
      var verifiedPlans: seq<VerifiedPlan> := [];
      for i := 0 to |recommendations|
        modifies {}
        invariant |verifiedPlans| == i
        invariant forall k :: 0 <= k < i ==> verifiedPlans[k] == VerifiedPlanOf(recommendations[k])
      {
        var rec := recommendations[i];
        var verification := verificationSystem.VerifyPlanData(rec.plan);
        verifiedPlans := verifiedPlans + [VerifiedPlan(rec.plan, rec, verification)];
      }
      var insights := ComparisonInsights(verifiedPlans, userProfile);
      r := ComparisonResult(verifiedPlans, insights, userProfile);
      ComparisonOfVerified(userProfile, plans, recommendations, verifiedPlans);
    }
  }
}
