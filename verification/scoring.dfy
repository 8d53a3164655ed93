/** The compatibility score, the match reasons and the recommended-for label
    of a plan, the stable ranking of scored plans, and the recommendation
    list built from it. */
module Scoring {
  import opened PlanData
  import opened Features
  import opened Preferences

  // ---------------------------------------------------------------------
  // Compatibility score

  /** Lower premium is better; 0 once the premium reaches 1000. */
  function PremiumScore(premium: real): (s: real)
    ensures 0.0 <= s
    ensures 0.0 <= premium ==> s <= 1.0
    ensures premium >= 1000.0 ==> s == 0.0
  {
    1.0 - Min(1.0, premium / 1000.0)
  }

  function CoverageScore(f: PlanFeatures): real
  {
    f.metalTierScore / 4.0
  }

  function QualityScore(f: PlanFeatures): real
  {
    f.qualityRating / 5.0
  }

  /** Telehealth and HSA flags, plus a network term that is NOT capped at 1. */
  function ConvenienceScore(f: PlanFeatures): real
  {
    (if f.coversTelehealth then 1.0 else 0.0) * 0.3
    + (if f.hsaEligible then 1.0 else 0.0) * 0.3
    + (f.networkSize / 10000.0) * 0.4
  }

  /** The weighted sum of the four sub-scores. */
  function Weighted(f: PlanFeatures, w: Weights): real
  {
    PremiumScore(f.monthlyPremium) * w.premium
    + CoverageScore(f) * w.coverage
    + QualityScore(f) * w.quality
    + ConvenienceScore(f) * w.convenience
  }

  /** The weighted sum scaled by data freshness. */
  function Score(f: PlanFeatures, w: Weights): (s: real)
    ensures f.dataFreshness == 0.0 ==> s == 0.0
  {
    Weighted(f, w) * f.dataFreshness
  }

  predicate NonNegativeWeights(w: Weights)
  {
    w.premium >= 0.0 && w.coverage >= 0.0 && w.quality >= 0.0 && w.convenience >= 0.0
  }

  /** With non-negative features and weights the score is non-negative. */
  lemma ScoreNonNegative(f: PlanFeatures, w: Weights)
    requires NonNegativeWeights(w)
    requires f.metalTierScore >= 0.0 && f.qualityRating >= 0.0 && f.networkSize >= 0.0
    requires f.dataFreshness >= 0.0
    ensures Score(f, w) >= 0.0
  {
    ScaleKeepsOrder(0.0, PremiumScore(f.monthlyPremium), w.premium);
    ScaleKeepsOrder(0.0, CoverageScore(f), w.coverage);
    ScaleKeepsOrder(0.0, QualityScore(f), w.quality);
    ScaleKeepsOrder(0.0, ConvenienceScore(f), w.convenience);
    ScaleKeepsOrder(0.0, Weighted(f, w), f.dataFreshness);
  }

  /** A higher premium never raises the premium score. */
  lemma PremiumScoreNonIncreasing(lower: real, higher: real)
    requires lower <= higher
    ensures PremiumScore(higher) <= PremiumScore(lower)
  {
    assert lower / 1000.0 <= higher / 1000.0;
  }

  /** A higher premium never raises the score. */
  lemma ScoreNonIncreasingInPremium(f: PlanFeatures, w: Weights, higher: real)
    requires f.monthlyPremium <= higher
    requires w.premium >= 0.0 && f.dataFreshness >= 0.0
    ensures Score(f.(monthlyPremium := higher), w) <= Score(f, w)
  {
    var g := f.(monthlyPremium := higher);
    PremiumScoreNonIncreasing(f.monthlyPremium, higher);
    ScaleKeepsOrder(PremiumScore(higher), PremiumScore(f.monthlyPremium), w.premium);
    assert Weighted(g, w) <= Weighted(f, w);
    ScaleKeepsOrder(Weighted(g, w), Weighted(f, w), f.dataFreshness);
  }

  lemma ScaleKeepsOrder(x: real, y: real, c: real)
    requires x <= y && c >= 0.0
    ensures x * c <= y * c
  {
  }

  // ---------------------------------------------------------------------
  // Match reasons

  datatype MatchReason =
    | LowPremium
    | ComprehensiveCoverage
    | HighQualityRating
    | TelehealthForConditions
    | HsaTaxSavings
    | RecentlyUpdated

  function ReasonText(r: MatchReason): string
  {
    match r
    case LowPremium => "Low monthly premium"
    case ComprehensiveCoverage => "Comprehensive coverage"
    case HighQualityRating => "High quality rating"
    case TelehealthForConditions => "Telehealth coverage for your health needs"
    case HsaTaxSavings => "HSA eligible for tax savings"
    case RecentlyUpdated => "Recently updated data"
  }

  /** Position of a reason in the evaluation order. */
  function Rank(r: MatchReason): nat
  {
    match r
    case LowPremium => 0
    case ComprehensiveCoverage => 1
    case HighQualityRating => 2
    case TelehealthForConditions => 3
    case HsaTaxSavings => 4
    case RecentlyUpdated => 5
  }

  /** The reason evaluated at position k. */
  function ReasonAt(k: nat): (r: MatchReason)
    requires k < 6
    ensures Rank(r) == k
  {
    if k == 0 then LowPremium
    else if k == 1 then ComprehensiveCoverage
    else if k == 2 then HighQualityRating
    else if k == 3 then TelehealthForConditions
    else if k == 4 then HsaTaxSavings
    else RecentlyUpdated
  }

  /** The condition under which each reason is given. */
  predicate ReasonApplies(r: MatchReason, f: PlanFeatures, p: UserProfile, w: Weights)
  {
    match r
    case LowPremium => f.monthlyPremium < 400.0 && w.premium > 0.3
    case ComprehensiveCoverage => f.metalTierScore >= 3.0 && w.coverage > 0.3
    case HighQualityRating => f.qualityRating >= 4.0 && w.quality > 0.2
    case TelehealthForConditions => f.coversTelehealth && HasConditions(p)
    case HsaTaxSavings => f.hsaEligible && p.income > 50000
    case RecentlyUpdated => f.dataFreshness > 0.8
  }

  predicate RanksIncrease(rs: seq<MatchReason>)
  {
    forall i, j :: 0 <= i < j < |rs| ==> Rank(rs[i]) < Rank(rs[j])
  }

  /** The reason alone when it applies, nothing otherwise. */
  function IfApplies(r: MatchReason, f: PlanFeatures, p: UserProfile, w: Weights): seq<MatchReason>
  {
    if ReasonApplies(r, f, p, w) then [r] else []
  }

  /** The reasons among the first k of the evaluation order that apply, in
      that order. */
  function ApplyingBelow(k: nat, f: PlanFeatures, p: UserProfile, w: Weights): (rs: seq<MatchReason>)
    requires k <= 6
    ensures forall i :: 0 <= i < |rs| ==> Rank(rs[i]) < k && ReasonApplies(rs[i], f, p, w)
    ensures RanksIncrease(rs)
    ensures |rs| <= k
  {
    if k == 0 then []
    else
      var pre := ApplyingBelow(k - 1, f, p, w);
      var r := ReasonAt(k - 1);
      assert forall i :: 0 <= i < |pre| ==> Rank(pre[i]) < Rank(r);
      pre + IfApplies(r, f, p, w)
  }

  /** Every applicable reason of rank below k is listed. */
  lemma {:induction false} ApplyingBelowComplete(k: nat, r: MatchReason, f: PlanFeatures, p: UserProfile, w: Weights)
    requires k <= 6 && Rank(r) < k && ReasonApplies(r, f, p, w)
    ensures r in ApplyingBelow(k, f, p, w)
  {
    if Rank(r) < k - 1 {
      ApplyingBelowComplete(k - 1, r, f, p, w);
    } else {
      RankDetermines(r);
    }
  }

  lemma RankDetermines(r: MatchReason)
    ensures Rank(r) < 6 && ReasonAt(Rank(r)) == r
  {
  }

  /** The match reasons of a plan: each of the six reasons appears exactly
      when its condition holds, in evaluation order, at most once. */
  function MatchReasons(f: PlanFeatures, p: UserProfile, w: Weights): (rs: seq<MatchReason>)
    ensures forall r :: r in rs <==> ReasonApplies(r, f, p, w)
    ensures RanksIncrease(rs)
    ensures |rs| <= 6
  {
    var rs := ApplyingBelow(6, f, p, w);
    assert forall r :: ReasonApplies(r, f, p, w) ==> r in rs by {
      forall r | ReasonApplies(r, f, p, w) ensures r in rs {
        RankDetermines(r);
        ApplyingBelowComplete(6, r, f, p, w);
      }
    }
    rs
  }

  /** The six conditional appends, in source order. */
  lemma MatchReasonsUnfold(f: PlanFeatures, p: UserProfile, w: Weights)
    ensures MatchReasons(f, p, w) ==
      [] + IfApplies(LowPremium, f, p, w)
      + IfApplies(ComprehensiveCoverage, f, p, w)
      + IfApplies(HighQualityRating, f, p, w)
      + IfApplies(TelehealthForConditions, f, p, w)
      + IfApplies(HsaTaxSavings, f, p, w)
      + IfApplies(RecentlyUpdated, f, p, w)
  {
    assert ApplyingBelow(1, f, p, w) == [] + IfApplies(LowPremium, f, p, w);
    assert ApplyingBelow(2, f, p, w) == ApplyingBelow(1, f, p, w) + IfApplies(ComprehensiveCoverage, f, p, w);
    assert ApplyingBelow(3, f, p, w) == ApplyingBelow(2, f, p, w) + IfApplies(HighQualityRating, f, p, w);
    assert ApplyingBelow(4, f, p, w) == ApplyingBelow(3, f, p, w) + IfApplies(TelehealthForConditions, f, p, w);
    assert ApplyingBelow(5, f, p, w) == ApplyingBelow(4, f, p, w) + IfApplies(HsaTaxSavings, f, p, w);
    assert ApplyingBelow(6, f, p, w) == ApplyingBelow(5, f, p, w) + IfApplies(RecentlyUpdated, f, p, w);
  }

  // ---------------------------------------------------------------------
  // Recommended-for label

  datatype Audience =
    | BudgetYoungAdult
    | SeniorWithConditions
    | HighEarnerHsa
    | TobaccoUser
    | WellBalanced

  function AudienceText(a: Audience): string
  {
    match a
    case BudgetYoungAdult => "Great value plan for young adults on a budget"
    case SeniorWithConditions => "Comprehensive coverage for seniors with health conditions"
    case HighEarnerHsa => "Premium plan with HSA benefits for high earners"
    case TobaccoUser => "Plan with reasonable rates for tobacco users"
    case WellBalanced => "Well-balanced plan matching your profile"
  }

  /** The first label of the chain whose condition holds; the HSA test reads
      the raw plan record, not the extracted features. */
  function RecommendationReason(p: UserProfile, plan: RawPlan): (a: Audience)
    ensures a == BudgetYoungAdult <==> p.age < 30 && p.income < 40000
    ensures a == HighEarnerHsa ==> p.income > 100000 && IsSet(plan.hsaEligible)
    ensures a == WellBalanced <==>
      !BranchHolds(0, p, plan) && !BranchHolds(1, p, plan) && !BranchHolds(2, p, plan) && !BranchHolds(3, p, plan)
  {
    if p.age < 30 && p.income < 40000 then BudgetYoungAdult
    else if p.age > 60 && HasConditions(p) then SeniorWithConditions
    else if p.income > 100000 && IsSet(plan.hsaEligible) then HighEarnerHsa
    else if p.tobaccoUser then TobaccoUser
    else WellBalanced
  }

  /** Condition of the k-th branch of the label chain (the last always holds). */
  predicate BranchHolds(k: nat, p: UserProfile, plan: RawPlan)
  {
    if k == 0 then p.age < 30 && p.income < 40000
    else if k == 1 then p.age > 60 && HasConditions(p)
    else if k == 2 then p.income > 100000 && IsSet(plan.hsaEligible)
    else if k == 3 then p.tobaccoUser
    else true
  }

  function BranchLabel(k: nat): Audience
  {
    [BudgetYoungAdult, SeniorWithConditions, HighEarnerHsa, TobaccoUser, WellBalanced][if k < 5 then k else 4]
  }

  /** The label is the one of the first branch whose condition holds. */
  lemma RecommendationReasonIsFirstMatch(p: UserProfile, plan: RawPlan, k: nat)
    requires k < 5 && BranchHolds(k, p, plan)
    requires forall j :: 0 <= j < k ==> !BranchHolds(j, p, plan)
    ensures RecommendationReason(p, plan) == BranchLabel(k)
  {
    if k > 0 { assert !BranchHolds(0, p, plan); }
    if k > 1 { assert !BranchHolds(1, p, plan); }
    if k > 2 { assert !BranchHolds(2, p, plan); }
    if k > 3 { assert !BranchHolds(3, p, plan); }
  }

  // ---------------------------------------------------------------------
  // Rounding to three decimals

  /** Round half to even at the third decimal, on exact reals. */
  function RoundMillis(x: real): (r: real)
    ensures x - 0.0005 <= r <= x + 0.0005
    ensures (r * 1000.0).Floor as real == r * 1000.0
  {
    var y := x * 1000.0;
    var n := y.Floor;
    var frac := y - n as real;
    var k := if frac > 0.5 then n + 1
             else if frac < 0.5 then n
             else if n % 2 == 0 then n else n + 1;
    k as real / 1000.0
  }

  /** Rounding keeps the order of scores (ties may appear, never inversions). */
  lemma RoundMillisMonotone(x: real, y: real)
    requires x <= y
    ensures RoundMillis(x) <= RoundMillis(y)
  {
    var nx, ny := (x * 1000.0).Floor, (y * 1000.0).Floor;
    assert x * 1000.0 <= y * 1000.0;
    assert nx <= ny;
  }

  // ---------------------------------------------------------------------
  // Stable ranking

  datatype ScoredPlan = ScoredPlan(plan: RawPlan, score: real, matchReasons: seq<MatchReason>)

  predicate ScoresNonIncreasing(s: seq<ScoredPlan>)
  {
    forall i, j :: 0 <= i < j < |s| ==> s[i].score >= s[j].score
  }

  /** Insert `x` before the first entry whose score is not above its own. */
  function InsertByScore(x: ScoredPlan, t: seq<ScoredPlan>): (r: seq<ScoredPlan>)
    ensures |r| == |t| + 1
    ensures r[0] == x || (|t| > 0 && r[0] == t[0])
  {
    if |t| == 0 || x.score >= t[0].score then [x] + t
    else [t[0]] + InsertByScore(x, t[1..])
  }

  /** Inserting keeps every entry and adds `x` once. */
  lemma {:induction false} InsertIsPermutation(x: ScoredPlan, t: seq<ScoredPlan>)
    ensures multiset(InsertByScore(x, t)) == multiset(t) + multiset{x}
  {
    if |t| > 0 && x.score < t[0].score {
      InsertIsPermutation(x, t[1..]);
      assert t == [t[0]] + t[1..];
    }
  }

  /** Inserting into a ranked list keeps it ranked. */
  lemma {:induction false} InsertKeepsRanking(x: ScoredPlan, t: seq<ScoredPlan>)
    requires ScoresNonIncreasing(t)
    ensures ScoresNonIncreasing(InsertByScore(x, t))
  {
    if |t| > 0 && x.score < t[0].score {
      var rest := InsertByScore(x, t[1..]);
      InsertKeepsRanking(x, t[1..]);
      var r := [t[0]] + rest;
      forall i, j | 0 <= i < j < |r| ensures r[i].score >= r[j].score {
        if i == 0 {
          assert rest[0].score <= t[0].score;
          assert rest[0].score >= rest[j - 1].score || j == 1;
        }
      }
    }
  }

  /** Descending sort by score that keeps the input order of equal scores,
      as a stable sort with `reverse=True` does. */
  function SortByScoreDesc(s: seq<ScoredPlan>): (r: seq<ScoredPlan>)
    ensures |r| == |s|
    ensures |s| > 0 ==> exists i :: 0 <= i < |s| && r[0] == s[i]
  {
    if |s| == 0 then []
    else InsertByScore(s[0], SortByScoreDesc(s[1..]))
  }

  /** The sort is a permutation of its input, ranked by non-increasing score. */
  lemma {:induction false} SortIsRankedPermutation(s: seq<ScoredPlan>)
    ensures multiset(SortByScoreDesc(s)) == multiset(s)
    ensures ScoresNonIncreasing(SortByScoreDesc(s))
  {
    if |s| > 0 {
      var sorted := SortByScoreDesc(s[1..]);
      SortIsRankedPermutation(s[1..]);
      InsertIsPermutation(s[0], sorted);
      InsertKeepsRanking(s[0], sorted);
      assert s == [s[0]] + s[1..];
    }
  }

  /** Inserting keeps the records of the entries and adds the record of `x` once. */
  lemma {:induction false} InsertKeepsPlans(x: ScoredPlan, t: seq<ScoredPlan>)
    ensures multiset(PlansOf(InsertByScore(x, t))) == multiset(PlansOf(t)) + multiset{x.plan}
  {
    if |t| == 0 || x.score >= t[0].score {
      assert PlansOf([x] + t) == [x.plan] + PlansOf(t);
    } else {
      var rest := InsertByScore(x, t[1..]);
      InsertKeepsPlans(x, t[1..]);
      assert PlansOf([t[0]] + rest) == [t[0].plan] + PlansOf(rest);
      assert PlansOf(t) == [t[0].plan] + PlansOf(t[1..]);
    }
  }

  /** The sort ranks the same records, each as often as in its input. */
  lemma {:induction false} SortKeepsPlans(s: seq<ScoredPlan>)
    ensures multiset(PlansOf(SortByScoreDesc(s))) == multiset(PlansOf(s))
  {
    if |s| > 0 {
      SortKeepsPlans(s[1..]);
      InsertKeepsPlans(s[0], SortByScoreDesc(s[1..]));
      assert PlansOf(s) == [s[0].plan] + PlansOf(s[1..]);
    }
  }

  /** The entries of `s` that have score `v`, in their order in `s`. */
  function WithScore(s: seq<ScoredPlan>, v: real): seq<ScoredPlan>
  {
    if |s| == 0 then []
    else (if s[0].score == v then [s[0]] else []) + WithScore(s[1..], v)
  }

  /** Inserting by score keeps the relative order of `x` and the entries
      that share a score. */
  lemma {:induction false} InsertKeepsTieOrder(x: ScoredPlan, t: seq<ScoredPlan>, v: real)
    ensures WithScore(InsertByScore(x, t), v) == WithScore([x] + t, v)
  {
    if |t| > 0 && x.score < t[0].score {
      var tail := t[1..];
      var inserted := InsertByScore(x, tail);
      InsertKeepsTieOrder(x, tail, v);
      var head := if t[0].score == v then [t[0]] else [];
      var mine := if x.score == v then [x] else [];
      var r := [t[0]] + inserted;
      assert r[1..] == inserted;
      assert WithScore(r, v) == head + WithScore(inserted, v);
      assert ([x] + tail)[1..] == tail;
      assert WithScore(inserted, v) == mine + WithScore(tail, v);
      assert t[1..] == tail;
      assert WithScore(t, v) == head + WithScore(tail, v);
      assert ([x] + t)[1..] == t;
      assert WithScore([x] + t, v) == mine + WithScore(t, v);
      assert head == [] || mine == [];
    }
  }

  /** Equal scores keep their input order: for every score value, the
      entries with that score appear in the ranking in the order of the input. */
  lemma {:induction false} SortKeepsTieOrder(s: seq<ScoredPlan>, v: real)
    ensures WithScore(SortByScoreDesc(s), v) == WithScore(s, v)
  {
    if |s| > 0 {
      var sorted := SortByScoreDesc(s[1..]);
      SortKeepsTieOrder(s[1..], v);
      InsertKeepsTieOrder(s[0], sorted, v);
      assert ([s[0]] + sorted)[1..] == sorted;
    }
  }

  // ---------------------------------------------------------------------
  // Scoring every plan of a batch

  /** The record's raw plan id is a key of the feature map. */
  predicate Scorable(plan: RawPlan, features: map<int, PlanFeatures>)
  {
    plan.planId.Some? && plan.planId.value in features
  }

  /** An entry holds the score and the reasons of its plan's features. */
  predicate ScoredFrom(e: ScoredPlan, features: map<int, PlanFeatures>, p: UserProfile, w: Weights)
  {
    Scorable(e.plan, features)
    && e.score == Score(features[e.plan.planId.value], w)
    && e.matchReasons == MatchReasons(features[e.plan.planId.value], p, w)
  }

  /** One entry per record whose plan id is a feature key, in input order. */
  function ScoredPlans(plans: seq<RawPlan>, features: map<int, PlanFeatures>, p: UserProfile, w: Weights)
    : (s: seq<ScoredPlan>)
    ensures |s| <= |plans|
  {
    if |plans| == 0 then []
    else
      var pre := plans[..|plans| - 1];
      var last := plans[|plans| - 1];
      var s := ScoredPlans(pre, features, p, w);
      if Scorable(last, features) then
        var f := features[last.planId.value];
        s + [ScoredPlan(last, Score(f, w), MatchReasons(f, p, w))]
      else s
  }

  /** Every scored entry comes from a record of the batch and holds the score
      and reasons of that record's features. */
  lemma {:induction false} ScoredPlansFrom(plans: seq<RawPlan>, features: map<int, PlanFeatures>, p: UserProfile, w: Weights)
    ensures forall e :: e in ScoredPlans(plans, features, p, w) ==> e.plan in plans && ScoredFrom(e, features, p, w)
  {
    if |plans| > 0 {
      var pre := plans[..|plans| - 1];
      ScoredPlansFrom(pre, features, p, w);
      assert forall q :: q in pre ==> q in plans;
    }
  }

  /** The records of a list of entries, in order. */
  function PlansOf(s: seq<ScoredPlan>): (ps: seq<RawPlan>)
    ensures |ps| == |s|
  {
    seq(|s|, i requires 0 <= i < |s| => s[i].plan)
  }

  /** The records with a truthy plan id, in input order; a duplicated record
      is kept once per occurrence. */
  function KeyedRecords(plans: seq<RawPlan>): seq<RawPlan>
  {
    if |plans| == 0 then []
    else
      var last := plans[|plans| - 1];
      KeyedRecords(plans[..|plans| - 1]) + (if PlanKey(last).Some? then [last] else [])
  }

  /** Number of records with a truthy plan id; duplicates count once per record. */
  function CountKeyed(plans: seq<RawPlan>): nat
  {
    |KeyedRecords(plans)|
  }

  /** The keyed records are records of the batch with a truthy plan id, and
      there are no more of them than records. */
  lemma {:induction false} KeyedRecordsFromBatch(plans: seq<RawPlan>)
    ensures CountKeyed(plans) <= |plans|
    ensures forall q :: q in KeyedRecords(plans) ==> q in plans && PlanKey(q).Some?
  {
    if |plans| > 0 {
      var pre := plans[..|plans| - 1];
      KeyedRecordsFromBatch(pre);
      assert forall q :: q in pre ==> q in plans;
    }
  }

  /** Scored against a map whose keys are exactly the truthy plan ids, the
      scored list holds every keyed record once per occurrence, in input order. */
  lemma {:induction false} ScoredPlansComplete(plans: seq<RawPlan>, features: map<int, PlanFeatures>, p: UserProfile, w: Weights)
    requires forall i :: 0 <= i < |plans| ==> (Scorable(plans[i], features) <==> PlanKey(plans[i]).Some?)
    ensures PlansOf(ScoredPlans(plans, features, p, w)) == KeyedRecords(plans)
  {
    if |plans| > 0 {
      var pre := plans[..|plans| - 1];
      var last := plans[|plans| - 1];
      assert forall i :: 0 <= i < |pre| ==> pre[i] == plans[i];
      ScoredPlansComplete(pre, features, p, w);
      var s := ScoredPlans(pre, features, p, w);
      if Scorable(last, features) {
        var e := ScoredPlan(last, Score(features[last.planId.value], w), MatchReasons(features[last.planId.value], p, w));
        assert PlansOf(s + [e]) == PlansOf(s) + [last];
      }
    }
  }

  /** Against its own feature map, a record is scored exactly when its plan id is truthy. */
  lemma ExtractedScorable(plans: seq<RawPlan>)
    ensures forall i :: 0 <= i < |plans| ==>
      (Scorable(plans[i], ExtractedFeatures(plans)) <==> PlanKey(plans[i]).Some?)
  {
    ExtractedKeys(plans);
    forall i | 0 <= i < |plans| && PlanKey(plans[i]).Some?
      ensures Scorable(plans[i], ExtractedFeatures(plans))
    {
      assert KeyPresent(plans, PlanKey(plans[i]).value);
    }
  }

  // ---------------------------------------------------------------------
  // Recommendation list

  datatype Recommendation = Recommendation(
    plan: RawPlan,
    compatibilityScore: real,
    matchReasons: seq<MatchReason>,
    recommendedFor: Audience
  )

  /** End of the slice `s[:k]` of a list of length n (a negative k counts from the end). */
  function SliceEnd(n: nat, k: int): (e: nat)
    ensures e <= n
  {
    if k >= 0 then (if k < n then k else n)
    else if n + k >= 0 then n + k else 0
  }

  function RecommendationOf(item: ScoredPlan, p: UserProfile): Recommendation
  {
    Recommendation(item.plan, RoundMillis(item.score), item.matchReasons, RecommendationReason(p, item.plan))
  }

  /** The scored plans of a batch, ranked. */
  function Ranked(p: UserProfile, plans: seq<RawPlan>): seq<ScoredPlan>
  {
    SortByScoreDesc(ScoredPlans(plans, ExtractedFeatures(plans), p, PreferenceWeights(p)))
  }

  /** The top-k recommendations for a profile. */
  function Recommend(p: UserProfile, plans: seq<RawPlan>, topK: int): (recs: seq<Recommendation>)
    ensures |recs| <= |plans|
    ensures topK == 0 ==> recs == []
  {
    var ranked := Ranked(p, plans);
    var top := ranked[..SliceEnd(|ranked|, topK)];
    seq(|top|, i requires 0 <= i < |top| => RecommendationOf(top[i], p))
  }

  /** The list holds min(top_k, number of records with a truthy plan id) entries. */
  lemma RecommendLength(p: UserProfile, plans: seq<RawPlan>, topK: int)
    requires topK >= 0
    ensures var n := CountKeyed(plans);
      |Recommend(p, plans, topK)| == if topK < n then topK else n
  {
    ExtractedScorable(plans);
    ScoredPlansComplete(plans, ExtractedFeatures(plans), p, PreferenceWeights(p));
  }

  /** Compatibility scores are non-increasing along the list. */
  lemma RecommendOrdered(p: UserProfile, plans: seq<RawPlan>, topK: int)
    ensures var recs := Recommend(p, plans, topK);
      forall i, j :: 0 <= i < j < |recs| ==> recs[i].compatibilityScore >= recs[j].compatibilityScore
  {
    var ranked := Ranked(p, plans);
    var recs := Recommend(p, plans, topK);
    SortIsRankedPermutation(ScoredPlans(plans, ExtractedFeatures(plans), p, PreferenceWeights(p)));
    forall i, j | 0 <= i < j < |recs|
      ensures recs[i].compatibilityScore >= recs[j].compatibilityScore
    {
      RoundMillisMonotone(ranked[j].score, ranked[i].score);
    }
  }

  /** The ranking holds exactly the records with a truthy plan id, each as
      often as it occurs in the batch. */
  lemma RankedIsKeyedRecords(p: UserProfile, plans: seq<RawPlan>)
    ensures multiset(PlansOf(Ranked(p, plans))) == multiset(KeyedRecords(plans))
  {
    var scored := ScoredPlans(plans, ExtractedFeatures(plans), p, PreferenceWeights(p));
    ExtractedScorable(plans);
    ScoredPlansComplete(plans, ExtractedFeatures(plans), p, PreferenceWeights(p));
    SortKeepsPlans(scored);
  }

  /** The list is the top of the ranking: its records are the first entries
      of a ranking of exactly the keyed records, and every ranked entry left
      out scores no higher than any entry listed. */
  lemma RecommendIsTopK(p: UserProfile, plans: seq<RawPlan>, topK: int)
    ensures var ranked := Ranked(p, plans);
      var recs := Recommend(p, plans, topK);
      var e := SliceEnd(|ranked|, topK);
      && |recs| == e
      && (forall i :: 0 <= i < e ==> recs[i].plan == ranked[i].plan)
      && (forall i, j :: 0 <= i < e <= j < |ranked| ==> ranked[j].score <= ranked[i].score)
      && multiset(PlansOf(ranked)) == multiset(KeyedRecords(plans))
  {
    SortIsRankedPermutation(ScoredPlans(plans, ExtractedFeatures(plans), p, PreferenceWeights(p)));
    RankedIsKeyedRecords(p, plans);
  }

  /** Every entry is built from its own record: the record has a plan id of
      the feature map, the score and reasons are those of that id's features,
      and the label is computed from the profile and the record. */
  lemma RecommendEntries(p: UserProfile, plans: seq<RawPlan>, topK: int)
    ensures var recs := Recommend(p, plans, topK);
      var features := ExtractedFeatures(plans);
      var w := PreferenceWeights(p);
      forall i :: 0 <= i < |recs| ==>
        && recs[i].plan in plans
        && PlanKey(recs[i].plan).Some?
        && Scorable(recs[i].plan, features)
        && recs[i].compatibilityScore == RoundMillis(Score(features[recs[i].plan.planId.value], w))
        && recs[i].matchReasons == MatchReasons(features[recs[i].plan.planId.value], p, w)
        && recs[i].recommendedFor == RecommendationReason(p, recs[i].plan)
  {
    var features := ExtractedFeatures(plans);
    var w := PreferenceWeights(p);
    var scored := ScoredPlans(plans, features, p, w);
    var ranked := Ranked(p, plans);
    var recs := Recommend(p, plans, topK);
    SortIsRankedPermutation(scored);
    ScoredPlansFrom(plans, features, p, w);
    forall i | 0 <= i < |recs|
      ensures recs[i].plan in plans && ScoredFrom(ranked[i], features, p, w)
    {
      assert ranked[i] in multiset(ranked);
      assert ranked[i] in scored;
    }
  }
}
