/** Multi-agent verification of a raw plan record: four independent
    consistency checks, each multiplying a confidence that starts at 1, and
    their averaged verdict against a fixed threshold. */
module Verification {
  import opened PlanData

  datatype Agent = PriceAgent | CoverageAgent | NetworkAgent | QualityAgent

  /** The agents, in the order they run. */
  const Agents: seq<Agent> := [PriceAgent, CoverageAgent, NetworkAgent, QualityAgent]

  const VerificationThreshold: real := 0.8

  datatype Status = Verified | Flagged | Failed

  /** What one agent reports: its confidence, its status, and the fault text
      when the agent failed. */
  datatype AgentReport = AgentReport(confidence: real, status: Status, error: Option<string>)

  /** What running an agent produced: a report, or the fault it raised. */
  datatype AgentOutcome = Completed(report: AgentReport) | Raised(error: string)

  /** An agent's report for its own confidence: verified only strictly above 0.8. */
  function CheckedReport(confidence: real): (r: AgentReport)
    ensures r.confidence == confidence && r.error.None?
    ensures r.status == Verified <==> confidence > 0.8
    ensures r.status != Failed
  {
    AgentReport(confidence, if confidence > 0.8 then Verified else Flagged, None)
  }

  /** A raised fault is recorded as confidence 0, status failed, with its text. */
  function ReportOf(o: AgentOutcome): (r: AgentReport)
    ensures o.Raised? ==> r == AgentReport(0.0, Failed, Some(o.error))
    ensures o.Completed? ==> r == o.report
  {
    match o
    case Completed(report) => report
    case Raised(e) => AgentReport(0.0, Failed, Some(e))
  }

  // ---------------------------------------------------------------------
  // The four checks, as the products of the penalty factors that apply

  /** Premium band expected for each metal tier; other tiers are not checked. */
  const TierPremiumBands: map<string, (real, real)> :=
    map["Bronze" := (200.0, 600.0), "Silver" := (300.0, 800.0), "Gold" := (500.0, 1200.0), "Platinum" := (700.0, 1500.0)]

  function Premium(plan: RawPlan): real
  {
    GetOr(plan.monthlyPremiumBase, 0.0)
  }

  predicate PremiumOutOfBand(plan: RawPlan)
  {
    var tier := GetOr(plan.metalTier, "");
    tier in TierPremiumBands
    && !(TierPremiumBands[tier].0 <= Premium(plan) <= TierPremiumBands[tier].1)
  }

  predicate PremiumHighForDeductible(plan: RawPlan)
  {
    var deductible := GetOr(plan.annualDeductibleIndividual, 0.0);
    Premium(plan) > 0.0 && deductible > 0.0 && Premium(plan) / deductible > 0.5
  }

  function PricingConfidence(plan: RawPlan): (c: real)
    ensures c in {1.0, 0.7, 0.8, 0.56}
  {
    (if PremiumOutOfBand(plan) then 0.7 else 1.0) * (if PremiumHighForDeductible(plan) then 0.8 else 1.0)
  }

  /** One of plan type, metal tier and primary-care copay is falsy. */
  predicate RequiredFieldMissing(plan: RawPlan)
  {
    !TextGiven(plan.planType) || !TextGiven(plan.metalTier) || !NumberGiven(plan.primaryCareCopay)
  }

  predicate CopaysInverted(plan: RawPlan)
  {
    GetOr(plan.primaryCareCopay, 0.0) > GetOr(plan.specialistCopay, 0.0)
  }

  function CoverageConfidence(plan: RawPlan): (c: real)
    ensures c in {1.0, 0.6, 0.8, 0.48}
  {
    (if RequiredFieldMissing(plan) then 0.6 else 1.0) * (if CopaysInverted(plan) then 0.8 else 1.0)
  }

  function NetworkSize(plan: RawPlan): real
  {
    GetOr(plan.estimatedProvidersCount, 0.0)
  }

  function NetworkConfidence(plan: RawPlan): (c: real)
    ensures c in {1.0, 0.7, 0.9}
  {
    if NetworkSize(plan) < 100.0 then 0.7
    else if NetworkSize(plan) > 50000.0 then 0.9
    else 1.0
  }

  predicate OutsideRatingScale(x: real)
  {
    x < 1.0 || x > 5.0
  }

  function QualityRating(plan: RawPlan): real
  {
    GetOr(plan.qualityRating, 0.0)
  }

  function SatisfactionScore(plan: RawPlan): real
  {
    GetOr(plan.customerSatisfactionScore, 0.0)
  }

  function QualityConfidence(plan: RawPlan): (c: real)
    ensures c in {1.0, 0.5, 0.9, 0.25, 0.45}
  {
    (if OutsideRatingScale(QualityRating(plan)) then 0.5
     else if QualityRating(plan) > 4.5 then 0.9
     else 1.0)
    * (if OutsideRatingScale(SatisfactionScore(plan)) then 0.5 else 1.0)
  }

  function AgentConfidence(agent: Agent, plan: RawPlan): (c: real)
    ensures 0.0 < c <= 1.0
  {
    match agent
    case PriceAgent => PricingConfidence(plan)
    case CoverageAgent => CoverageConfidence(plan)
    case NetworkAgent => NetworkConfidence(plan)
    case QualityAgent => QualityConfidence(plan)
  }

  /** What each agent produces for the record, in agent order. */
  function AgentOutcomes(plan: RawPlan): (os: seq<AgentOutcome>)
    ensures |os| == |Agents|
  {
    seq(|Agents|, i requires 0 <= i < |Agents| => Completed(CheckedReport(AgentConfidence(Agents[i], plan))))
  }

  // ---------------------------------------------------------------------
  // The aggregate verdict

  datatype VerificationResult = VerificationResult(
    overallConfidence: real,
    isVerified: bool,
    agentResults: map<Agent, AgentReport>
  )

  /** Sum of the recorded confidences; a failed agent adds 0. */
  function SumConfidence(outcomes: seq<AgentOutcome>): real
  {
    if |outcomes| == 0 then 0.0
    else SumConfidence(outcomes[..|outcomes| - 1]) + ReportOf(outcomes[|outcomes| - 1]).confidence
  }

  /** Each agent's recorded report, keyed by the agent in run order. */
  function ResultsMap(outcomes: seq<AgentOutcome>): (m: map<Agent, AgentReport>)
    requires |outcomes| <= |Agents|
    ensures forall i :: 0 <= i < |outcomes| ==> Agents[i] in m
  {
    if |outcomes| == 0 then map[]
    else ResultsMap(outcomes[..|outcomes| - 1])[Agents[|outcomes| - 1] := ReportOf(outcomes[|outcomes| - 1])]
  }

  /** The average of the four recorded confidences against the threshold. */
  function Verdict(outcomes: seq<AgentOutcome>): (v: VerificationResult)
    requires |outcomes| == |Agents|
    ensures v.isVerified <==> SumConfidence(outcomes) >= 3.2
  {
    var overall := SumConfidence(outcomes) / (|Agents| as real);
    VerificationResult(overall, overall >= VerificationThreshold, ResultsMap(outcomes))
  }

  function VerificationOf(plan: RawPlan): VerificationResult
  {
    Verdict(AgentOutcomes(plan))
  }

  /** The i-th agent's entry holds the i-th outcome's report, and only agents run so far have entries. */
  lemma {:induction false} ResultsMapAt(outcomes: seq<AgentOutcome>)
    requires |outcomes| <= |Agents|
    ensures forall a :: a in ResultsMap(outcomes) <==> a in Agents[..|outcomes|]
    ensures forall i :: 0 <= i < |outcomes| ==> ResultsMap(outcomes)[Agents[i]] == ReportOf(outcomes[i])
  {
    if |outcomes| > 0 {
      var n := |outcomes| - 1;
      var pre := outcomes[..n];
      ResultsMapAt(pre);
      AgentsDistinct();
      assert ResultsMap(outcomes) == ResultsMap(pre)[Agents[n] := ReportOf(outcomes[n])];
      assert Agents[..n + 1] == Agents[..n] + [Agents[n]];
      assert forall i :: 0 <= i < n ==> pre[i] == outcomes[i];
    }
  }

  /** The four agents are different. */
  lemma AgentsDistinct()
    ensures forall i, j :: 0 <= i < j < |Agents| ==> Agents[i] != Agents[j]
  {
  }

  lemma {:induction false} SumConfidenceBounds(outcomes: seq<AgentOutcome>)
    requires forall i :: 0 <= i < |outcomes| ==> 0.0 <= ReportOf(outcomes[i]).confidence <= 1.0
    ensures 0.0 <= SumConfidence(outcomes) <= |outcomes| as real
  {
    if |outcomes| > 0 {
      var pre := outcomes[..|outcomes| - 1];
      assert forall i :: 0 <= i < |pre| ==> pre[i] == outcomes[i];
      SumConfidenceBounds(pre);
    }
  }

  /** Replacing one outcome changes the sum by the difference of the two confidences. */
  lemma {:induction false} SumConfidenceReplace(outcomes: seq<AgentOutcome>, i: nat, o: AgentOutcome)
    requires i < |outcomes|
    ensures SumConfidence(outcomes[i := o])
      == SumConfidence(outcomes) - ReportOf(outcomes[i]).confidence + ReportOf(o).confidence
  {
    var n := |outcomes| - 1;
    var changed := outcomes[i := o];
    if i < n {
      SumConfidenceReplace(outcomes[..n], i, o);
      assert changed[..n] == outcomes[..n][i := o];
    } else {
      assert changed[..n] == outcomes[..n];
    }
  }

  /** With confidences in [0, 1], the overall confidence is in [0, 1] and the
      record is verified exactly when it reaches 0.8. */
  lemma VerdictBounds(outcomes: seq<AgentOutcome>)
    requires |outcomes| == |Agents|
    requires forall i :: 0 <= i < |outcomes| ==> 0.0 <= ReportOf(outcomes[i]).confidence <= 1.0
    ensures 0.0 <= Verdict(outcomes).overallConfidence <= 1.0
    ensures Verdict(outcomes).isVerified <==> Verdict(outcomes).overallConfidence >= 0.8
    ensures Verdict(outcomes).overallConfidence == SumConfidence(outcomes) / 4.0
  {
    SumConfidenceBounds(outcomes);
  }

  /** Failure isolation: when one agent raises instead, its entry becomes a
      failed report with confidence 0, every other agent's entry is unchanged,
      and the overall confidence loses exactly that agent's share. */
  lemma FailureIsolation(outcomes: seq<AgentOutcome>, i: nat, fault: string)
    requires |outcomes| == |Agents| && i < |Agents|
    ensures var before := Verdict(outcomes);
      var after := Verdict(outcomes[i := Raised(fault)]);
      && after.agentResults[Agents[i]] == AgentReport(0.0, Failed, Some(fault))
      && (forall j :: 0 <= j < |Agents| && j != i ==> after.agentResults[Agents[j]] == before.agentResults[Agents[j]])
      && after.overallConfidence == before.overallConfidence - ReportOf(outcomes[i]).confidence / 4.0
  {
    var changed := outcomes[i := Raised(fault)];
    ResultsMapAt(outcomes);
    ResultsMapAt(changed);
    SumConfidenceReplace(outcomes, i, Raised(fault));
  }

  /** The verdict of the four agents on a record: each agent entry is the
      report for its own confidence in (0, 1], the overall confidence is
      their mean and lies in (0, 1], and the record is verified exactly when
      it reaches 0.8. */
  lemma VerificationOfRecord(plan: RawPlan)
    ensures var v := VerificationOf(plan);
      && (forall i :: 0 <= i < |Agents| ==>
            v.agentResults[Agents[i]] == CheckedReport(AgentConfidence(Agents[i], plan)))
      && 0.0 < v.overallConfidence <= 1.0
      && (v.isVerified <==> v.overallConfidence >= 0.8)
  {
    var os := AgentOutcomes(plan);
    ResultsMapAt(os);
    VerdictBounds(os);
    assert SumConfidence(os) > 0.0 by {
      assert os[..1][..0] == [];
      assert SumConfidence(os[..1]) > 0.0;
      SumConfidenceBounds(os[1..]);
      SumSplit(os, 1);
    }
  }

  /** The sum over a list splits at any point. */
  lemma {:induction false} SumSplit(outcomes: seq<AgentOutcome>, k: nat)
    requires k <= |outcomes|
    ensures SumConfidence(outcomes) == SumConfidence(outcomes[..k]) + SumConfidence(outcomes[k..])
  {
    if k < |outcomes| {
      var n := |outcomes| - 1;
      SumSplit(outcomes[..n], k);
      assert outcomes[..n][..k] == outcomes[..k];
      assert outcomes[k..][..|outcomes[k..]| - 1] == outcomes[..n][k..];
    } else {
      assert outcomes[k..] == [];
      assert outcomes[..k] == outcomes;
    }
  }

  // ---------------------------------------------------------------------
  // The verification system object

  class VerificationSystem {
    const agents: seq<Agent> := Agents
    const verificationThreshold: real := VerificationThreshold

    constructor ()
    {
    }

    /** Premium inside the tier's band, and premium at most half the deductible. */
    method VerifyPricing(plan: RawPlan) returns (r: AgentReport)
      ensures r == CheckedReport(PricingConfidence(plan))
      ensures r.status == Verified <==> !PremiumOutOfBand(plan) && !PremiumHighForDeductible(plan)
    {
      var premium := GetOr(plan.monthlyPremiumBase, 0.0);
      var deductible := GetOr(plan.annualDeductibleIndividual, 0.0);
      var metalTier := GetOr(plan.metalTier, "");
      var confidence := 1.0;
      if metalTier in TierPremiumBands {
        var (minPremium, maxPremium) := TierPremiumBands[metalTier];
        if !(minPremium <= premium <= maxPremium) {
          confidence := confidence * 0.7;
        }
      }
      if premium > 0.0 && deductible > 0.0 {
        var ratio := premium / deductible;
        if ratio > 0.5 {
          confidence := confidence * 0.8;
        }
      }
      r := CheckedReport(confidence);
    }

    /** Required fields present, and primary care no dearer than a specialist. */
    method VerifyCoverage(plan: RawPlan) returns (r: AgentReport)
      ensures r == CheckedReport(CoverageConfidence(plan))
      ensures r.status == Verified <==> !RequiredFieldMissing(plan) && !CopaysInverted(plan)
    {
      var confidence := 1.0;
      var missingFields := [];
      if !TextGiven(plan.planType) {
        missingFields := missingFields + ["plan_type"];
      }
      if !TextGiven(plan.metalTier) {
        missingFields := missingFields + ["metal_tier"];
      }
      if !NumberGiven(plan.primaryCareCopay) {
        missingFields := missingFields + ["primary_care_copay"];
      }
      if |missingFields| > 0 {
        confidence := confidence * 0.6;
      }
      var primaryCopay := GetOr(plan.primaryCareCopay, 0.0);
      var specialistCopay := GetOr(plan.specialistCopay, 0.0);
      if primaryCopay > specialistCopay {
        confidence := confidence * 0.8;
      }
      r := CheckedReport(confidence);
    }

    /** A network below 100 providers is suspicious, one above 50000 slightly so. */
    method VerifyNetwork(plan: RawPlan) returns (r: AgentReport)
      ensures r == CheckedReport(NetworkConfidence(plan))
      ensures r.status == Verified <==> NetworkSize(plan) >= 100.0
    {
      var confidence := 1.0;
      var networkSize := GetOr(plan.estimatedProvidersCount, 0.0);
      if networkSize < 100.0 {
        confidence := confidence * 0.7;
      } else if networkSize > 50000.0 {
        confidence := confidence * 0.9;
      }
      r := CheckedReport(confidence);
    }

    /** Ratings on the 1..5 scale; a rating above 4.5 is slightly suspicious. */
    method VerifyQuality(plan: RawPlan) returns (r: AgentReport)
      ensures r == CheckedReport(QualityConfidence(plan))
      ensures r.status == Verified <==>
        !OutsideRatingScale(QualityRating(plan)) && !OutsideRatingScale(SatisfactionScore(plan))
    {
      var confidence := 1.0;
      var qualityRating := GetOr(plan.qualityRating, 0.0);
      var satisfactionScore := GetOr(plan.customerSatisfactionScore, 0.0);
      if qualityRating < 1.0 || qualityRating > 5.0 {
        confidence := confidence * 0.5;
      } else if qualityRating > 4.5 {
        confidence := confidence * 0.9;
      }
      if satisfactionScore < 1.0 || satisfactionScore > 5.0 {
        confidence := confidence * 0.5;
      }
      r := CheckedReport(confidence);
    }

    /** Runs one agent and captures what it produced. */
    method RunAgent(agent: Agent, plan: RawPlan) returns (outcome: AgentOutcome)
      ensures outcome == Completed(CheckedReport(AgentConfidence(agent, plan)))
    {
      var report: AgentReport;
      match agent {
        case PriceAgent => report := VerifyPricing(plan);
        case CoverageAgent => report := VerifyCoverage(plan);
        case NetworkAgent => report := VerifyNetwork(plan);
        case QualityAgent => report := VerifyQuality(plan);
      }
      outcome := Completed(report);
    }

    /** Runs every agent in order, records each report (a failed agent as
        confidence 0), and averages the confidences. */
    method VerifyPlanData(plan: RawPlan) returns (v: VerificationResult)
      ensures v == VerificationOf(plan)
      ensures 0.0 < v.overallConfidence <= 1.0
      ensures v.isVerified <==> v.overallConfidence >= 0.8
    {
      var verificationResults: map<Agent, AgentReport> := map[];
      var overallConfidence := 0.0;
      ghost var outcomes: seq<AgentOutcome> := [];
      for i := 0 to |agents|
        invariant outcomes == AgentOutcomes(plan)[..i]
        invariant verificationResults == ResultsMap(outcomes)
        invariant overallConfidence == SumConfidence(outcomes)
      {
        var outcome := RunAgent(agents[i], plan);
        var result := ReportOf(outcome);
        verificationResults := verificationResults[agents[i] := result];
        overallConfidence := overallConfidence + result.confidence;
        outcomes := outcomes + [outcome];
        assert outcomes[..i] == AgentOutcomes(plan)[..i];
      }
      assert outcomes == AgentOutcomes(plan);
      overallConfidence := overallConfidence / (|agents| as real);
      v := VerificationResult(overallConfidence, overallConfidence >= verificationThreshold, verificationResults);
      VerificationOfRecord(plan);
    }
  }

  /** A consistent Gold record, fresh, with a 4.6 quality rating: only the
      quality agent applies a penalty (0.9), so the mean is 0.975 and the
      record is verified. */
  lemma ConsistentGoldRecordIsVerified()
    ensures var plan := RawPlan(
        planId := Some(1), monthlyPremiumBase := Some(550.0), annualDeductibleIndividual := Some(2000.0),
        outOfPocketMaxIndividual := None, primaryCareCopay := Some(20.0), specialistCopay := Some(40.0),
        metalTier := Some("Gold"), hsaEligible := Some(true), coversTelehealth := Some(true),
        estimatedProvidersCount := Some(12000.0), qualityRating := Some(4.6),
        customerSatisfactionScore := Some(4.2), lastScrapedDaysOld := Some(0), planType := Some("PPO"));
      VerificationOf(plan).overallConfidence == 0.975 && VerificationOf(plan).isVerified
  {
    var plan := RawPlan(
        planId := Some(1), monthlyPremiumBase := Some(550.0), annualDeductibleIndividual := Some(2000.0),
        outOfPocketMaxIndividual := None, primaryCareCopay := Some(20.0), specialistCopay := Some(40.0),
        metalTier := Some("Gold"), hsaEligible := Some(true), coversTelehealth := Some(true),
        estimatedProvidersCount := Some(12000.0), qualityRating := Some(4.6),
        customerSatisfactionScore := Some(4.2), lastScrapedDaysOld := Some(0), planType := Some("PPO"));
    var os := AgentOutcomes(plan);
    assert PricingConfidence(plan) == 1.0;
    assert CoverageConfidence(plan) == 1.0;
    assert NetworkConfidence(plan) == 1.0;
    assert QualityConfidence(plan) == 0.9;
    assert ReportOf(os[0]).confidence == 1.0 && ReportOf(os[1]).confidence == 1.0;
    assert ReportOf(os[2]).confidence == 1.0 && ReportOf(os[3]).confidence == 0.9;
    assert os[..1][..0] == [] && os[..2][..1] == os[..1] && os[..3][..2] == os[..2] && os[..4][..3] == os[..3];
    assert SumConfidence(os[..1]) == 1.0;
    assert SumConfidence(os[..2]) == 2.0;
    assert SumConfidence(os[..3]) == 3.0;
    assert SumConfidence(os[..4]) == 3.9;
    assert os[..4] == os;
  }

  /** A Gold record without a plan type and with a small network: its four
      confidences (1, 0.6, 0.7, 0.9) sum to exactly 3.2 over the reals, so
      the overall is exactly the threshold and the record is verified. */
  lemma ThresholdTieRecordIsVerified()
    ensures var plan := RawPlan(
        planId := Some(2), monthlyPremiumBase := Some(550.0), annualDeductibleIndividual := Some(2000.0),
        outOfPocketMaxIndividual := None, primaryCareCopay := Some(20.0), specialistCopay := Some(40.0),
        metalTier := Some("Gold"), hsaEligible := None, coversTelehealth := None,
        estimatedProvidersCount := Some(50.0), qualityRating := Some(4.6),
        customerSatisfactionScore := Some(4.2), lastScrapedDaysOld := None, planType := None);
      VerificationOf(plan).overallConfidence == 0.8 && VerificationOf(plan).isVerified
  {
    var plan := RawPlan(
        planId := Some(2), monthlyPremiumBase := Some(550.0), annualDeductibleIndividual := Some(2000.0),
        outOfPocketMaxIndividual := None, primaryCareCopay := Some(20.0), specialistCopay := Some(40.0),
        metalTier := Some("Gold"), hsaEligible := None, coversTelehealth := None,
        estimatedProvidersCount := Some(50.0), qualityRating := Some(4.6),
        customerSatisfactionScore := Some(4.2), lastScrapedDaysOld := None, planType := None);
    var os := AgentOutcomes(plan);
    assert PricingConfidence(plan) == 1.0;
    assert CoverageConfidence(plan) == 0.6;
    assert NetworkConfidence(plan) == 0.7;
    assert QualityConfidence(plan) == 0.9;
    assert ReportOf(os[0]).confidence == 1.0 && ReportOf(os[1]).confidence == 0.6;
    assert ReportOf(os[2]).confidence == 0.7 && ReportOf(os[3]).confidence == 0.9;
    assert os[..1][..0] == [] && os[..2][..1] == os[..1] && os[..3][..2] == os[..2] && os[..4][..3] == os[..3];
    assert SumConfidence(os[..1]) == 1.0;
    assert SumConfidence(os[..2]) == 1.6;
    assert SumConfidence(os[..3]) == 2.3;
    assert SumConfidence(os[..4]) == 3.2;
    assert os[..4] == os;
  }
}
