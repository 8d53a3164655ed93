/** Values shared by the recommendation, verification and comparison engines:
    the loosely typed plan record, the user profile, and the truthiness tests
    the engines apply to record fields. */
module PlanData {

  datatype Option<+T> = None | Some(value: T)

  /** The value of an optional field, or the default a lookup falls back to. */
  function GetOr<T>(o: Option<T>, default: T): T
  {
    match o
    case Some(v) => v
    case None => default
  }

  /** A raw plan record as fetched from the catalog. Every field may be absent
      (None). Plan ids are integers; the freshness timestamp is given as the
      whole number of days between the current time and `last_scraped_at`,
      None when the timestamp is absent, empty or unparsable. */
  datatype RawPlan = RawPlan(
    planId: Option<int>,
    monthlyPremiumBase: Option<real>,
    annualDeductibleIndividual: Option<real>,
    outOfPocketMaxIndividual: Option<real>,
    primaryCareCopay: Option<real>,
    specialistCopay: Option<real>,
    metalTier: Option<string>,
    hsaEligible: Option<bool>,
    coversTelehealth: Option<bool>,
    estimatedProvidersCount: Option<real>,
    qualityRating: Option<real>,
    customerSatisfactionScore: Option<real>,
    lastScrapedDaysOld: Option<int>,
    planType: Option<string>
  )

  /** The user profile; `priorityFactors` may be None, as its default is. */
  datatype UserProfile = UserProfile(
    age: int,
    income: int,
    householdSize: int,
    healthConditions: seq<string>,
    preferredPlanType: Option<string>,
    budgetRange: Option<(real, real)>,
    priorityFactors: Option<seq<string>>,
    location: string,
    tobaccoUser: bool
  )

  /** A health-condition list is truthy when it is not empty. */
  predicate HasConditions(p: UserProfile)
  {
    |p.healthConditions| > 0
  }

  /** The plan id when it is truthy (present and not 0), None otherwise. */
  function PlanKey(plan: RawPlan): (k: Option<int>)
    ensures k.Some? <==> plan.planId.Some? && plan.planId.value != 0
    ensures k.Some? ==> plan.planId == k
  {
    if plan.planId.Some? && plan.planId.value != 0 then plan.planId else None
  }

  /** Truthiness of an optional flag: only a present `true` counts. */
  predicate IsSet(flag: Option<bool>)
  {
    flag == Some(true)
  }

  /** Truthiness of an optional number: present and not zero. */
  predicate NumberGiven(n: Option<real>)
  {
    n.Some? && n.value != 0.0
  }

  /** Truthiness of an optional text: present and not empty. */
  predicate TextGiven(s: Option<string>)
  {
    s.Some? && s.value != ""
  }

  function Max(a: real, b: real): real
  {
    if a >= b then a else b
  }

  function Min(a: real, b: real): real
  {
    if a <= b then a else b
  }
}
