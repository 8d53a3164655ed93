/** Preference weights derived from a user profile. */
module Preferences {
  import opened PlanData

  /** The four weights of the compatibility score; nothing makes them sum to 1. */
  datatype Weights = Weights(premium: real, coverage: real, quality: real, convenience: real)

  /** The profile lists the priority factor (a None list lists nothing). */
  predicate HasPriority(p: UserProfile, factor: string)
  {
    p.priorityFactors.Some? && factor in p.priorityFactors.value
  }

  /** Each weight is the value of the LAST override rule that touches it and
      whose condition holds, or its base value when none does. The rules, in
      order: low income, high income, age over 60, health conditions,
      tobacco, then the three explicit priorities. */
  function PreferenceWeights(p: UserProfile): (w: Weights)
    ensures 0.1 <= w.premium <= 0.6 && 0.2 <= w.coverage <= 0.6
    ensures w.quality in {0.2, 0.4} && w.convenience in {0.2, 0.4}
    ensures 0.7 <= w.premium + w.coverage + w.quality + w.convenience <= 2.0
    ensures HasPriority(p, "low_premium") ==> w.premium == 0.6
    ensures HasPriority(p, "good_coverage") || HasConditions(p) ==> w.coverage == 0.6
  {
    Weights(
      premium :=
        if HasPriority(p, "low_premium") then 0.6
        else if p.tobaccoUser then 0.4
        else if HasConditions(p) || p.age > 60 || p.income > 100000 then 0.1
        else if p.income < 30000 then 0.5
        else 0.3,
      coverage :=
        if HasPriority(p, "good_coverage") || HasConditions(p) then 0.6
        else if p.age > 60 then 0.5
        else if p.income < 30000 then 0.2
        else 0.3,
      quality := if p.income > 100000 then 0.4 else 0.2,
      convenience := if HasPriority(p, "hsa_eligible") then 0.4 else 0.2)
  }

  /** A low-income young profile without conditions or priorities only gets
      the low-income override, and its weights then sum to 1.1, not 1. */
  lemma LowIncomeWeightsAreNotNormalised(p: UserProfile)
    requires p.income == 20000 && p.age == 25 && !HasConditions(p) && !p.tobaccoUser
    requires p.priorityFactors.None?
    ensures PreferenceWeights(p) == Weights(0.5, 0.2, 0.2, 0.2)
    ensures var w := PreferenceWeights(p); w.premium + w.coverage + w.quality + w.convenience == 1.1
  {
  }
}
