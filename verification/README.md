# Health-plan recommendation, verification and comparison

This Dafny project models the core of the plan-matching service in
`ml/recommendation_engine.py`. The service has three parts:

- **The recommendation engine.** It turns raw plan records into plan features keyed by
  plan id, derives four preference weights from a user profile, and scores each plan.
  It ranks the plans by score with a stable sort. The first `top_k` plans become
  recommendations, each with a rounded compatibility score, its match reasons and an
  audience label.
- **The multi-agent verification system.** Four independent agents check a record's
  pricing, coverage, network and quality fields. Each agent multiplies a confidence that
  starts at 1. The record is verified when the mean confidence reaches 0.8. An agent that
  fails is recorded as confidence 0 with status "failed".
- **The comparison engine.** It recommends every plan of a batch and verifies each
  recommended record. It then summarises the verified list: price extremes and mean, best
  and mean score with the first best plan, metal tiers, feature counts, verified count and
  mean confidence, and three advice lines.

Modules, one file each:

| Module | File | Contents |
|---|---|---|
| `PlanData` | `plan_data.dfy` | The raw record, the user profile and the truthiness tests. |
| `Features` | `features.dfy` | Feature extraction, as specification functions. |
| `Preferences` | `preferences.dfy` | The preference weights. |
| `Scoring` | `scoring.dfy` | The score, match reasons, audience label, rounding, ranking and the top-k list. |
| `Engine` | `engine.dfy` | The stateful `RecommendationEngine` class. |
| `Verification` | `verification.dfy` | The agents, the verdict and the `VerificationSystem` class. |
| `Comparison` | `comparison.dfy` | The insights and the `ComparisonEngine` class. |

How the Python is represented:

- **Records.** A record is a datatype whose fields are all `Option`s. `None` stands for a
  missing key, and lookups fall back to the same defaults the code uses.
- **Truthiness.** A truthy plan id is present and not 0. A truthy flag is a present
  `true`. A truthy number is present and non-zero. A truthy text is present and non-empty.
- **Methods and specification functions.** Methods that loop or overwrite state are Dafny
  methods. Each one is proved equal to a specification function, and the properties are
  proved about those functions.

Two behaviours of the code are followed even though its comments suggest otherwise:

- **Freshness can exceed 1.** A `last_scraped_at` in the future gives a negative age, so
  `data_freshness` is above 1, although line 76 describes it as lying in 0..1.
- **The "no plans" marker.** The comparison returns the "No plans to compare" marker
  whenever no record has a truthy plan id, not only when the input batch is empty.

## Model

| member | source | states |
|---|---|---|
| PlanData.PlanKey | ml/recommendation_engine.py:65-67 | a record takes part exactly when its plan id is present and non-zero, and then it is keyed by that id |
| Features.MetalTierScore | ml/recommendation_engine.py:70-74 | tier score is one of 0.5, 1, 2, 3, 4; it is 1.0 exactly for a missing (read as Bronze) or unknown tier; Gold gives 3, Catastrophic 0.5 |
| Features.Freshness | ml/recommendation_engine.py:76-86 | 0.5 without a timestamp; never negative; at most 1 for a non-negative age; 1 − days/30 within 30 days; 0 from 30 days on |
| Features.FreshnessNonIncreasing | ml/recommendation_engine.py:82 | an older record is never fresher |
| Features.FeaturesOf | ml/recommendation_engine.py:88-102 | features carry the record's id; every numeric field carries its present value or its default (premium, deductible, out-of-pocket maximum and both copays 0, network 1000, quality and satisfaction 3.0); each flag is true exactly for a present true; the tier score is the tier table's value; the freshness is that of the timestamp (0.5 when absent) |
| Features.ExtractedFeatures | ml/recommendation_engine.py:62-105 | every key of the feature map is a non-zero id whose features carry that id |
| Features.ExtractedKeys | ml/recommendation_engine.py:64-88 | the keys are exactly the truthy plan ids of the batch |
| Features.ExtractedKeepsLastRecord | ml/recommendation_engine.py:64-102 | a duplicated id keeps the features of its last record |
| Engine.RecommendationEngine.constructor | ml/recommendation_engine.py:53-56 | a new engine holds an empty feature map |
| Engine.RecommendationEngine.ExtractPlanFeatures | ml/recommendation_engine.py:60-105 | the loop builds exactly the extracted feature map and stores it in the engine's field |
| Engine.RecommendationEngine.CalculateUserPreferences | ml/recommendation_engine.py:107-144 | the overrides give the "last applicable rule wins" weights; quality is 0.4 iff income > 100000; convenience is 0.4 iff hsa_eligible is a priority; low_premium forces premium 0.6 and good_coverage forces coverage 0.6; an absent priority list acts as an empty one; premium in [0.1, 0.6], coverage in [0.2, 0.6] |
| Preferences.LowIncomeWeightsAreNotNormalised | ml/recommendation_engine.py:109-119 | a young low-income profile gets weights 0.5/0.2/0.2/0.2, which sum to 1.1 |
| Preferences.PreferenceWeights | ml/recommendation_engine.py:107-144 | premium in [0.1, 0.6], coverage in [0.2, 0.6], quality and convenience each 0.2 or 0.4, the four summing to between 0.7 and 2.0 (not normalised); the low_premium priority forces premium 0.6; the good_coverage priority or any health condition forces coverage 0.6 |
| Scoring.PremiumScore | ml/recommendation_engine.py:150 | the premium score is never negative, at most 1 for a non-negative premium, and 0 from 1000 on |
| Scoring.Score | ml/recommendation_engine.py:146-170 | a plan whose data has fully decayed scores 0 |
| Scoring.ScoreNonNegative | ml/recommendation_engine.py:146-170 | with non-negative weights and features the score is non-negative |
| Scoring.PremiumScoreNonIncreasing | ml/recommendation_engine.py:150 | a higher premium never has a higher premium score |
| Scoring.ScoreNonIncreasingInPremium | ml/recommendation_engine.py:150-168 | raising the premium never raises the score |
| Scoring.MatchReasons | ml/recommendation_engine.py:213-235 | a reason is listed exactly when its condition holds, in evaluation order, at most six |
| Scoring.MatchReasonsUnfold | ml/recommendation_engine.py:213-235 | the list is the six conditional appends in source order |
| Engine.RecommendationEngine.GetMatchReasons | ml/recommendation_engine.py:213-235 | the appends produce exactly the reasons whose conditions hold, in order |
| Scoring.RecommendationReason | ml/recommendation_engine.py:237-252 | the budget label exactly for age < 30 with income < 40000; the HSA label only for a high earner whose record is HSA-eligible; the balanced label exactly when none of the four earlier branches holds |
| Scoring.RecommendationReasonIsFirstMatch | ml/recommendation_engine.py:237-252 | the label is that of the first branch of the chain whose condition holds |
| Scoring.RoundMillis | ml/recommendation_engine.py:205 | the result has at most three decimals and lies within 0.0005 of the score |
| Scoring.RoundMillisMonotone | ml/recommendation_engine.py:205 | rounding keeps the order of scores |
| Scoring.InsertIsPermutation | ml/recommendation_engine.py:199 | inserting keeps every element (multiset) and adds the new one once |
| Scoring.InsertKeepsRanking | ml/recommendation_engine.py:199 | inserting into a ranked list keeps it ranked |
| Scoring.SortByScoreDesc | ml/recommendation_engine.py:199 | the sort keeps the length and puts one of its entries first |
| Scoring.SortIsRankedPermutation | ml/recommendation_engine.py:199 | the sort is a permutation of its input whose scores are non-increasing |
| Scoring.InsertKeepsPlans | ml/recommendation_engine.py:199 | inserting keeps the records of the entries and adds the new entry's record once |
| Scoring.SortKeepsPlans | ml/recommendation_engine.py:199 | the sort ranks the same records, each as often as in its input |
| Scoring.SortKeepsTieOrder | ml/recommendation_engine.py:199 | the sort is stable: plans with equal scores keep their input order |
| Scoring.ScoredPlans | ml/recommendation_engine.py:182-196 | at most one entry per record of the batch |
| Scoring.ScoredPlansFrom | ml/recommendation_engine.py:182-196 | every scored entry comes from a record of the batch with its id's score and reasons |
| Scoring.KeyedRecordsFromBatch | ml/recommendation_engine.py:64-67 | the records with a truthy plan id are records of the batch, and there are no more of them than records |
| Scoring.ScoredPlansComplete | ml/recommendation_engine.py:182-196 | against a map keyed by exactly the truthy plan ids, the scored records are exactly the keyed records, each once per occurrence, in input order |
| Scoring.ExtractedScorable | ml/recommendation_engine.py:184-185 | against its own feature map, a record is scored exactly when its plan id is truthy |
| Scoring.SliceEnd | ml/recommendation_engine.py:202 | the end of `[:top_k]` never exceeds the list length |
| Scoring.Recommend | ml/recommendation_engine.py:172-211 | never more recommendations than records; none for top_k 0 |
| Scoring.RecommendLength | ml/recommendation_engine.py:172-211 | a non-negative top_k gives min(top_k, number of keyed records) recommendations |
| Scoring.RecommendOrdered | ml/recommendation_engine.py:198-209 | compatibility scores are non-increasing along the list |
| Scoring.RecommendEntries | ml/recommendation_engine.py:183-208 | each recommendation carries its own record, the rounded score and reasons of that id's features, and the label for the record |
| Scoring.RankedIsKeyedRecords | ml/recommendation_engine.py:182-199 | the ranking holds exactly the records with a truthy plan id, each as often as in the batch |
| Scoring.RecommendIsTopK | ml/recommendation_engine.py:198-202 | the recommendations are the first entries of that ranking (the `[:top_k]` cut), and every ranked entry left out scores no higher than any entry listed |
| Engine.RecommendationEngine.GetRecommendations | ml/recommendation_engine.py:172-211 | the method returns exactly the top-k list and leaves the batch's feature map in the engine |
| Verification.CheckedReport | ml/recommendation_engine.py:321-325 | an agent's status is "verified" exactly when its confidence exceeds 0.8, else "flagged" |
| Verification.ReportOf | ml/recommendation_engine.py:272-283 | a raised fault is recorded as confidence 0, status failed, with its text |
| Verification.PricingConfidence | ml/recommendation_engine.py:293-325 | pricing confidence is one of 1, 0.7, 0.8, 0.56 |
| Verification.CoverageConfidence | ml/recommendation_engine.py:327-349 | coverage confidence is one of 1, 0.6, 0.8, 0.48 |
| Verification.NetworkConfidence | ml/recommendation_engine.py:351-366 | network confidence is one of 1, 0.7, 0.9 |
| Verification.QualityConfidence | ml/recommendation_engine.py:368-388 | quality confidence is one of 1, 0.5, 0.9, 0.25, 0.45 |
| Verification.AgentConfidence | ml/recommendation_engine.py:258-263 | every agent's confidence lies in (0, 1] |
| Verification.AgentOutcomes | ml/recommendation_engine.py:258-263 | one outcome per agent |
| Verification.ResultsMap | ml/recommendation_engine.py:271-283 | every agent run so far has an entry |
| Verification.ResultsMapAt | ml/recommendation_engine.py:271-283 | the entry of the i-th agent is the report of the i-th outcome, and only agents that ran have entries |
| Verification.SumConfidenceReplace | ml/recommendation_engine.py:275 | replacing one outcome changes the sum by the difference of the two confidences |
| Verification.Verdict | ml/recommendation_engine.py:284-290 | a record is verified exactly when the four confidences sum to at least 3.2 |
| Verification.VerdictBounds | ml/recommendation_engine.py:285-290 | overall confidence is the sum over 4, lies in [0, 1], and is_verified holds iff it reaches 0.8 |
| Verification.FailureIsolation | ml/recommendation_engine.py:271-283 | an agent that raises gets a failed report with confidence 0, every other entry is unchanged, and the overall loses exactly that agent's share |
| Verification.VerificationOfRecord | ml/recommendation_engine.py:266-291 | each agent entry is the report for its own confidence; the overall lies in (0, 1]; verified iff it reaches 0.8 |
| Verification.ConsistentGoldRecordIsVerified | ml/recommendation_engine.py:293-388 | a consistent Gold PPO record rated 4.6 scores 0.975 overall and is verified |
| Verification.ThresholdTieRecordIsVerified | ml/recommendation_engine.py:266-291 | a Gold record without a plan type and with 50 providers scores exactly 0.8 overall over the reals and is verified |
| Verification.VerificationSystem.VerifyPricing | ml/recommendation_engine.py:293-325 | the sequential penalties give the pricing confidence; verified iff the premium is within the tier's band and at most half the deductible (when both are positive) |
| Verification.VerificationSystem.VerifyCoverage | ml/recommendation_engine.py:327-349 | the sequential penalties give the coverage confidence; verified iff no required field is falsy and primary care costs no more than a specialist |
| Verification.VerificationSystem.VerifyNetwork | ml/recommendation_engine.py:351-366 | the network confidence; verified iff the network has at least 100 providers |
| Verification.VerificationSystem.VerifyQuality | ml/recommendation_engine.py:368-388 | the quality confidence; verified iff both ratings are on the 1..5 scale |
| Verification.VerificationSystem.RunAgent | ml/recommendation_engine.py:271-274 | running an agent completes with that agent's report |
| Verification.VerificationSystem.VerifyPlanData | ml/recommendation_engine.py:266-291 | the loop produces the verdict of the four agents; overall in (0, 1]; verified iff it reaches 0.8 |
| Comparison.MinOf | ml/recommendation_engine.py:440 | the minimum is an element and bounds every element from below |
| Comparison.MaxOf | ml/recommendation_engine.py:441 | the maximum is an element and bounds every element from above |
| Comparison.MeanBetweenExtremes | ml/recommendation_engine.py:440-443 | the mean lies between the minimum and the maximum |
| Comparison.CountIf | ml/recommendation_engine.py:452-456 | a count is at most the list length; it equals it iff every entry qualifies and is 0 iff none does |
| Comparison.FirstBest | ml/recommendation_engine.py:448 | the recommended plan has the largest score and every entry before it scores strictly less (first maximum) |
| Comparison.ComparisonInsights | ml/recommendation_engine.py:427-431 | the "no plans" marker is returned exactly for an empty list |
| Comparison.InsightsOfList | ml/recommendation_engine.py:434-463 | cheapest ≤ average ≤ dearest, range ≥ 0, the recommended plan is in the list with the best score ≥ mean score, counts ≤ list length, every tier listed is some entry's tier, advice line 3 follows the health conditions |
| Comparison.MeanConfidenceBounds | ml/recommendation_engine.py:457 | with confidences in [0, 1] the mean confidence is in [0, 1] |
| Comparison.InsightsOfRankedList | ml/recommendation_engine.py:446-457 | for a ranked list, the recommended plan is the first entry and the mean confidence lies in (0, 1] |
| Comparison.Comparison | ml/recommendation_engine.py:397-425 | the result carries the profile, never more entries than records, and the "no plans" marker exactly when it has no entries |
| Comparison.ComparedEntries | ml/recommendation_engine.py:397-416 | one verified entry per record with a truthy plan id (multiset of records equal to the keyed records), in ranking order, each in the batch and verified by its own record |
| Comparison.ComparedRecords | ml/recommendation_engine.py:397-416 | with top_k the batch size nothing is cut: the entries' records are exactly the keyed records |
| Comparison.ComparedInsights | ml/recommendation_engine.py:397-431 | the marker appears iff no record has a truthy id; otherwise the recommended plan is the top-ranked entry and the mean confidence lies in (0, 1] |
| Comparison.ComparisonEngine.constructor | ml/recommendation_engine.py:393-395 | a new comparison engine owns a fresh recommendation engine and a fresh verification system |
| Comparison.ComparisonEngine.ComparePlans | ml/recommendation_engine.py:397-425 | the loop verifies every recommended record in order and the result is the comparison of the batch |

## Left out

- The wall clock and ISO-8601 parsing. The age of `last_scraped_at` in whole days is an
  input field (`lastScrapedDaysOld`). An absent, empty or unparsable timestamp is `None`.
- Timestamps in results. `verification_timestamp` and `comparison_timestamp` are not in
  the result datatypes.
- Floating point. Arithmetic is exact over reals.
- Scoring.RoundMillis: rounds half to even at the third decimal of the exact value. It
  does not reproduce `round()` on binary doubles, where a tie such as 0.0005 may not be
  exactly representable.
- Dynamic typing. A key holding `null`, a string, or any other non-numeric value is not
  representable, since `None` means a missing key. So the typed agents never raise, and
  `RunAgent` always completes. The failure path of `verify_plan_data` is modelled in
  `ReportOf`/`Verdict`, and its isolation is proved there.
- Logging of agent failures, and the free-text `details` of agent reports.
- Python's `list(set(...))` order of the metal tiers. It is a `set` here.
- The text of match reasons, audience labels and advice lines. They are enumerations, with
  `ReasonText`/`AudienceText` giving the strings. Advice line 1 carries the age and income
  instead of formatting them.
- The unused parts of the engine:
  - the TF-IDF vectoriser, the scaler, `user_preferences` and `model_trained`;
  - the unused `user_profile` parameter of the score;
  - the unused `deductibles` list of the insights.
- `create_sample_user_profile` and the example usage at the end of the file.
- The web application and the scrapers (`working_web_app.py`, `scrapers/`). They are not
  part of this model.
- Verification.VerdictBounds, Verification.VerificationOfRecord: the overall confidence is
  summed and compared with 0.8 over exact reals. The source sums IEEE doubles in agent
  order, so five reachable confidence combinations that sum to exactly 3.2 ((1, 0.6, 0.7,
  0.9), (0.7, 0.6, 1, 0.9), (0.7, 0.6, 0.9, 1), (0.8, 0.6, 0.9, 0.9), (0.8, 0.8, 0.7, 0.9))
  come out just below 0.8 in the source and are not verified there, while the model
  verifies them (see `ThresholdTieRecordIsVerified`).
- Scoring.Score: stated through lemmas (non-negativity, monotone in the premium, zero
  when fully decayed). No upper bound is claimed: the convenience score grows with the
  network size and the weights need not sum to 1.
