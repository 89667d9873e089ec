# Transaction risk scoring engine, modelled in Dafny

The system scores card transactions with fixed rules and reaches one of three
decisions: ACCEPTED, IN_REVIEW or REJECTED. The model covers the engine in
`decision_engine.py`:

- the default configuration (`DEFAULT_CONFIG`);
- the night-hour and high-amount predicates;
- the hard-block pre-check;
- the six additive assessors (categorical risks, user reputation, night hour,
  geographic mismatch, amount, latency);
- the frequency buffer;
- the score-to-decision mapping;
- `assess_row`, which composes them into a decision, a risk score and a
  `;`-joined reasons text.

Files:

- `text.dfy` (module `Text`): the string operations the engine relies on.
  - ASCII `lower`/`upper`.
  - `str(int)`.
  - How an amount prints as a Python float.
  - `";".join`.
- `engine_types.dfy` (module `EngineTypes`): the data.
  - The configuration and its default.
  - The transaction record.
  - The reason codes and their exact text.
  - Decisions and results.
- `engine.dfy` (module `Engine`): the rules and `AssessRow`.
- `engine_facts.dfy` (module `EngineFacts`): the properties.
  - A flat reference formula for the score.
  - The score range under the default configuration.
  - Concrete transactions taken from the service's tests.

Modelling choices:

- A transaction is a record in which every absent field already holds the
  default the engine substitutes for it (`DefaultTransaction`).
- Amounts are whole centavos (`amountCents`). A threshold of `N` pesos is
  compared against `100 * N` centavos. The amount in the high-amount reason
  prints as shortest digits with a decimal point (`5200.0`, `0.05`). That is
  what a Python float prints for amounts below 10^15 centavos (at most fifteen
  significant digits). Larger amounts are left out.
- Reasons are a datatype (`Reason`). `Render` produces the exact strings the
  engine writes, and `ReasonsText` joins them with `;`.
- The engine raises no error of its own. Its one failure is a configuration
  in which the product type has no threshold and there is no `"_default"`
  entry either: `high_amount` then compares a float with `None` and Python
  raises. The model returns `Err(MissingAmountThreshold(..))` at that point.
  Under the default configuration this never happens (`DefaultConfigSound`).
- The hard-block reason is the literal `hard_block:chargebacks>=2+ip_high`
  whatever the configured chargeback threshold is (`HardBlockResult`).

## Model

| member | source | states |
|---|---|---|
| Text.LowerChars | decision_engine.py:56 | the lower-cased string has the lower-cased character at every position and no upper-case letter left |
| Text.UpperChars | decision_engine.py:103-104 | the upper-cased string has the upper-cased character at every position and no lower-case letter left |
| Text.LowerIdempotent | decision_engine.py:73 | lower-casing an already lower-cased value changes nothing |
| Text.LowerNoUpper | decision_engine.py:73 | a value without upper-case letters is its own lower-casing, so lower-case table keys match as written |
| Text.LowerIgnoresCase | decision_engine.py:73 | a value and its upper-cased form lower-case to the same key |
| Text.NatToString | decision_engine.py:98 | the decimal text of a count is non-empty, all digits, and has no leading zero |
| Text.ParseNatToString | decision_engine.py:98 | the decimal text of a natural number reads back as that number |
| Text.IntToString | decision_engine.py:89 | the text of an integer starts with '-' exactly when it is negative |
| Text.ParseIntToString | decision_engine.py:89 | the signed decimal text of any integer reads back as that integer |
| Text.WholeAmountToString | decision_engine.py:123 | a whole number of pesos prints as its digits followed by ".0" |
| Text.CentsText | decision_engine.py:123 | the digits after the point never end in a superfluous zero, and they read back as the centavos |
| Text.ParseAmountToString | decision_engine.py:123 | every amount prints as digits, a point and one or two digits, after a minus sign for negatives, and reads back as the same centavos; so no two amounts print alike |
| Text.FractionalAmounts | decision_engine.py:123 | 0.05, 1.5, -1.5 and 1234.56 pesos print as "0.05", "1.5", "-1.5" and "1234.56" |
| Text.Join | decision_engine.py:191 | the joined text has the parts' total length plus one separator between neighbours, and starts with the first part |
| Text.JoinSnoc | decision_engine.py:191 | one more part after a non-empty list adds the separator and then that part at the end |
| Text.JoinEmptyIff | decision_engine.py:191 | joining non-empty reasons gives the empty text exactly when there are no reasons |
| EngineTypes.ReasonsTextSnoc | decision_engine.py:191 | one more reason after a non-empty list adds ";" and its rendering at the end of the reasons text |
| EngineTypes.DecisionNamesDistinct | decision_engine.py:5-7 | the three decisions are written as three different words |
| EngineTypes.Render | decision_engine.py:54-149 | every reason text is non-empty and starts with its kind's tag ("ip_risk:", "user_reputation:", "night_hour:", "geo_mismatch:", "high_amount:", "new_user_high_amount(", "latency_extreme:", "frequency_buffer(", "hard_block:"); every one but the hard-block literal ends with ")" |
| EngineTypes.SumContributionsAppend | decision_engine.py:180-182 | the points the reasons stand for add up across a concatenation |
| Engine.IsNight | decision_engine.py:47-48 | night is an hour of 22 or more, or of 5 or less; NightHoursOfDay and NightBoundsInclusive state which hours of the day that is |
| Engine.IsHighAmount | decision_engine.py:50-52 | the comparison uses the product type's threshold, else the "_default" one, inclusively; it errs exactly when neither exists |
| Engine.CheckHardBlock | decision_engine.py:54-60 | blocked exactly when chargebacks reach the threshold and the lower-cased IP risk is "high"; then the single hard-block reason, else none |
| Engine.AssessFields | decision_engine.py:72-78 | the accumulated categorical points equal the points of the reasons emitted, with at most one reason per dimension |
| Engine.AssessFieldsReasonsCategorical | decision_engine.py:76-78 | every categorical reason names a dimension and carries non-zero points |
| Engine.AssessCategoricalRisks | decision_engine.py:62-80 | the points are the three dimensions' weights summed; the reasons are the dimensions' reasons in IP, e-mail, device order |
| Engine.AssessCategoricalRisksLoop | decision_engine.py:62-80 | the loop over the three dimensions computes exactly the categorical assessment |
| Engine.AssessUserReputation | decision_engine.py:82-91 | the points are the weight of the lower-cased reputation (0 when unmapped); when they are non-zero the single reason names that lower-cased reputation and those points, else there is none |
| Engine.AssessTemporalRisk | decision_engine.py:93-100 | night hours add the night points with the single reason naming the hour and those points; other hours add nothing |
| Engine.AssessGeographicalRisk | decision_engine.py:102-110 | a reason exactly when both countries are present and differ after upper-casing; it names the upper-cased card country, then the IP country, and the mismatch points; otherwise 0 points |
| Engine.AssessAmountRisk | decision_engine.py:112-130 | errs exactly when no threshold applies; a reason exactly when the amount is high, led by the high-amount reason naming the lower-cased product type, the amount and the points; a second reason, the new-user bonus with its points, exactly when the user is also new |
| Engine.AssessLatencyRisk | decision_engine.py:132-139 | a reason exactly when latency reaches the extreme threshold, naming the latency and the latency points; otherwise 0 points |
| Engine.Combine | decision_engine.py:180-182 | when every part's reasons account for its points, so do the combined reasons |
| Engine.ApplyFrequencyBuffer | decision_engine.py:141-149 | subtracts one point and appends the buffer reason exactly for an established customer with a positive score; never turns a positive score negative |
| Engine.DetermineDecision | decision_engine.py:151-157 | REJECTED iff the score reaches reject_at; IN_REVIEW iff it reaches review_at but not reject_at; ACCEPTED iff it reaches neither |
| Engine.Assessments | decision_engine.py:171-178 | the six assessments exist exactly when the amount assessor can run, and each one's reasons account for its points |
| Engine.AssessRow | decision_engine.py:159-192 | blocked rows get REJECTED, 100 and the hard-block reason; otherwise it errs exactly when no amount threshold applies, and the score is the sum of its reasons' points with the decision read from that score |
| EngineFacts.NightHoursOfDay | decision_engine.py:47-48 | over the hours 0 to 23, exactly 0 to 5, 22 and 23 are night: eight hours |
| EngineFacts.NightBoundsInclusive | decision_engine.py:47-48 | 5 and 22 are night, 6 and 21 are not |
| EngineFacts.HardBlockResult | decision_engine.py:159-166 | a blocked row is REJECTED with score 100 and reasons text "hard_block:chargebacks>=2+ip_high", whatever the configured threshold |
| EngineFacts.HardBlockIgnoresOtherFields | decision_engine.py:159-166 | any two blocked rows get identical results |
| EngineFacts.HardBlockIgnoresCase | decision_engine.py:56-58 | "HIGH", "High" and "high" all trigger the block |
| EngineFacts.CombineSix | decision_engine.py:180-182 | combining six assessments sums their points and concatenates their reasons in order |
| EngineFacts.NonBlockedComposition | decision_engine.py:168-184 | off the block path the score is the six assessors' points, less one exactly when the buffer fires; the reasons are theirs in rule order, then the buffer reason if it fired |
| EngineFacts.AssessRowFromParts | decision_engine.py:168-192 | for a customer the buffer cannot apply to, the result is built from the six assessments: the summed score, its decision, and the concatenated reasons |
| EngineFacts.CategoricalMatchesReference | decision_engine.py:72-74 | the categorical points are the three table lookups of the lower-cased values |
| EngineFacts.AmountMatchesReference | decision_engine.py:120-128 | with a threshold, the amount points are the high-amount points plus the new-user bonus, each only when its condition holds |
| EngineFacts.RawPointsMatchReference | decision_engine.py:168-182 | the six assessors' points equal the flat reference formula |
| EngineFacts.AssessRowMatchesReference | decision_engine.py:159-192 | off the block path the engine succeeds exactly when the reference formula has a threshold, and then its score and decision are the formula's |
| EngineFacts.DecisionMonotone | decision_engine.py:151-157 | a higher score never gets a milder decision, whatever the thresholds |
| EngineFacts.InvertedThresholdsSkipReview | decision_engine.py:151-157 | when review_at is not below reject_at, IN_REVIEW is never returned |
| EngineFacts.DefaultDecisionBands | decision_engine.py:29-32 | with the default thresholds: below 4 accepted, 4 to 9 in review, 10 and above rejected |
| EngineFacts.BufferSkipsNewAndHighRisk | decision_engine.py:142-145 | the buffer never applies to a user whose lower-cased reputation is "new" or "high_risk" |
| EngineFacts.BufferSkipsCapitalisedNew | decision_engine.py:142-145 | a frequent user whose reputation is spelt "New" gets no buffer either |
| EngineFacts.CategoricalIgnoresCase | decision_engine.py:73-74 | upper-casing the three categorical fields does not change the categorical assessment |
| EngineFacts.ReputationIgnoresCase | decision_engine.py:82-149 | upper-casing the reputation changes neither the reputation points, nor the amount assessment, nor the buffer |
| EngineFacts.ReputationReasonSign | decision_engine.py:87-89 | a positive reputation delta prints "(+N)" and a negative one "(-N)", never "(+-N)" |
| EngineFacts.TrustedReasonText | decision_engine.py:87-89 | the trusted reason prints as "user_reputation:trusted(-2)" |
| EngineFacts.PlusPointsNegative | decision_engine.py:78 | the other reasons always write "(+" before the points, so a negative weight prints "(+-N)" |
| EngineFacts.GeoMismatchSymmetric | decision_engine.py:106 | swapping the two countries does not change the geographic points |
| EngineFacts.GeoMissingCountry | decision_engine.py:106 | a missing country never costs points or gives a reason |
| EngineFacts.HighAmountMonotone | decision_engine.py:50-52 | raising the amount never turns the high-amount flag off |
| EngineFacts.UnknownProductUsesDefault | decision_engine.py:51 | under the default configuration an unknown product type is judged against 4000 pesos |
| EngineFacts.NewUserBonusNeedsHighAmount | decision_engine.py:120-128 | the new-user bonus reason only ever follows the high-amount reason, and only for a new user |
| EngineFacts.DefaultConfigSound | decision_engine.py:9-33 | the default configuration gives every product type a threshold, so every transaction is scored; no flat weight is zero; 0 < review_at < reject_at; no categorical weight is negative |
| EngineFacts.DefaultWeightRanges | decision_engine.py:19-22 | the default categorical and reputation lookups stay within their tables' bounds, and only "high_risk" weighs 4 |
| EngineFacts.DefaultRawRange | decision_engine.py:9-33 | under the default configuration the six assessors' points total between -2 and 22 |
| EngineFacts.DefaultScoreRange | decision_engine.py:9-33 | under the default configuration every non-blocked row is scored, between -2 and 22, so always below the sentinel 100 |
| EngineFacts.AllCarryPointsAppend | decision_engine.py:180-182 | concatenating reason lists whose reasons all carry points keeps that property |
| EngineFacts.AssessorsCarryPoints | decision_engine.py:62-139 | when no flat weight is zero, every reason an assessor emits stands for non-zero points |
| EngineFacts.ReasonsCarryPoints | decision_engine.py:159-192 | when no flat weight is zero, every reason in a scored result stands for non-zero points |
| EngineFacts.AssessorsOmitBuffer | decision_engine.py:62-139 | no assessor emits the buffer reason |
| EngineFacts.BufferReasonLast | decision_engine.py:141-149 | off the block path the reasons end with the buffer reason exactly when the buffer fires |
| EngineFacts.BufferReasonText | decision_engine.py:184-191 | when the buffer fires the reasons text is the rules' text followed by ";frequency_buffer(-1)"; otherwise it is the rules' text alone |
| EngineFacts.BufferTextImitated | decision_engine.py:82-91 | a reputation table key ending in ";frequency_buffer" with weight -1 yields a reason whose text ends like the buffer's, for a customer the buffer skips |
| EngineFacts.NightDigitalPurchaseIsReviewed | tests/test_app.py:33-59 | the night-time digital purchase of 5200 by a new user scores 9 and is IN_REVIEW, with reasons IP +2, e-mail +2, night +1, high amount +2, new user +2 |
| EngineFacts.NightDigitalReasonsText | decision_engine.py:191 | that purchase's reasons text is the five reason strings joined by ";" |
| EngineFacts.NightDigitalRendered | decision_engine.py:76-128 | that purchase's five reasons render to "ip_risk:medium(+2)", "email_risk:new_domain(+2)", "night_hour:23(+1)", "high_amount:digital:5200.0(+2)" and "new_user_high_amount(+2)" |
| EngineFacts.ChargebacksWithHighIpAreRejected | tests/test_app.py:62-85 | two chargebacks with a high IP risk reject the 300-peso purchase with score 100 |
| EngineFacts.RenderGeoMismatchMxUs | decision_engine.py:106-108 | a mismatch between "MX" and "US" worth 2 prints as "geo_mismatch:MX!=US(+2)" |
| EngineFacts.RenderLatency3000 | decision_engine.py:135-137 | a latency of 3000 ms worth 2 prints as "latency_extreme:3000ms(+2)" |
| EngineFacts.SmallDefaultPurchaseIsAccepted | decision_engine.py:159-192 | a 500-peso digital purchase with every other field at its default scores 0, is ACCEPTED, and has an empty reasons text |

## Left out

- Environment overrides of the thresholds (decision_engine.py:35-45): they read the process environment. Callers pass any `Config`, and `DecisionMonotone` holds for every pair of thresholds.
- `run` and `main` (decision_engine.py:194-217): they read and write CSV files and print.
- Coercion of pandas row values: `int(...)`, `float(...)` and `str(...)` on missing, NaN or ill-typed cells. The model receives a typed record whose absent fields already hold the engine's defaults.
- Case mapping outside ASCII: `Lower` and `Upper` change only the letters A to Z. Python's `str.lower`/`str.upper` also map other Unicode letters.
- Amounts are whole centavos. Sub-centavo amounts are not modelled. Nor are amounts of 10^15 centavos (10^13 pesos) or more in magnitude: beyond fifteen significant digits the nearest float may stand for a different two-decimal amount, so both the printed amount and the comparison with the threshold at decision_engine.py:52 can differ from the exact centavo value the model uses.
- The web service around the engine, and its validation of the hour range (tests/test_app.py:16-31, 87-116). The service itself is not part of this model. `IsNight` is total over all integers.
