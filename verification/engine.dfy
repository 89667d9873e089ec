/**
 The rule-based scoring engine: a hard-block pre-check, six additive
 assessors, the frequency-buffer adjustment and the two-threshold mapping
 from score to decision, composed by `AssessRow`.
 */
module Engine {
  import opened Text
  import opened EngineTypes

  /** Night is 22:00 through 05:59, both bounds inclusive. Total over all integers. */
  predicate IsNight(hour: int) {
    hour >= 22 || hour <= 5
  }

  /** The threshold for a product type: its own entry, else the "_default" entry. */
  function ThresholdFor(productType: string, thresholds: map<string, int>): Option<int> {
    if productType in thresholds then Some(thresholds[productType])
    else if "_default" in thresholds then Some(thresholds["_default"])
    else None
  }

  /** Whether an amount (in centavos) reaches its product type's threshold (in
      pesos). With neither the product type nor "_default" configured there
      is no threshold to compare against, which is a configuration error. */
  function IsHighAmount(amountCents: int, productType: string, thresholds: map<string, int>): (r: Result<bool>)
    ensures r.Err? <==> productType !in thresholds && "_default" !in thresholds
    ensures productType in thresholds ==> r == Ok(amountCents >= 100 * thresholds[productType])
    ensures productType !in thresholds && "_default" in thresholds ==>
              r == Ok(amountCents >= 100 * thresholds["_default"])
  {
    match ThresholdFor(productType, thresholds)
    case None => Err(MissingAmountThreshold(productType))
    case Some(threshold) => Ok(amountCents >= 100 * threshold)
  }

  /** The hard-block condition: enough chargebacks together with a high IP
      risk (in any letter case). */
  predicate Blocked(t: Transaction, cfg: Config) {
    t.chargebackCount >= cfg.chargebackHardBlock && Lower(t.ipRisk) == "high"
  }

  /** The hard-block pre-check. Returns the flag and its reasons. */
  function CheckHardBlock(t: Transaction, cfg: Config): (r: (bool, seq<Reason>))
    ensures r.0 <==> Blocked(t, cfg)
    ensures r.0 ==> r.1 == [HardBlock]
    ensures !r.0 ==> r.1 == []
  {
    var ipRisk := Lower(t.ipRisk);
    if t.chargebackCount >= cfg.chargebackHardBlock && ipRisk == "high" then (true, [HardBlock])
    else (false, [])
  }

  // ---------------------------------------------------------------------
  // Categorical risks
  // ---------------------------------------------------------------------

  const RiskFields: seq<RiskField> := [IpRisk, EmailRisk, DeviceFingerprintRisk]

  /** Taking one element fewer from a longer prefix gives the shorter prefix. */
  lemma PrefixStep<T>(s: seq<T>, i: nat)
    requires i < |s|
    ensures s[..i + 1][..i] == s[..i]
    ensures s[..|s|] == s
  {
  }

  /** Points of one categorical dimension: the weight of its lower-cased value,
      0 when the value is not in the table. */
  function FieldPoints(t: Transaction, cfg: Config, f: RiskField): int {
    Lookup(FieldWeights(cfg, f), Lower(FieldValue(t, f)))
  }

  /** The reason one categorical dimension contributes: one when its points are non-zero. */
  function FieldReasons(t: Transaction, cfg: Config, f: RiskField): seq<Reason> {
    var points := FieldPoints(t, cfg, f);
    if points != 0 then [CategoricalRisk(f, Lower(FieldValue(t, f)), points)] else []
  }

  /** The categorical assessment of the given dimensions, accumulated left to
      right: every non-zero weight adds its points and one reason. */
  function AssessFields(t: Transaction, cfg: Config, fields: seq<RiskField>): (r: Assessment)
    ensures Explains(r)
    ensures |r.reasons| <= |fields|
    decreases |fields|
  {
    if |fields| == 0 then Assessment(0, [])
    else
      var prev := AssessFields(t, cfg, fields[..|fields| - 1]);
      var f := fields[|fields| - 1];
      var value := Lower(FieldValue(t, f));
      var points := Lookup(FieldWeights(cfg, f), value);
      if points != 0 then Assessment(prev.points + points, prev.reasons + [CategoricalRisk(f, value, points)])
      else prev
  }

  /** Every categorical reason names a dimension whose weight was non-zero. */
  lemma {:induction false} AssessFieldsReasonsCategorical(t: Transaction, cfg: Config, fields: seq<RiskField>)
    ensures forall i :: 0 <= i < |AssessFields(t, cfg, fields).reasons| ==>
              AssessFields(t, cfg, fields).reasons[i].CategoricalRisk?
              && AssessFields(t, cfg, fields).reasons[i].points != 0
    decreases |fields|
  {
    if |fields| > 0 {
      AssessFieldsReasonsCategorical(t, cfg, fields[..|fields| - 1]);
    }
  }

  /** One more dimension adds exactly that dimension's points and reasons. */
  lemma AssessFieldsStep(t: Transaction, cfg: Config, fields: seq<RiskField>, i: nat)
    requires i < |fields|
    ensures AssessFields(t, cfg, fields[..i + 1]).points
            == AssessFields(t, cfg, fields[..i]).points + FieldPoints(t, cfg, fields[i])
    ensures AssessFields(t, cfg, fields[..i + 1]).reasons
            == AssessFields(t, cfg, fields[..i]).reasons + FieldReasons(t, cfg, fields[i])
  {
    assert fields[..i + 1][..i] == fields[..i];
  }

  /** The points of any three dimensions are theirs, summed in order. */
  lemma ThreeFieldsPoints(t: Transaction, cfg: Config, fs: seq<RiskField>)
    requires |fs| == 3
    ensures AssessFields(t, cfg, fs).points
            == FieldPoints(t, cfg, fs[0]) + FieldPoints(t, cfg, fs[1]) + FieldPoints(t, cfg, fs[2])
  {
    assert fs[..0] == [] && fs[..3] == fs;
    AssessFieldsStep(t, cfg, fs, 0);
    AssessFieldsStep(t, cfg, fs, 1);
    AssessFieldsStep(t, cfg, fs, 2);
  }

  /** The reasons of any three dimensions are theirs, in order. */
  lemma ThreeFieldsReasons(t: Transaction, cfg: Config, fs: seq<RiskField>)
    requires |fs| == 3
    ensures AssessFields(t, cfg, fs).reasons
            == FieldReasons(t, cfg, fs[0]) + FieldReasons(t, cfg, fs[1]) + FieldReasons(t, cfg, fs[2])
  {
    assert fs[..0] == [] && fs[..3] == fs;
    var r0, r1 := AssessFields(t, cfg, fs[..0]).reasons, AssessFields(t, cfg, fs[..1]).reasons;
    var r2, r3 := AssessFields(t, cfg, fs[..2]).reasons, AssessFields(t, cfg, fs[..3]).reasons;
    AssessFieldsStep(t, cfg, fs, 0);
    AssessFieldsStep(t, cfg, fs, 1);
    AssessFieldsStep(t, cfg, fs, 2);
    ConcatThree(r0, r1, r2, r3, FieldReasons(t, cfg, fs[0]), FieldReasons(t, cfg, fs[1]), FieldReasons(t, cfg, fs[2]));
  }

  /** Three appends onto the empty sequence make the three-part concatenation. */
  lemma ConcatThree<T>(s0: seq<T>, s1: seq<T>, s2: seq<T>, s3: seq<T>, x: seq<T>, y: seq<T>, z: seq<T>)
    requires s0 == [] && s1 == s0 + x && s2 == s1 + y && s3 == s2 + z
    ensures s3 == x + y + z
  {
    assert s1 == x;
  }

  /** The loop over IP, e-mail and device risk, written out. */
  lemma RiskFieldsUnrolled(t: Transaction, cfg: Config)
    ensures AssessFields(t, cfg, RiskFields).points
            == FieldPoints(t, cfg, IpRisk) + FieldPoints(t, cfg, EmailRisk) + FieldPoints(t, cfg, DeviceFingerprintRisk)
    ensures AssessFields(t, cfg, RiskFields).reasons
            == FieldReasons(t, cfg, IpRisk) + FieldReasons(t, cfg, EmailRisk) + FieldReasons(t, cfg, DeviceFingerprintRisk)
  {
    var fs := RiskFields;
    assert fs[0] == IpRisk && fs[1] == EmailRisk && fs[2] == DeviceFingerprintRisk;
    ThreeFieldsPoints(t, cfg, fs);
    ThreeFieldsReasons(t, cfg, fs);
  }

  /** The categorical assessor: IP, e-mail and device risk, in that order. */
  function AssessCategoricalRisks(t: Transaction, cfg: Config): (r: Assessment)
    ensures Explains(r)
    ensures r.points == FieldPoints(t, cfg, IpRisk) + FieldPoints(t, cfg, EmailRisk)
                        + FieldPoints(t, cfg, DeviceFingerprintRisk)
    ensures r.reasons == FieldReasons(t, cfg, IpRisk) + FieldReasons(t, cfg, EmailRisk)
                         + FieldReasons(t, cfg, DeviceFingerprintRisk)
  {
    RiskFieldsUnrolled(t, cfg);
    AssessFields(t, cfg, RiskFields)
  }

  /** The categorical assessor as a loop over the three dimensions. */
  method AssessCategoricalRisksLoop(t: Transaction, cfg: Config) returns (score: int, reasons: seq<Reason>)
    ensures Assessment(score, reasons) == AssessCategoricalRisks(t, cfg)
  {
    score := 0;
    reasons := [];
    var i := 0;
    while i < |RiskFields|
      invariant 0 <= i <= |RiskFields|
      invariant Assessment(score, reasons) == AssessFields(t, cfg, RiskFields[..i])
    {
      var f := RiskFields[i];
      var value := Lower(FieldValue(t, f));
      var points := Lookup(FieldWeights(cfg, f), value);
      if points != 0 {
        score := score + points;
        reasons := reasons + [CategoricalRisk(f, value, points)];
      }
      PrefixStep(RiskFields, i);
      i := i + 1;
    }
    PrefixStep(RiskFields, i - 1);
  }

  // ---------------------------------------------------------------------
  // The other five assessors
  // ---------------------------------------------------------------------

  /** User reputation: the weight of the lower-cased reputation (0 when
      unmapped); the only dimension whose weights are meant to be negative. */
  function AssessUserReputation(t: Transaction, cfg: Config): (r: Assessment)
    ensures Explains(r)
    ensures r.points == Lookup(cfg.userReputationWeights, Lower(t.userReputation))
    ensures r.reasons == (if r.points != 0 then [UserReputation(Lower(t.userReputation), r.points)] else [])
  {
    var reputation := Lower(t.userReputation);
    var points := Lookup(cfg.userReputationWeights, reputation);
    SumContributionsOne(UserReputation(reputation, points));
    if points != 0 then Assessment(points, [UserReputation(reputation, points)])
    else Assessment(0, [])
  }

  /** Night-hour risk. */
  function AssessTemporalRisk(t: Transaction, cfg: Config): (r: Assessment)
    ensures Explains(r)
    ensures IsNight(t.hour) ==>
              r.points == cfg.nightHourPoints && r.reasons == [NightHour(t.hour, cfg.nightHourPoints)]
    ensures !IsNight(t.hour) ==> r == Assessment(0, [])
  {
    SumContributionsOne(NightHour(t.hour, cfg.nightHourPoints));
    if IsNight(t.hour) then
      Assessment(cfg.nightHourPoints, [NightHour(t.hour, cfg.nightHourPoints)])
    else Assessment(0, [])
  }

  /** Card-issuing country against IP country, compared upper-cased; a
      missing country is never a mismatch. */
  function AssessGeographicalRisk(t: Transaction, cfg: Config): (r: Assessment)
    ensures Explains(r)
    ensures r.reasons != [] <==>
              t.binCountry != "" && t.ipCountry != "" && Upper(t.binCountry) != Upper(t.ipCountry)
    ensures r.reasons == [] ==> r.points == 0
    ensures r.reasons != [] ==>
              r.points == cfg.geoMismatchPoints
              && r.reasons == [GeoMismatch(Upper(t.binCountry), Upper(t.ipCountry), cfg.geoMismatchPoints)]
  {
    var binCountry := Upper(t.binCountry);
    var ipCountry := Upper(t.ipCountry);
    SumContributionsOne(GeoMismatch(binCountry, ipCountry, cfg.geoMismatchPoints));
    if |binCountry| > 0 && |ipCountry| > 0 && binCountry != ipCountry then
      Assessment(cfg.geoMismatchPoints, [GeoMismatch(binCountry, ipCountry, cfg.geoMismatchPoints)])
    else Assessment(0, [])
  }

  /** High amount, with the new-user bonus layered on top of it only. */
  function AssessAmountRisk(t: Transaction, cfg: Config): (r: Result<Assessment>)
    ensures r.Err? <==> IsHighAmount(t.amountCents, Lower(t.productType), cfg.amountThresholds).Err?
    ensures r.Ok? ==> Explains(r.value)
    ensures r.Ok? ==> (r.value.reasons != [] <==> IsHighAmount(t.amountCents, Lower(t.productType), cfg.amountThresholds) == Ok(true))
    ensures r.Ok? && r.value.reasons != [] ==>
              r.value.reasons[0] == HighAmount(Lower(t.productType), t.amountCents, cfg.highAmountPoints)
    ensures r.Ok? ==> (|r.value.reasons| == 2 <==> r.value.reasons != [] && Lower(t.userReputation) == "new")
    ensures r.Ok? && |r.value.reasons| == 2 ==> r.value.reasons[1] == NewUserHighAmount(cfg.newUserHighAmountPoints)
    ensures r.Ok? ==> |r.value.reasons| <= 2
  {
    var productType := Lower(t.productType);
    var reputation := Lower(t.userReputation);
    SumContributionsOne(HighAmount(productType, t.amountCents, cfg.highAmountPoints));
    SumContributionsTwo(HighAmount(productType, t.amountCents, cfg.highAmountPoints),
                        NewUserHighAmount(cfg.newUserHighAmountPoints));
    match IsHighAmount(t.amountCents, productType, cfg.amountThresholds)
    case Err(e) => Err(e)
    case Ok(high) =>
      if !high then Ok(Assessment(0, []))
      else if reputation == "new" then
        Ok(Assessment(cfg.highAmountPoints + cfg.newUserHighAmountPoints,
                      [HighAmount(productType, t.amountCents, cfg.highAmountPoints),
                       NewUserHighAmount(cfg.newUserHighAmountPoints)]))
      else
        Ok(Assessment(cfg.highAmountPoints, [HighAmount(productType, t.amountCents, cfg.highAmountPoints)]))
  }

  /** Extreme processing latency, inclusive threshold. */
  function AssessLatencyRisk(t: Transaction, cfg: Config): (r: Assessment)
    ensures Explains(r)
    ensures r.reasons != [] <==> t.latencyMs >= cfg.latencyMsExtreme
    ensures r.reasons == [] ==> r.points == 0
    ensures r.reasons != [] ==>
              r.points == cfg.latencyExtremePoints && r.reasons == [LatencyExtreme(t.latencyMs, cfg.latencyExtremePoints)]
  {
    SumContributionsOne(LatencyExtreme(t.latencyMs, cfg.latencyExtremePoints));
    if t.latencyMs >= cfg.latencyMsExtreme then
      Assessment(cfg.latencyExtremePoints, [LatencyExtreme(t.latencyMs, cfg.latencyExtremePoints)])
    else Assessment(0, [])
  }

  // ---------------------------------------------------------------------
  // Aggregation
  // ---------------------------------------------------------------------

  /** Sum of the assessments' points and concatenation of their reasons, in order. */
  function Combine(parts: seq<Assessment>): (r: Assessment)
    ensures (forall i :: 0 <= i < |parts| ==> Explains(parts[i])) ==> Explains(r)
    decreases |parts|
  {
    if |parts| == 0 then Assessment(0, [])
    else
      var prev := Combine(parts[..|parts| - 1]);
      var last := parts[|parts| - 1];
      SumContributionsAppend(prev.reasons, last.reasons);
      Assessment(prev.points + last.points, prev.reasons + last.reasons)
  }

  /** A recurrent or trusted customer with at least three transactions in
      the last 30 days. */
  predicate EstablishedCustomer(t: Transaction) {
    Lower(t.userReputation) in {"recurrent", "trusted"} && t.customerTxn30d >= 3
  }

  /** The frequency buffer: an established customer with a positive score
      has exactly one point taken off, and the buffer reason appended. */
  function ApplyFrequencyBuffer(t: Transaction, a: Assessment): (r: Assessment)
    ensures EstablishedCustomer(t) && a.points > 0 ==>
              r.points == a.points - 1 && r.reasons == a.reasons + [FrequencyBuffer]
    ensures !(EstablishedCustomer(t) && a.points > 0) ==> r == a
    ensures a.points - 1 <= r.points <= a.points
    ensures a.points > 0 ==> r.points >= 0
    ensures a.points <= 0 ==> r == a
    ensures Explains(a) ==> Explains(r)
  {
    var reputation := Lower(t.userReputation);
    if reputation in {"recurrent", "trusted"} && t.customerTxn30d >= 3 && a.points > 0 then
      Assessment(a.points - 1, a.reasons + [FrequencyBuffer])
    else a
  }

  /** Score to decision: the reject threshold is checked first, then the
      review threshold; both are inclusive. */
  function DetermineDecision(score: int, cfg: Config): (d: Decision)
    ensures d == Rejected <==> score >= cfg.rejectAt
    ensures d == InReview <==> cfg.reviewAt <= score < cfg.rejectAt
    ensures d == Accepted <==> score < cfg.rejectAt && score < cfg.reviewAt
  {
    if score >= cfg.rejectAt then Rejected
    else if score >= cfg.reviewAt then InReview
    else Accepted
  }

  /** The six additive assessments in the order their reasons are reported;
      None when the amount assessor cannot run under this configuration. */
  function Assessments(t: Transaction, cfg: Config): (r: Option<seq<Assessment>>)
    ensures r.None? <==> AssessAmountRisk(t, cfg).Err?
    ensures r.Some? ==> |r.value| == 6 && forall i :: 0 <= i < |r.value| ==> Explains(r.value[i])
  {
    match AssessAmountRisk(t, cfg)
    case Err(_) => None
    case Ok(amount) =>
      Some([AssessCategoricalRisks(t, cfg), AssessUserReputation(t, cfg), AssessTemporalRisk(t, cfg),
            AssessGeographicalRisk(t, cfg), amount, AssessLatencyRisk(t, cfg)])
  }

  /** The whole engine: the hard-block short-circuit, else the six assessors
      summed, the frequency buffer, and the decision. */
  function AssessRow(t: Transaction, cfg: Config): (r: Result<ScoreResult>)
    ensures Blocked(t, cfg) ==> r == Ok(ScoreResult(Rejected, 100, [HardBlock]))
    ensures !Blocked(t, cfg) ==>
              (r.Err? <==> Lower(t.productType) !in cfg.amountThresholds && "_default" !in cfg.amountThresholds)
    ensures !Blocked(t, cfg) && r.Ok? ==>
              r.value.riskScore == SumContributions(r.value.reasons)
              && r.value.decision == DetermineDecision(r.value.riskScore, cfg)
  {
    var (blocked, blockReasons) := CheckHardBlock(t, cfg);
    if blocked then Ok(ScoreResult(Rejected, 100, blockReasons))
    else
      match Assessments(t, cfg)
      case None => Err(MissingAmountThreshold(Lower(t.productType)))
      case Some(parts) =>
        var buffered := ApplyFrequencyBuffer(t, Combine(parts));
        Ok(ScoreResult(DetermineDecision(buffered.points, cfg), buffered.points, buffered.reasons))
  }
}
