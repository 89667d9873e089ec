/**
 Properties of the scoring engine: the night window, the hard-block
 short-circuit, the shape of a non-blocked score, the decision mapping,
 the frequency buffer, the score range under the default configuration,
 agreement with a flat reference formula, and concrete transactions.
 */
module EngineFacts {
  import opened Text
  import opened EngineTypes
  import opened Engine

  // ---------------------------------------------------------------------
  // Night window
  // ---------------------------------------------------------------------

  /** Over the hours of a day, exactly 22, 23 and 0 through 5 are night. */
  lemma NightHoursOfDay()
    ensures (set h | 0 <= h < 24 && IsNight(h)) == {0, 1, 2, 3, 4, 5, 22, 23}
    ensures |set h | 0 <= h < 24 && IsNight(h)| == 8
  {
    var night := set h | 0 <= h < 24 && IsNight(h);
    forall h | h in night
      ensures h in {0, 1, 2, 3, 4, 5, 22, 23}
    {
    }
    assert night == {0, 1, 2, 3, 4, 5, 22, 23};
  }

  /** The boundary hours: 5 and 22 are night, 6 and 21 are not. */
  lemma NightBoundsInclusive()
    ensures IsNight(5) && IsNight(22) && !IsNight(6) && !IsNight(21)
  {
  }

  // ---------------------------------------------------------------------
  // Hard block
  // ---------------------------------------------------------------------

  /** A blocked transaction is rejected with the sentinel score 100 and the
      single literal reason, whatever its other fields and whatever the
      configured chargeback threshold (the literal always says 2). */
  lemma HardBlockResult(t: Transaction, cfg: Config)
    requires Blocked(t, cfg)
    ensures AssessRow(t, cfg).Ok?
    ensures AssessRow(t, cfg).value.decision == Rejected
    ensures AssessRow(t, cfg).value.riskScore == 100
    ensures ReasonsText(AssessRow(t, cfg).value.reasons) == "hard_block:chargebacks>=2+ip_high"
  {
    var rs := AssessRow(t, cfg).value.reasons;
    assert rs == [HardBlock];
    assert RenderAll(rs) == ["hard_block:chargebacks>=2+ip_high"];
  }

  /** Two blocked transactions get identical results. */
  lemma HardBlockIgnoresOtherFields(t1: Transaction, t2: Transaction, cfg: Config)
    requires Blocked(t1, cfg) && Blocked(t2, cfg)
    ensures AssessRow(t1, cfg) == AssessRow(t2, cfg)
  {
  }

  lemma LowerHighSpellings()
    ensures Lower("high") == "high" && Lower("HIGH") == "high" && Lower("High") == "high"
  {
    LowerPointwise("high", "high");
    LowerPointwise("HIGH", "high");
    LowerPointwise("High", "high");
  }

  /** The IP-risk comparison ignores letter case. */
  lemma HardBlockIgnoresCase(t: Transaction, cfg: Config)
    requires t.chargebackCount >= cfg.chargebackHardBlock
    requires t.ipRisk == "HIGH" || t.ipRisk == "High" || t.ipRisk == "high"
    ensures AssessRow(t, cfg) == Ok(ScoreResult(Rejected, 100, [HardBlock]))
  {
    LowerHighSpellings();
  }

  // ---------------------------------------------------------------------
  // Shape of a non-blocked score
  // ---------------------------------------------------------------------

  lemma CombineSnoc(parts: seq<Assessment>, a: Assessment)
    ensures Combine(parts + [a]).points == Combine(parts).points + a.points
    ensures Combine(parts + [a]).reasons == Combine(parts).reasons + a.reasons
  {
    assert (parts + [a])[..|parts|] == parts;
  }

  lemma CombineSix(a1: Assessment, a2: Assessment, a3: Assessment, a4: Assessment, a5: Assessment, a6: Assessment)
    ensures Combine([a1, a2, a3, a4, a5, a6]).points
            == a1.points + a2.points + a3.points + a4.points + a5.points + a6.points
    ensures Combine([a1, a2, a3, a4, a5, a6]).reasons
            == a1.reasons + a2.reasons + a3.reasons + a4.reasons + a5.reasons + a6.reasons
  {
    var p0: seq<Assessment> := [];
    var p1 := p0 + [a1];
    var p2 := p1 + [a2];
    var p3 := p2 + [a3];
    var p4 := p3 + [a4];
    var p5 := p4 + [a5];
    var p6 := p5 + [a6];
    CombineSnoc(p0, a1);
    CombineSnoc(p1, a2);
    CombineSnoc(p2, a3);
    CombineSnoc(p3, a4);
    CombineSnoc(p4, a5);
    CombineSnoc(p5, a6);
    assert Combine(p1).reasons == [] + a1.reasons == a1.reasons;
    assert p6 == [a1, a2, a3, a4, a5, a6];
  }

  /** Sum of the six assessors' points, before the buffer. */
  function RawPoints(t: Transaction, cfg: Config, amount: Assessment): int {
    AssessCategoricalRisks(t, cfg).points + AssessUserReputation(t, cfg).points
    + AssessTemporalRisk(t, cfg).points + AssessGeographicalRisk(t, cfg).points
    + amount.points + AssessLatencyRisk(t, cfg).points
  }

  /** The six assessors' reasons in the fixed report order. */
  function RawReasons(t: Transaction, cfg: Config, amount: Assessment): seq<Reason> {
    AssessCategoricalRisks(t, cfg).reasons + AssessUserReputation(t, cfg).reasons
    + AssessTemporalRisk(t, cfg).reasons + AssessGeographicalRisk(t, cfg).reasons
    + amount.reasons + AssessLatencyRisk(t, cfg).reasons
  }

  /** Off the hard-block path the score is the six assessors' points plus 0
      or -1, the reasons are theirs in the order categorical, reputation,
      night, geography, amount, latency, and the -1 (with its trailing
      buffer reason) happens exactly for an established customer whose
      points are positive. */
  lemma NonBlockedComposition(t: Transaction, cfg: Config)
    requires !Blocked(t, cfg)
    requires AssessAmountRisk(t, cfg).Ok?
    ensures AssessRow(t, cfg).Ok?
    ensures var r := AssessRow(t, cfg).value;
            var amount := AssessAmountRisk(t, cfg).value;
            var raw := RawPoints(t, cfg, amount);
            if EstablishedCustomer(t) && raw > 0 then
              r.riskScore == raw - 1 && r.reasons == RawReasons(t, cfg, amount) + [FrequencyBuffer]
            else
              r.riskScore == raw && r.reasons == RawReasons(t, cfg, amount)
  {
    var amount := AssessAmountRisk(t, cfg).value;
    CombineSix(AssessCategoricalRisks(t, cfg), AssessUserReputation(t, cfg), AssessTemporalRisk(t, cfg),
               AssessGeographicalRisk(t, cfg), amount, AssessLatencyRisk(t, cfg));
  }

  /** The result of a non-blocked transaction whose six assessments are
      known and whose customer gets no buffer. */
  lemma AssessRowFromParts(t: Transaction, cfg: Config, cat: Assessment, rep: Assessment, tmp: Assessment,
                           geo: Assessment, amount: Assessment, lat: Assessment)
    requires !Blocked(t, cfg) && !EstablishedCustomer(t)
    requires AssessCategoricalRisks(t, cfg) == cat && AssessUserReputation(t, cfg) == rep
    requires AssessTemporalRisk(t, cfg) == tmp && AssessGeographicalRisk(t, cfg) == geo
    requires AssessAmountRisk(t, cfg) == Ok(amount) && AssessLatencyRisk(t, cfg) == lat
    ensures var score := cat.points + rep.points + tmp.points + geo.points + amount.points + lat.points;
            AssessRow(t, cfg)
            == Ok(ScoreResult(DetermineDecision(score, cfg), score,
                              cat.reasons + rep.reasons + tmp.reasons + geo.reasons + amount.reasons + lat.reasons))
  {
    NonBlockedComposition(t, cfg);
  }

  // ---------------------------------------------------------------------
  // A flat reference formula for the score
  // ---------------------------------------------------------------------

  /** The six rules' points written as one formula over the transaction's
      fields, one term per rule, given whether the amount is high. */
  function ReferenceRaw(t: Transaction, cfg: Config, high: bool): int {
    Lookup(cfg.ipRiskWeights, Lower(t.ipRisk))
    + Lookup(cfg.emailRiskWeights, Lower(t.emailRisk))
    + Lookup(cfg.deviceFingerprintRiskWeights, Lower(t.deviceFingerprintRisk))
    + Lookup(cfg.userReputationWeights, Lower(t.userReputation))
    + (if t.hour >= 22 || t.hour <= 5 then cfg.nightHourPoints else 0)
    + (if t.binCountry != "" && t.ipCountry != "" && Upper(t.binCountry) != Upper(t.ipCountry)
       then cfg.geoMismatchPoints else 0)
    + (if high then cfg.highAmountPoints else 0)
    + (if high && Lower(t.userReputation) == "new" then cfg.newUserHighAmountPoints else 0)
    + (if t.latencyMs >= cfg.latencyMsExtreme then cfg.latencyExtremePoints else 0)
  }

  /** The whole score as a formula: the rules' points, less one for a
      recurrent or trusted customer with 3 or more recent transactions and
      a positive total; None when no amount threshold applies. */
  function ReferenceScore(t: Transaction, cfg: Config): Option<int> {
    match ThresholdFor(Lower(t.productType), cfg.amountThresholds)
    case None => None
    case Some(threshold) =>
      var raw := ReferenceRaw(t, cfg, t.amountCents >= 100 * threshold);
      var reputation := Lower(t.userReputation);
      var buffered := (reputation == "recurrent" || reputation == "trusted") && t.customerTxn30d >= 3 && raw > 0;
      Some(if buffered then raw - 1 else raw)
  }

  lemma CategoricalMatchesReference(t: Transaction, cfg: Config)
    ensures AssessCategoricalRisks(t, cfg).points
            == Lookup(cfg.ipRiskWeights, Lower(t.ipRisk))
               + Lookup(cfg.emailRiskWeights, Lower(t.emailRisk))
               + Lookup(cfg.deviceFingerprintRiskWeights, Lower(t.deviceFingerprintRisk))
  {
    assert FieldPoints(t, cfg, IpRisk) == Lookup(cfg.ipRiskWeights, Lower(t.ipRisk));
    assert FieldPoints(t, cfg, EmailRisk) == Lookup(cfg.emailRiskWeights, Lower(t.emailRisk));
    assert FieldPoints(t, cfg, DeviceFingerprintRisk)
           == Lookup(cfg.deviceFingerprintRiskWeights, Lower(t.deviceFingerprintRisk));
  }

  lemma AmountMatchesReference(t: Transaction, cfg: Config, threshold: int)
    requires ThresholdFor(Lower(t.productType), cfg.amountThresholds) == Some(threshold)
    ensures AssessAmountRisk(t, cfg).Ok?
    ensures var high := t.amountCents >= 100 * threshold;
            AssessAmountRisk(t, cfg).value.points
            == (if high then cfg.highAmountPoints else 0)
               + (if high && Lower(t.userReputation) == "new" then cfg.newUserHighAmountPoints else 0)
  {
  }

  lemma RawPointsMatchReference(t: Transaction, cfg: Config, threshold: int)
    requires ThresholdFor(Lower(t.productType), cfg.amountThresholds) == Some(threshold)
    ensures AssessAmountRisk(t, cfg).Ok?
    ensures RawPoints(t, cfg, AssessAmountRisk(t, cfg).value)
            == ReferenceRaw(t, cfg, t.amountCents >= 100 * threshold)
  {
    CategoricalMatchesReference(t, cfg);
    AmountMatchesReference(t, cfg, threshold);
  }

  /** Off the hard-block path the engine's score is the reference formula's,
      and it fails exactly when the formula has no threshold. */
  lemma AssessRowMatchesReference(t: Transaction, cfg: Config)
    requires !Blocked(t, cfg)
    ensures AssessRow(t, cfg).Ok? <==> ReferenceScore(t, cfg).Some?
    ensures AssessRow(t, cfg).Ok? ==>
              AssessRow(t, cfg).value.riskScore == ReferenceScore(t, cfg).value
              && AssessRow(t, cfg).value.decision == DetermineDecision(ReferenceScore(t, cfg).value, cfg)
  {
    match ThresholdFor(Lower(t.productType), cfg.amountThresholds)
    case None =>
    case Some(threshold) =>
      RawPointsMatchReference(t, cfg, threshold);
      NonBlockedComposition(t, cfg);
      var raw := ReferenceRaw(t, cfg, t.amountCents >= 100 * threshold);
      var reputation := Lower(t.userReputation);
      var buffered := (reputation == "recurrent" || reputation == "trusted") && t.customerTxn30d >= 3 && raw > 0;
      assert buffered <==> EstablishedCustomer(t) && raw > 0;
      assert ReferenceScore(t, cfg) == Some(if buffered then raw - 1 else raw);
      assert AssessRow(t, cfg).value.riskScore == (if buffered then raw - 1 else raw);
  }

  // ---------------------------------------------------------------------
  // Decision mapping
  // ---------------------------------------------------------------------

  /** A higher score never yields a milder decision, whatever the thresholds. */
  lemma DecisionMonotone(s1: int, s2: int, cfg: Config)
    requires s1 <= s2
    ensures Rank(DetermineDecision(s1, cfg)) <= Rank(DetermineDecision(s2, cfg))
  {
  }

  /** When the review threshold is not below the reject threshold, review is unreachable. */
  lemma InvertedThresholdsSkipReview(s: int, cfg: Config)
    requires cfg.reviewAt >= cfg.rejectAt
    ensures DetermineDecision(s, cfg) != InReview
  {
  }

  /** Under the default thresholds: below 4 accept, 4 to 9 review, 10 and up reject. */
  lemma DefaultDecisionBands(s: int)
    ensures DetermineDecision(s, DefaultConfig) == Accepted <==> s < 4
    ensures DetermineDecision(s, DefaultConfig) == InReview <==> 4 <= s < 10
    ensures DetermineDecision(s, DefaultConfig) == Rejected <==> s >= 10
  {
  }

  // ---------------------------------------------------------------------
  // Frequency buffer
  // ---------------------------------------------------------------------

  lemma LowerNewAndHighRisk()
    ensures Lower("new") == "new" && Lower("high_risk") == "high_risk"
  {
    assert Lower("new") == "new" by { LowerNoUpper("new"); }
    assert Lower("high_risk") == "high_risk" by { LowerNoUpper("high_risk"); }
  }

  /** The buffer never applies to a new or high-risk user, in any letter
      case, however frequent. */
  lemma BufferSkipsNewAndHighRisk(t: Transaction, a: Assessment)
    requires Lower(t.userReputation) == "new" || Lower(t.userReputation) == "high_risk"
    ensures ApplyFrequencyBuffer(t, a) == a
  {
  }

  /** "New" is read as "new", so the buffer skips it too. */
  lemma BufferSkipsCapitalisedNew(a: Assessment)
    ensures ApplyFrequencyBuffer(DefaultTransaction.(userReputation := "New", customerTxn30d := 5), a) == a
  {
    LowerPointwise("New", "new");
    BufferSkipsNewAndHighRisk(DefaultTransaction.(userReputation := "New", customerTxn30d := 5), a);
  }

  // ---------------------------------------------------------------------
  // Case-insensitive lookups
  // ---------------------------------------------------------------------

  /** The categorical assessor reads its three fields case-insensitively. */
  lemma CategoricalIgnoresCase(t: Transaction, cfg: Config)
    ensures var shouted := t.(ipRisk := Upper(t.ipRisk), emailRisk := Upper(t.emailRisk),
                              deviceFingerprintRisk := Upper(t.deviceFingerprintRisk));
            AssessCategoricalRisks(shouted, cfg) == AssessCategoricalRisks(t, cfg)
  {
    LowerIgnoresCase(t.ipRisk);
    LowerIgnoresCase(t.emailRisk);
    LowerIgnoresCase(t.deviceFingerprintRisk);
  }

  /** The reputation weight, the new-user bonus and the buffer all read the
      reputation case-insensitively. */
  lemma ReputationIgnoresCase(t: Transaction, cfg: Config, a: Assessment)
    ensures var shouted := t.(userReputation := Upper(t.userReputation));
            AssessUserReputation(shouted, cfg) == AssessUserReputation(t, cfg)
            && AssessAmountRisk(shouted, cfg) == AssessAmountRisk(t, cfg)
            && ApplyFrequencyBuffer(shouted, a) == ApplyFrequencyBuffer(t, a)
  {
    LowerIgnoresCase(t.userReputation);
  }

  // ---------------------------------------------------------------------
  // Reason texts
  // ---------------------------------------------------------------------

  /** Reputation reasons carry an explicit '+' only for positive points; a
      negative delta shows its own '-' (never "+-"). */
  lemma ReputationReasonSign(v: string, p: int)
    ensures p > 0 ==> Render(UserReputation(v, p)) == "user_reputation:" + v + "(+" + NatToString(p) + ")"
    ensures p < 0 ==> Render(UserReputation(v, p)) == "user_reputation:" + v + "(-" + NatToString(-p) + ")"
  {
  }

  lemma TrustedReasonText()
    ensures Render(UserReputation("trusted", -2)) == "user_reputation:trusted(-2)"
  {
    ReputationReasonSign("trusted", -2);
    assert NatToString(2) == "2";
  }

  /** The points in every other reason are always written after "(+", so a
      negative weight prints as "(+-N)". */
  lemma PlusPointsNegative(p: int)
    requires p < 0
    ensures PlusPoints(p) == "(+-" + NatToString(-p) + ")"
  {
  }

  // ---------------------------------------------------------------------
  // Geography
  // ---------------------------------------------------------------------

  /** Swapping the two countries does not change the geographic points. */
  lemma GeoMismatchSymmetric(t: Transaction, cfg: Config)
    ensures AssessGeographicalRisk(t, cfg).points
            == AssessGeographicalRisk(t.(binCountry := t.ipCountry, ipCountry := t.binCountry), cfg).points
  {
  }

  /** A missing country never costs points. */
  lemma GeoMissingCountry(t: Transaction, cfg: Config)
    requires t.binCountry == "" || t.ipCountry == ""
    ensures AssessGeographicalRisk(t, cfg) == Assessment(0, [])
  {
  }

  // ---------------------------------------------------------------------
  // Amount
  // ---------------------------------------------------------------------

  /** Raising the amount never turns the high-amount flag off. */
  lemma HighAmountMonotone(a1: int, a2: int, productType: string, thresholds: map<string, int>)
    requires a1 <= a2
    requires IsHighAmount(a1, productType, thresholds) == Ok(true)
    ensures IsHighAmount(a2, productType, thresholds) == Ok(true)
  {
  }

  /** An unknown product type is judged against the "_default" threshold. */
  lemma UnknownProductUsesDefault(t: Transaction)
    requires Lower(t.productType) !in DefaultConfig.amountThresholds
    ensures IsHighAmount(t.amountCents, Lower(t.productType), DefaultConfig.amountThresholds)
            == Ok(t.amountCents >= 400000)
  {
  }

  /** The new-user bonus is never paid without the high-amount points. */
  lemma NewUserBonusNeedsHighAmount(t: Transaction, cfg: Config)
    requires AssessAmountRisk(t, cfg).Ok?
    ensures forall i :: 0 <= i < |AssessAmountRisk(t, cfg).value.reasons| ==>
              AssessAmountRisk(t, cfg).value.reasons[i].NewUserHighAmount? ==>
                i == 1 && AssessAmountRisk(t, cfg).value.reasons[0].HighAmount?
                && Lower(t.userReputation) == "new"
  {
  }

  // ---------------------------------------------------------------------
  // Range under the default configuration
  // ---------------------------------------------------------------------

  lemma DefaultWeightRanges(t: Transaction)
    ensures 0 <= FieldPoints(t, DefaultConfig, IpRisk) <= 4
    ensures 0 <= FieldPoints(t, DefaultConfig, EmailRisk) <= 3
    ensures 0 <= FieldPoints(t, DefaultConfig, DeviceFingerprintRisk) <= 4
    ensures -2 <= Lookup(DefaultConfig.userReputationWeights, Lower(t.userReputation)) <= 4
    ensures Lookup(DefaultConfig.userReputationWeights, Lower(t.userReputation)) == 4 ==>
              Lower(t.userReputation) == "high_risk"
  {
    var cfg := DefaultConfig;
    DefaultTablesBounded();
    LookupWithin(cfg.ipRiskWeights, Lower(t.ipRisk), 0, 4);
    LookupWithin(cfg.emailRiskWeights, Lower(t.emailRisk), 0, 3);
    LookupWithin(cfg.deviceFingerprintRiskWeights, Lower(t.deviceFingerprintRisk), 0, 4);
    LookupWithin(cfg.userReputationWeights, Lower(t.userReputation), -2, 4);
    OnlyHighRiskWeighsFour(Lower(t.userReputation));
  }

  /** A lookup stays within the bounds of the table's weights (0 included). */
  lemma LookupWithin(weights: map<string, int>, key: string, lo: int, hi: int)
    requires lo <= 0 <= hi
    requires forall k :: k in weights ==> lo <= weights[k] <= hi
    ensures lo <= Lookup(weights, key) <= hi
  {
  }

  lemma DefaultTablesBounded()
    ensures forall k :: k in DefaultConfig.ipRiskWeights ==> 0 <= DefaultConfig.ipRiskWeights[k] <= 4
    ensures forall k :: k in DefaultConfig.emailRiskWeights ==> 0 <= DefaultConfig.emailRiskWeights[k] <= 3
    ensures forall k :: k in DefaultConfig.deviceFingerprintRiskWeights ==>
              0 <= DefaultConfig.deviceFingerprintRiskWeights[k] <= 4
    ensures forall k :: k in DefaultConfig.userReputationWeights ==> -2 <= DefaultConfig.userReputationWeights[k] <= 4
  {
  }

  lemma OnlyHighRiskWeighsFour(key: string)
    ensures Lookup(DefaultConfig.userReputationWeights, key) == 4 ==> key == "high_risk"
  {
  }

  /** The six assessors' points under the default configuration total
      between -2 and 22: the high-risk reputation weight (4) and the new-user
      bonus (2) never apply together. */
  lemma DefaultRawRange(t: Transaction, amount: Assessment)
    requires AssessAmountRisk(t, DefaultConfig) == Ok(amount)
    ensures -2 <= RawPoints(t, DefaultConfig, amount) <= 22
  {
    var cfg := DefaultConfig;
    assert "_default" in cfg.amountThresholds;
    var threshold := ThresholdFor(Lower(t.productType), cfg.amountThresholds).value;
    RawPointsMatchReference(t, cfg, threshold);
    DefaultReferenceRange(t, t.amountCents >= 100 * threshold);
  }

  lemma DefaultReferenceRange(t: Transaction, high: bool)
    ensures -2 <= ReferenceRaw(t, DefaultConfig, high) <= 22
  {
    DefaultWeightRanges(t);
  }

  /** Under the default configuration every non-blocked transaction is scored,
      with a score between -2 and 22, so never the blocked sentinel 100. */
  lemma DefaultScoreRange(t: Transaction)
    requires !Blocked(t, DefaultConfig)
    ensures AssessRow(t, DefaultConfig).Ok?
    ensures -2 <= AssessRow(t, DefaultConfig).value.riskScore <= 22
  {
    var cfg := DefaultConfig;
    assert "_default" in cfg.amountThresholds;
    assert AssessAmountRisk(t, cfg).Ok?;
    var amount := AssessAmountRisk(t, cfg).value;
    NonBlockedComposition(t, cfg);
    DefaultRawRange(t, amount);
  }

  // ---------------------------------------------------------------------
  // Every reason carries points
  // ---------------------------------------------------------------------

  predicate AllCarryPoints(rs: seq<Reason>) {
    forall i :: 0 <= i < |rs| ==> Contribution(rs[i]) != 0
  }

  lemma AllCarryPointsAppend(a: seq<Reason>, b: seq<Reason>)
    requires AllCarryPoints(a) && AllCarryPoints(b)
    ensures AllCarryPoints(a + b)
  {
    forall i | 0 <= i < |a + b|
      ensures Contribution((a + b)[i]) != 0
    {
      if i >= |a| {
        assert (a + b)[i] == b[i - |a|];
      }
    }
  }

  predicate FlatWeightsNonZero(cfg: Config) {
    cfg.nightHourPoints != 0 && cfg.geoMismatchPoints != 0 && cfg.highAmountPoints != 0
    && cfg.newUserHighAmountPoints != 0 && cfg.latencyExtremePoints != 0
  }

  /** The default configuration scores every transaction: every product
      type has a threshold, no flat weight is zero, the review band lies
      below the reject band, and only reputation weights are negative. */
  lemma DefaultConfigSound()
    ensures forall productType :: ThresholdFor(productType, DefaultConfig.amountThresholds).Some?
    ensures forall t :: AssessRow(t, DefaultConfig).Ok?
    ensures FlatWeightsNonZero(DefaultConfig)
    ensures 0 < DefaultConfig.reviewAt < DefaultConfig.rejectAt
    ensures forall f, key :: Lookup(FieldWeights(DefaultConfig, f), key) >= 0
  {
    forall t: Transaction ensures AssessRow(t, DefaultConfig).Ok? {
      assert "_default" in DefaultConfig.amountThresholds;
    }
    forall f: RiskField, key: string ensures Lookup(FieldWeights(DefaultConfig, f), key) >= 0 {
      DefaultTablesBounded();
      LookupWithin(FieldWeights(DefaultConfig, f), key, 0, 4);
    }
  }

  lemma CategoricalCarryPoints(t: Transaction, cfg: Config)
    ensures AllCarryPoints(AssessCategoricalRisks(t, cfg).reasons)
  {
    assert AssessCategoricalRisks(t, cfg).reasons == AssessFields(t, cfg, RiskFields).reasons;
    AssessFieldsReasonsCategorical(t, cfg, RiskFields);
  }

  lemma FlatAssessorsCarryPoints(t: Transaction, cfg: Config)
    requires FlatWeightsNonZero(cfg)
    ensures AllCarryPoints(AssessUserReputation(t, cfg).reasons)
    ensures AllCarryPoints(AssessTemporalRisk(t, cfg).reasons)
    ensures AllCarryPoints(AssessGeographicalRisk(t, cfg).reasons)
    ensures AllCarryPoints(AssessLatencyRisk(t, cfg).reasons)
  {
  }

  lemma AmountCarriesPoints(t: Transaction, cfg: Config, amount: Assessment)
    requires FlatWeightsNonZero(cfg)
    requires AssessAmountRisk(t, cfg) == Ok(amount)
    ensures AllCarryPoints(amount.reasons)
  {
  }

  lemma AssessorsCarryPoints(t: Transaction, cfg: Config, amount: Assessment)
    requires FlatWeightsNonZero(cfg)
    requires AssessAmountRisk(t, cfg) == Ok(amount)
    ensures AllCarryPoints(RawReasons(t, cfg, amount))
  {
    var cat := AssessCategoricalRisks(t, cfg).reasons;
    var rep := AssessUserReputation(t, cfg).reasons;
    var tmp := AssessTemporalRisk(t, cfg).reasons;
    var geo := AssessGeographicalRisk(t, cfg).reasons;
    var lat := AssessLatencyRisk(t, cfg).reasons;
    CategoricalCarryPoints(t, cfg);
    FlatAssessorsCarryPoints(t, cfg);
    AmountCarriesPoints(t, cfg, amount);
    AllCarryPointsAppend(cat, rep);
    AllCarryPointsAppend(cat + rep, tmp);
    AllCarryPointsAppend(cat + rep + tmp, geo);
    AllCarryPointsAppend(cat + rep + tmp + geo, amount.reasons);
    AllCarryPointsAppend(cat + rep + tmp + geo + amount.reasons, lat);
  }

  /** When no flat weight is zero, every reason on the non-blocked path
      stands for a non-zero number of points, so the reasons list exactly the
      rules that moved the score. */
  lemma ReasonsCarryPoints(t: Transaction, cfg: Config)
    requires !Blocked(t, cfg)
    requires FlatWeightsNonZero(cfg)
    requires AssessRow(t, cfg).Ok?
    ensures AllCarryPoints(AssessRow(t, cfg).value.reasons)
  {
    assert AssessAmountRisk(t, cfg).Ok?;
    var amount := AssessAmountRisk(t, cfg).value;
    NonBlockedComposition(t, cfg);
    AssessorsCarryPoints(t, cfg, amount);
    var all := RawReasons(t, cfg, amount);
    if EstablishedCustomer(t) && RawPoints(t, cfg, amount) > 0 {
      assert AllCarryPoints([FrequencyBuffer]);
      AllCarryPointsAppend(all, [FrequencyBuffer]);
    }
  }

  // ---------------------------------------------------------------------
  // The buffer reason
  // ---------------------------------------------------------------------

  lemma CategoricalOmitsBuffer(t: Transaction, cfg: Config)
    ensures FrequencyBuffer !in AssessCategoricalRisks(t, cfg).reasons
  {
    var cat := AssessCategoricalRisks(t, cfg).reasons;
    assert cat == AssessFields(t, cfg, RiskFields).reasons;
    AssessFieldsReasonsCategorical(t, cfg, RiskFields);
    assert forall i :: 0 <= i < |cat| ==> cat[i] != FrequencyBuffer;
  }

  lemma FlatAssessorsOmitBuffer(t: Transaction, cfg: Config)
    ensures FrequencyBuffer !in AssessUserReputation(t, cfg).reasons
    ensures FrequencyBuffer !in AssessTemporalRisk(t, cfg).reasons
    ensures FrequencyBuffer !in AssessGeographicalRisk(t, cfg).reasons
    ensures FrequencyBuffer !in AssessLatencyRisk(t, cfg).reasons
  {
  }

  lemma AmountOmitsBuffer(t: Transaction, cfg: Config, amount: Assessment)
    requires AssessAmountRisk(t, cfg) == Ok(amount)
    ensures FrequencyBuffer !in amount.reasons
  {
    assert forall i :: 0 <= i < |amount.reasons| ==> amount.reasons[i] != FrequencyBuffer;
  }

  /** Only the buffer emits the buffer reason; no assessor does. */
  lemma AssessorsOmitBuffer(t: Transaction, cfg: Config, amount: Assessment)
    requires AssessAmountRisk(t, cfg) == Ok(amount)
    ensures FrequencyBuffer !in RawReasons(t, cfg, amount)
  {
    var cat := AssessCategoricalRisks(t, cfg).reasons;
    var rep := AssessUserReputation(t, cfg).reasons;
    var tmp := AssessTemporalRisk(t, cfg).reasons;
    var geo := AssessGeographicalRisk(t, cfg).reasons;
    var lat := AssessLatencyRisk(t, cfg).reasons;
    CategoricalOmitsBuffer(t, cfg);
    FlatAssessorsOmitBuffer(t, cfg);
    AmountOmitsBuffer(t, cfg, amount);
    assert RawReasons(t, cfg, amount) == cat + rep + tmp + geo + amount.reasons + lat;
  }

  /** Off the hard-block path, the reasons end with the buffer reason
      exactly when the buffer fires. */
  lemma BufferReasonLast(t: Transaction, cfg: Config)
    requires !Blocked(t, cfg)
    requires AssessAmountRisk(t, cfg).Ok?
    ensures var rs := AssessRow(t, cfg).value.reasons;
            (|rs| > 0 && rs[|rs| - 1] == FrequencyBuffer)
            <==> EstablishedCustomer(t) && RawPoints(t, cfg, AssessAmountRisk(t, cfg).value) > 0
  {
    var amount := AssessAmountRisk(t, cfg).value;
    var raw := RawReasons(t, cfg, amount);
    NonBlockedComposition(t, cfg);
    AssessorsOmitBuffer(t, cfg, amount);
    if |raw| > 0 {
      assert raw[|raw| - 1] in raw;
    }
  }

  /** When the buffer fires, the reasons field is the rules' reasons
      followed by ";frequency_buffer(-1)"; otherwise it is the rules'
      reasons alone. */
  lemma BufferReasonText(t: Transaction, cfg: Config)
    requires !Blocked(t, cfg)
    requires AssessAmountRisk(t, cfg).Ok?
    ensures var amount := AssessAmountRisk(t, cfg).value;
            var text := ReasonsText(AssessRow(t, cfg).value.reasons);
            var rules := ReasonsText(RawReasons(t, cfg, amount));
            if EstablishedCustomer(t) && RawPoints(t, cfg, amount) > 0 then
              text == rules + ";" + "frequency_buffer(-1)"
            else text == rules
  {
    var amount := AssessAmountRisk(t, cfg).value;
    var raw := RawReasons(t, cfg, amount);
    NonBlockedComposition(t, cfg);
    if EstablishedCustomer(t) && RawPoints(t, cfg, amount) > 0 {
      BufferedText(raw, RawPoints(t, cfg, amount));
    }
  }

  /** Reasons worth a positive score are not empty, so the buffer reason
      joins them after a ";". */
  lemma BufferedText(raw: seq<Reason>, score: int)
    requires score > 0 && SumContributions(raw + [FrequencyBuffer]) == score - 1
    ensures ReasonsText(raw + [FrequencyBuffer]) == ReasonsText(raw) + ";" + "frequency_buffer(-1)"
  {
    SumContributionsAppend(raw, [FrequencyBuffer]);
    SumContributionsOne(FrequencyBuffer);
    assert |raw| > 0;
    ReasonsTextSnoc(raw, FrequencyBuffer);
  }

  /** The text alone does not tell whether the buffer fired: a reputation
      table with a key ending in ";frequency_buffer" and weight -1 yields a
      reputation reason that ends the same way, for a customer the buffer
      skips. */
  lemma BufferTextImitated()
    ensures var cfg := DefaultConfig.(userReputationWeights := map["x;frequency_buffer" := -1]);
            var t := DefaultTransaction.(userReputation := "x;frequency_buffer");
            !EstablishedCustomer(t)
            && AssessUserReputation(t, cfg).reasons == [UserReputation("x;frequency_buffer", -1)]
            && Render(UserReputation("x" + ";frequency_buffer", -1)) == "user_reputation:" + "x" + ";frequency_buffer" + "(-1)"
  {
    LowerNoUpper("x;frequency_buffer");
    RenderImitation("x");
  }

  lemma RenderImitation(w: string)
    ensures Render(UserReputation(w + ";frequency_buffer", -1)) == "user_reputation:" + w + ";frequency_buffer" + "(-1)"
  {
    assert IntToString(-1) == "-1";
  }

  // ---------------------------------------------------------------------
  // Concrete transactions
  // ---------------------------------------------------------------------

  lemma ScenarioSpellings()
    ensures Lower("medium") == "medium" && Lower("new_domain") == "new_domain" && Lower("low") == "low"
    ensures Lower("digital") == "digital" && Lower("new") == "new"
  {
    assert Lower("medium") == "medium" by { LowerNoUpper("medium"); }
    assert Lower("new_domain") == "new_domain" by { LowerNoUpper("new_domain"); }
    assert Lower("low") == "low" by { LowerNoUpper("low"); }
    assert Lower("digital") == "digital" by { LowerNoUpper("digital"); }
    LowerNewAndHighRisk();
  }

  /** A medium-risk digital purchase of 5200.00 by a new user at 23:00. */
  const NightDigitalPurchase: Transaction :=
    DefaultTransaction.(amountCents := 520000, customerTxn30d := 1, hour := 23, productType := "digital",
                        latencyMs := 180, ipRisk := "medium", emailRisk := "new_domain",
                        binCountry := "MX", ipCountry := "MX")

  lemma DefaultCategoricalWeights()
    ensures Lookup(DefaultConfig.ipRiskWeights, "medium") == 2
    ensures Lookup(DefaultConfig.emailRiskWeights, "new_domain") == 2
    ensures Lookup(DefaultConfig.ipRiskWeights, "low") == 0
    ensures Lookup(DefaultConfig.emailRiskWeights, "low") == 0
    ensures Lookup(DefaultConfig.deviceFingerprintRiskWeights, "low") == 0
  {
  }

  lemma NightDigitalFields()
    ensures FieldReasons(NightDigitalPurchase, DefaultConfig, IpRisk) == [CategoricalRisk(IpRisk, "medium", 2)]
    ensures FieldReasons(NightDigitalPurchase, DefaultConfig, EmailRisk)
            == [CategoricalRisk(EmailRisk, "new_domain", 2)]
    ensures FieldReasons(NightDigitalPurchase, DefaultConfig, DeviceFingerprintRisk) == []
    ensures FieldPoints(NightDigitalPurchase, DefaultConfig, IpRisk) == 2
    ensures FieldPoints(NightDigitalPurchase, DefaultConfig, EmailRisk) == 2
    ensures FieldPoints(NightDigitalPurchase, DefaultConfig, DeviceFingerprintRisk) == 0
  {
    ScenarioSpellings();
    DefaultCategoricalWeights();
  }

  lemma NightDigitalCategorical()
    ensures AssessCategoricalRisks(NightDigitalPurchase, DefaultConfig)
            == Assessment(4, [CategoricalRisk(IpRisk, "medium", 2), CategoricalRisk(EmailRisk, "new_domain", 2)])
  {
    NightDigitalFields();
  }

  lemma NightDigitalOthers()
    ensures AssessUserReputation(NightDigitalPurchase, DefaultConfig) == Assessment(0, [])
    ensures AssessTemporalRisk(NightDigitalPurchase, DefaultConfig) == Assessment(1, [NightHour(23, 1)])
    ensures AssessGeographicalRisk(NightDigitalPurchase, DefaultConfig) == Assessment(0, [])
    ensures AssessAmountRisk(NightDigitalPurchase, DefaultConfig)
            == Ok(Assessment(4, [HighAmount("digital", 520000, 2), NewUserHighAmount(2)]))
    ensures AssessLatencyRisk(NightDigitalPurchase, DefaultConfig) == Assessment(0, [])
    ensures !EstablishedCustomer(NightDigitalPurchase)
  {
    ScenarioSpellings();
  }

  /** Its reasons: ip +2, e-mail +2, night +1, high amount +2, new user +2. */
  const NightDigitalReasons: seq<Reason> :=
    [CategoricalRisk(IpRisk, "medium", 2), CategoricalRisk(EmailRisk, "new_domain", 2),
     NightHour(23, 1), HighAmount("digital", 520000, 2), NewUserHighAmount(2)]

  /** The silent reputation, geography and latency assessors add no reasons
      between the categorical, night and amount ones. */
  lemma NightDigitalReasonsInOrder(cat: seq<Reason>, night: seq<Reason>, amount: seq<Reason>, silent: seq<Reason>)
    requires cat == [CategoricalRisk(IpRisk, "medium", 2), CategoricalRisk(EmailRisk, "new_domain", 2)]
    requires night == [NightHour(23, 1)]
    requires amount == [HighAmount("digital", 520000, 2), NewUserHighAmount(2)]
    requires silent == []
    ensures cat + silent + night + silent + amount + silent == NightDigitalReasons
  {
  }

  /** The purchase scores 9 and goes to review, with the reasons in rule order. */
  lemma NightDigitalPurchaseIsReviewed()
    ensures AssessRow(NightDigitalPurchase, DefaultConfig) == Ok(ScoreResult(InReview, 9, NightDigitalReasons))
  {
    var t, cfg := NightDigitalPurchase, DefaultConfig;
    NightDigitalCategorical();
    NightDigitalOthers();
    var none := Assessment(0, []);
    var cat := Assessment(4, [CategoricalRisk(IpRisk, "medium", 2), CategoricalRisk(EmailRisk, "new_domain", 2)]);
    var night := Assessment(1, [NightHour(23, 1)]);
    var amount := Assessment(4, [HighAmount("digital", 520000, 2), NewUserHighAmount(2)]);
    NightDigitalReasonsInOrder(cat.reasons, night.reasons, amount.reasons, none.reasons);
    assert DetermineDecision(9, cfg) == InReview;
    AssessRowFromParts(t, cfg, cat, none, night, none, amount, none);
  }

  lemma NightDigitalNumbers()
    ensures IntToString(1) == "1" && IntToString(2) == "2" && IntToString(23) == "23"
    ensures AmountToString(520000) == "5200.0"
  {
    assert NatToString(23) == NatToString(2) + "3";
    assert NatToString(5200) == "5200" by {
      assert NatToString(52) == NatToString(5) + "2";
      assert NatToString(520) == NatToString(52) + "0";
      assert NatToString(5200) == NatToString(520) + "0";
    }
    WholeAmountToString(5200);
  }

  lemma RenderIpMedium()
    ensures Render(CategoricalRisk(IpRisk, "medium", 2)) == "ip_risk:medium(+2)"
  {
    NightDigitalNumbers();
  }

  lemma RenderEmailNewDomain()
    ensures Render(CategoricalRisk(EmailRisk, "new_domain", 2)) == "email_risk:new_domain(+2)"
  {
    NightDigitalNumbers();
  }

  lemma RenderNight23()
    ensures Render(NightHour(23, 1)) == "night_hour:23(+1)"
  {
    NightDigitalNumbers();
  }

  lemma RenderHighDigital()
    ensures Render(HighAmount("digital", 520000, 2)) == "high_amount:digital:5200.0(+2)"
  {
    NightDigitalNumbers();
  }

  lemma RenderNewUser()
    ensures Render(NewUserHighAmount(2)) == "new_user_high_amount(+2)"
  {
    NightDigitalNumbers();
  }

  lemma NightDigitalRendered()
    ensures RenderAll(NightDigitalReasons)
            == ["ip_risk:medium(+2)", "email_risk:new_domain(+2)", "night_hour:23(+1)",
                "high_amount:digital:5200.0(+2)", "new_user_high_amount(+2)"]
  {
    RenderIpMedium();
    RenderEmailNewDomain();
    RenderNight23();
    RenderHighDigital();
    RenderNewUser();
    var ss := RenderAll(NightDigitalReasons);
    assert |ss| == 5;
    assert ss[0] == "ip_risk:medium(+2)";
    assert ss[1] == "email_risk:new_domain(+2)";
    assert ss[2] == "night_hour:23(+1)";
    assert ss[3] == "high_amount:digital:5200.0(+2)";
    assert ss[4] == "new_user_high_amount(+2)";
  }

  lemma JoinFive(a: string, b: string, c: string, d: string, e: string, sep: string)
    ensures Join([a, b, c, d, e], sep) == a + sep + b + sep + c + sep + d + sep + e
  {
    assert Join([a], sep) == a;
    assert [a] + [b] == [a, b] && [a, b] + [c] == [a, b, c];
    assert [a, b, c] + [d] == [a, b, c, d] && [a, b, c, d] + [e] == [a, b, c, d, e];
    JoinSnoc([a], b, sep);
    JoinSnoc([a, b], c, sep);
    JoinSnoc([a, b, c], d, sep);
    JoinSnoc([a, b, c, d], e, sep);
  }

  /** Rendered and joined, the reasons read exactly as the engine writes them. */
  lemma NightDigitalReasonsText()
    ensures ReasonsText(NightDigitalReasons)
            == "ip_risk:medium(+2)" + ";" + "email_risk:new_domain(+2)" + ";" + "night_hour:23(+1)" + ";"
               + "high_amount:digital:5200.0(+2)" + ";" + "new_user_high_amount(+2)"
  {
    NightDigitalRendered();
    JoinFive("ip_risk:medium(+2)", "email_risk:new_domain(+2)", "night_hour:23(+1)",
             "high_amount:digital:5200.0(+2)", "new_user_high_amount(+2)", ";");
  }

  /** Two chargebacks and a high IP risk reject a small purchase outright. */
  lemma ChargebacksWithHighIpAreRejected()
    ensures var t := DefaultTransaction.(amountCents := 30000, chargebackCount := 2, productType := "digital",
                                         latencyMs := 100, ipRisk := "high", binCountry := "MX", ipCountry := "MX");
            AssessRow(t, DefaultConfig) == Ok(ScoreResult(Rejected, 100, [HardBlock]))
  {
    LowerHighSpellings();
  }

  /** A card issued in Mexico used from a US address. */
  lemma RenderGeoMismatchMxUs()
    ensures Render(GeoMismatch("MX", "US", 2)) == "geo_mismatch:MX!=US(+2)"
  {
    assert NatToString(2) == "2";
  }

  /** A three-second authorisation. */
  lemma RenderLatency3000()
    ensures Render(LatencyExtreme(3000, 2)) == "latency_extreme:3000ms(+2)"
  {
    LatencyNumbers();
  }

  lemma LatencyNumbers()
    ensures IntToString(2) == "2" && IntToString(3000) == "3000"
  {
    assert NatToString(30) == NatToString(3) + "0";
    assert NatToString(300) == NatToString(30) + "0";
    assert NatToString(3000) == NatToString(300) + "0";
  }

  /** A 500.00 digital purchase with every other field at its default. */
  const SmallDefaultPurchase: Transaction := DefaultTransaction.(amountCents := 50000, productType := "digital")

  lemma SmallDefaultCategorical()
    ensures AssessCategoricalRisks(SmallDefaultPurchase, DefaultConfig) == Assessment(0, [])
  {
    var t, cfg := SmallDefaultPurchase, DefaultConfig;
    ScenarioSpellings();
    DefaultCategoricalWeights();
    assert FieldPoints(t, cfg, IpRisk) == 0;
    assert FieldPoints(t, cfg, EmailRisk) == 0;
    assert FieldPoints(t, cfg, DeviceFingerprintRisk) == 0;
    assert FieldReasons(t, cfg, IpRisk) == [];
    assert FieldReasons(t, cfg, EmailRisk) == [];
    assert FieldReasons(t, cfg, DeviceFingerprintRisk) == [];
  }

  lemma SmallDefaultReputation()
    ensures AssessUserReputation(SmallDefaultPurchase, DefaultConfig) == Assessment(0, [])
  {
    LowerNewAndHighRisk();
    assert Lookup(DefaultConfig.userReputationWeights, "new") == 0;
  }

  lemma SmallDefaultAmount()
    ensures AssessAmountRisk(SmallDefaultPurchase, DefaultConfig) == Ok(Assessment(0, []))
  {
    LowerNoUpper("digital");
    assert IsHighAmount(50000, "digital", DefaultConfig.amountThresholds) == Ok(false);
  }

  lemma SmallDefaultAssessors()
    ensures AssessCategoricalRisks(SmallDefaultPurchase, DefaultConfig) == Assessment(0, [])
    ensures AssessUserReputation(SmallDefaultPurchase, DefaultConfig) == Assessment(0, [])
    ensures AssessTemporalRisk(SmallDefaultPurchase, DefaultConfig) == Assessment(0, [])
    ensures AssessGeographicalRisk(SmallDefaultPurchase, DefaultConfig) == Assessment(0, [])
    ensures AssessAmountRisk(SmallDefaultPurchase, DefaultConfig) == Ok(Assessment(0, []))
    ensures AssessLatencyRisk(SmallDefaultPurchase, DefaultConfig) == Assessment(0, [])
  {
    SmallDefaultCategorical();
    SmallDefaultReputation();
    SmallDefaultAmount();
  }

  /** It scores 0 and is accepted, with an empty reasons field. */
  lemma SmallDefaultPurchaseIsAccepted()
    ensures AssessRow(SmallDefaultPurchase, DefaultConfig) == Ok(ScoreResult(Accepted, 0, []))
    ensures ReasonsText(AssessRow(SmallDefaultPurchase, DefaultConfig).value.reasons) == ""
  {
    var t, cfg := SmallDefaultPurchase, DefaultConfig;
    var none := Assessment(0, []);
    ScenarioSpellings();
    SmallDefaultAssessors();
    AssessRowFromParts(t, cfg, none, none, none, none, none, none);
    assert none.reasons + none.reasons + none.reasons + none.reasons + none.reasons + none.reasons == [];
  }
}
