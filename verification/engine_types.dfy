/**
 The data the scoring engine works on: its configuration, the transaction
 record, the reason codes it emits and the decision it reaches.
 */
module EngineTypes {
  import opened Text

  /** The engine's configuration, one field per entry of the engine's
      configuration dictionary. Categorical weight tables map a lower-cased
      category to a signed point delta; amount thresholds are whole pesos. */
  datatype Config = Config(
    amountThresholds: map<string, int>,
    latencyMsExtreme: int,
    chargebackHardBlock: int,
    ipRiskWeights: map<string, int>,
    emailRiskWeights: map<string, int>,
    deviceFingerprintRiskWeights: map<string, int>,
    userReputationWeights: map<string, int>,
    nightHourPoints: int,
    geoMismatchPoints: int,
    highAmountPoints: int,
    latencyExtremePoints: int,
    newUserHighAmountPoints: int,
    rejectAt: int,
    reviewAt: int)

  /** The shipped default configuration. */
  const DefaultConfig: Config := Config(
    amountThresholds := map["digital" := 2500, "physical" := 6000, "subscription" := 1500, "_default" := 4000],
    latencyMsExtreme := 2500,
    chargebackHardBlock := 2,
    ipRiskWeights := map["low" := 0, "medium" := 2, "high" := 4],
    emailRiskWeights := map["low" := 0, "medium" := 1, "high" := 3, "new_domain" := 2],
    deviceFingerprintRiskWeights := map["low" := 0, "medium" := 2, "high" := 4],
    userReputationWeights := map["trusted" := -2, "recurrent" := -1, "new" := 0, "high_risk" := 4],
    nightHourPoints := 1,
    geoMismatchPoints := 2,
    highAmountPoints := 2,
    latencyExtremePoints := 2,
    newUserHighAmountPoints := 2,
    rejectAt := 10,
    reviewAt := 4)

  /** A transaction record as the engine reads it. Categorical fields keep
      the caller's spelling; the engine folds their case itself. The amount
      is held in centavos (`amountCents / 100` pesos). */
  datatype Transaction = Transaction(
    chargebackCount: int,
    ipRisk: string,
    emailRisk: string,
    deviceFingerprintRisk: string,
    userReputation: string,
    hour: int,
    binCountry: string,
    ipCountry: string,
    amountCents: int,
    productType: string,
    customerTxn30d: int,
    latencyMs: int)

  /** The record the engine sees when every field is absent: each field takes
      the default the engine substitutes for it. */
  const DefaultTransaction: Transaction := Transaction(
    chargebackCount := 0,
    ipRisk := "low",
    emailRisk := "low",
    deviceFingerprintRisk := "low",
    userReputation := "new",
    hour := 12,
    binCountry := "",
    ipCountry := "",
    amountCents := 0,
    productType := "_default",
    customerTxn30d := 0,
    latencyMs := 0)

  /** The three categorical risk dimensions, in the order they are assessed. */
  datatype RiskField = IpRisk | EmailRisk | DeviceFingerprintRisk

  function FieldName(f: RiskField): string {
    match f
    case IpRisk => "ip_risk"
    case EmailRisk => "email_risk"
    case DeviceFingerprintRisk => "device_fingerprint_risk"
  }

  function FieldValue(t: Transaction, f: RiskField): string {
    match f
    case IpRisk => t.ipRisk
    case EmailRisk => t.emailRisk
    case DeviceFingerprintRisk => t.deviceFingerprintRisk
  }

  function FieldWeights(cfg: Config, f: RiskField): map<string, int> {
    match f
    case IpRisk => cfg.ipRiskWeights
    case EmailRisk => cfg.emailRiskWeights
    case DeviceFingerprintRisk => cfg.deviceFingerprintRiskWeights
  }

  /** A weight-table lookup in which an unmapped category is worth 0 points. */
  function Lookup(weights: map<string, int>, key: string): int {
    if key in weights then weights[key] else 0
  }

  /** The reason codes, one constructor per kind of string the engine emits. */
  datatype Reason =
    | HardBlock
    | CategoricalRisk(field: RiskField, value: string, points: int)
    | UserReputation(reputation: string, points: int)
    | NightHour(hour: int, points: int)
    | GeoMismatch(binCountry: string, ipCountry: string, points: int)
    | HighAmount(productType: string, amountCents: int, points: int)
    | NewUserHighAmount(points: int)
    | LatencyExtreme(latencyMs: int, points: int)
    | FrequencyBuffer

  /** "(+N)": the engine always writes a '+' before these points, so a
      negative weight would print as "(+-N)". */
  function PlusPoints(points: int): string {
    "(+" + IntToString(points) + ")"
  }

  /** The text every rendering of a reason kind starts with. */
  function Tag(r: Reason): string {
    match r
    case HardBlock => "hard_block:"
    case CategoricalRisk(f, _, _) => FieldName(f) + ":"
    case UserReputation(_, _) => "user_reputation:"
    case NightHour(_, _) => "night_hour:"
    case GeoMismatch(_, _, _) => "geo_mismatch:"
    case HighAmount(_, _, _) => "high_amount:"
    case NewUserHighAmount(_) => "new_user_high_amount("
    case LatencyExtreme(_, _) => "latency_extreme:"
    case FrequencyBuffer => "frequency_buffer("
  }

  /** The reason as the engine writes it: its kind's tag first and, except
      for the hard-block literal, a closing parenthesis last. The hard-block
      reason is a fixed literal that spells the threshold as 2 whatever the
      configured one is. */
  function Render(r: Reason): (s: string)
    ensures |s| > 0
    ensures Tag(r) <= s
    ensures !r.HardBlock? ==> s[|s| - 1] == ')'
  {
    match r
    case HardBlock => "hard_block:chargebacks>=2+ip_high"
    case CategoricalRisk(f, v, p) => FieldName(f) + ":" + v + PlusPoints(p)
    case UserReputation(v, p) => "user_reputation:" + v + "(" + (if p >= 0 then "+" else "") + IntToString(p) + ")"
    case NightHour(h, p) => "night_hour:" + IntToString(h) + PlusPoints(p)
    case GeoMismatch(b, i, p) => "geo_mismatch:" + b + "!=" + i + PlusPoints(p)
    case HighAmount(pt, a, p) => "high_amount:" + pt + ":" + AmountToString(a) + PlusPoints(p)
    case NewUserHighAmount(p) => "new_user_high_amount" + PlusPoints(p)
    case LatencyExtreme(l, p) => "latency_extreme:" + IntToString(l) + "ms" + PlusPoints(p)
    case FrequencyBuffer => "frequency_buffer(-1)"
  }

  function RenderAll(rs: seq<Reason>): (ss: seq<string>)
    ensures |ss| == |rs|
    ensures forall i :: 0 <= i < |rs| ==> ss[i] == Render(rs[i])
  {
    if |rs| == 0 then [] else [Render(rs[0])] + RenderAll(rs[1..])
  }

  /** The reasons field of a result: the rendered reasons joined by ";". */
  function ReasonsText(rs: seq<Reason>): string {
    Join(RenderAll(rs), ";")
  }

  /** One more reason after a non-empty list adds ";" and its rendering. */
  lemma ReasonsTextSnoc(rs: seq<Reason>, r: Reason)
    requires |rs| > 0
    ensures ReasonsText(rs + [r]) == ReasonsText(rs) + ";" + Render(r)
  {
    assert RenderAll(rs + [r]) == RenderAll(rs) + [Render(r)];
    JoinSnoc(RenderAll(rs), Render(r), ";");
  }

  /** The points a reason stands for in the additive score. The hard-block
      reason stands for none: its score of 100 is a sentinel, not a sum. */
  function Contribution(r: Reason): int {
    match r
    case HardBlock => 0
    case FrequencyBuffer => -1
    case CategoricalRisk(_, _, p) => p
    case UserReputation(_, p) => p
    case NightHour(_, p) => p
    case GeoMismatch(_, _, p) => p
    case HighAmount(_, _, p) => p
    case NewUserHighAmount(p) => p
    case LatencyExtreme(_, p) => p
  }

  /** Total of the contributions, accumulated left to right. */
  function SumContributions(rs: seq<Reason>): int {
    if |rs| == 0 then 0 else SumContributions(rs[..|rs| - 1]) + Contribution(rs[|rs| - 1])
  }

  lemma {:induction false} SumContributionsAppend(a: seq<Reason>, b: seq<Reason>)
    ensures SumContributions(a + b) == SumContributions(a) + SumContributions(b)
    decreases |b|
  {
    if |b| > 0 {
      var b' := b[..|b| - 1];
      SumContributionsAppend(a, b');
      assert (a + b)[..|a + b| - 1] == a + b';
    } else {
      assert a + b == a;
    }
  }

  lemma SumContributionsOne(r: Reason)
    ensures SumContributions([r]) == Contribution(r)
  {
    assert [r][..0] == [];
  }

  lemma SumContributionsTwo(r1: Reason, r2: Reason)
    ensures SumContributions([r1, r2]) == Contribution(r1) + Contribution(r2)
  {
    assert [r1, r2][..1] == [r1];
    SumContributionsOne(r1);
  }

  /** An assessor's output: the points it adds and the reasons it gives. */
  datatype Assessment = Assessment(points: int, reasons: seq<Reason>)

  /** The reasons account for the points exactly. */
  predicate Explains(a: Assessment) {
    a.points == SumContributions(a.reasons)
  }

  datatype Decision = Accepted | InReview | Rejected

  function DecisionName(d: Decision): string {
    match d
    case Accepted => "ACCEPTED"
    case InReview => "IN_REVIEW"
    case Rejected => "REJECTED"
  }

  /** The three decisions are written as three different words. */
  lemma DecisionNamesDistinct(a: Decision, b: Decision)
    ensures DecisionName(a) == DecisionName(b) <==> a == b
  {
  }

  /** Severity order of decisions. */
  function Rank(d: Decision): nat {
    match d
    case Accepted => 0
    case InReview => 1
    case Rejected => 2
  }

  datatype ScoreResult = ScoreResult(decision: Decision, riskScore: int, reasons: seq<Reason>)

  datatype Option<T> = None | Some(value: T)

  /** A configuration that cannot score a transaction: its product type has
      no threshold and there is no "_default" threshold to fall back on. */
  datatype ConfigError = MissingAmountThreshold(productType: string)

  datatype Result<T> = Ok(value: T) | Err(error: ConfigError)
}
