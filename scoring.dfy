/**
 * The four impact scorers of the incident impact evaluator.  Each adds fixed
 * points per factor (strict `>` thresholds) and maps the total to a severity
 * band with non-strict `>=` cutoffs.
 */
module Scoring {
  import opened Optional

  /**
   * The incident facts the scorers read.  Every field the evaluator
   * destructures with a default is present here, holding that default when
   * the incident leaves it out (see `NoFacts`).
   */
  datatype Incident = Incident(
    serviceOutage: bool,
    serviceDegradation: bool,
    percentageImpacted: real,
    durationMinutes: real,
    customersFacing: bool,
    customerCount: int,
    customerTier: string,
    customerReports: int,
    revenueImpacted: bool,
    estimatedLoss: real,
    affectsPayments: bool,
    affectsBilling: bool,
    securityBreach: bool,
    dataExposure: bool,
    sensitiveDataInvolved: bool,
    breachSize: int,
    systemsCompromised: seq<string>,
    affectedSystems: seq<string>,
    relatedServices: seq<string>,
    userCount: int)

  /** An incident that states nothing: every field at its destructuring default. */
  function NoFacts(): Incident
  {
    Incident(false, false, 0.0, 0.0, false, 0, "standard", 0, false, 0.0, false, false,
             false, false, false, 0, [], [], [], 0)
  }

  /** The facts a metric result echoes back. */
  datatype Details =
    | ServiceDetails(serviceOutage: bool, serviceDegradation: bool, percentageImpacted: real, durationMinutes: real)
    | CustomerDetails(customersFacing: bool, customerCount: int, customerTier: string, customerReports: int)
    | RevenueDetails(revenueImpacted: bool, estimatedLoss: real, affectsPayments: bool, affectsBilling: bool, durationMinutes: real)
    | SecurityDetails(securityBreach: bool, dataExposure: bool, sensitiveDataInvolved: bool, breachSize: int, systemsCompromised: seq<string>)
    | Note(text: string)

  /** One metric's assessment; `impactScore` is absent for an unknown metric. */
  datatype MetricResult = MetricResult(severity: string, confidence: real, impactScore: Option<real>, details: Details)

  /** The four levels a scorer can produce, least severe first. */
  function Rank(severity: string): int
  {
    if severity == "critical" then 3
    else if severity == "high" then 2
    else if severity == "medium" then 1
    else 0
  }

  /** Maps a score to a severity with `>=` cutoffs; a score on a cutoff takes the higher band. */
  function Band(score: real, critical: real, high: real, medium: real): (s: string)
    requires medium <= high <= critical
    ensures s == "critical" <==> score >= critical
    ensures s == "high" <==> high <= score < critical
    ensures s == "medium" <==> medium <= score < high
    ensures s == "low" <==> score < medium
  {
    if score >= critical then "critical"
    else if score >= high then "high"
    else if score >= medium then "medium"
    else "low"
  }

  /** A higher score never gets a less severe band. */
  lemma BandMonotone(x: real, y: real, critical: real, high: real, medium: real)
    requires medium <= high <= critical && x <= y
    ensures Rank(Band(x, critical, high, medium)) <= Rank(Band(y, critical, high, medium))
  {
  }

  // ---------------------------------------------------------------- service

  function ServiceScore(f: Incident): (score: real)
    ensures 0.0 <= f.percentageImpacted <= 100.0 ==> 5.0 <= score <= 125.0
  {
    var base := if f.serviceOutage then 50.0 else if f.serviceDegradation then 25.0 else 0.0;
    var duration :=
      if f.durationMinutes > 60.0 then 25.0
      else if f.durationMinutes > 30.0 then 15.0
      else if f.durationMinutes > 10.0 then 10.0
      else 5.0;
    base + f.percentageImpacted * 0.5 + duration
  }

  function EvaluateServiceImpact(f: Incident): (r: MetricResult)
    ensures r.confidence == 0.8 && r.impactScore == Some(ServiceScore(f))
    ensures r.severity == "critical" <==> ServiceScore(f) >= 75.0
    ensures r.severity == "high" <==> 50.0 <= ServiceScore(f) < 75.0
    ensures r.severity == "medium" <==> 25.0 <= ServiceScore(f) < 50.0
    ensures r.severity == "low" <==> ServiceScore(f) < 25.0
    ensures r.details == ServiceDetails(f.serviceOutage, f.serviceDegradation, f.percentageImpacted, f.durationMinutes)
  {
    var score := ServiceScore(f);
    MetricResult(Band(score, 75.0, 50.0, 25.0), 0.8, Some(score),
                 ServiceDetails(f.serviceOutage, f.serviceDegradation, f.percentageImpacted, f.durationMinutes))
  }

  /** `g` states at least as much service impact as `f`. */
  predicate ServiceDominates(f: Incident, g: Incident)
  {
    (f.serviceOutage ==> g.serviceOutage)
    && (f.serviceDegradation ==> g.serviceDegradation || g.serviceOutage)
    && f.percentageImpacted <= g.percentageImpacted
    && f.durationMinutes <= g.durationMinutes
  }

  lemma ServiceScoreMonotone(f: Incident, g: Incident)
    requires ServiceDominates(f, g)
    ensures ServiceScore(f) <= ServiceScore(g)
    ensures Rank(EvaluateServiceImpact(f).severity) <= Rank(EvaluateServiceImpact(g).severity)
  {
  }

  // --------------------------------------------------------------- customer

  /** The points a customer tier adds: an unrecognised tier adds nothing. */
  function TierPoints(tier: string): (p: real)
    ensures 0.0 <= p <= 20.0
    ensures p == 0.0 <==> tier !in {"enterprise", "business", "premium"}
  {
    if tier == "enterprise" then 20.0
    else if tier == "business" then 15.0
    else if tier == "premium" then 10.0
    else 0.0
  }

  function CustomerScore(f: Incident): (score: real)
    ensures 0.0 <= score <= 110.0
  {
    var facing := if f.customersFacing then 30.0 else 0.0;
    var count :=
      if f.customerCount > 1000 then 40.0
      else if f.customerCount > 100 then 30.0
      else if f.customerCount > 10 then 20.0
      else if f.customerCount > 0 then 10.0
      else 0.0;
    var tier := TierPoints(f.customerTier);
    var reports :=
      if f.customerReports > 50 then 20.0
      else if f.customerReports > 10 then 15.0
      else if f.customerReports > 0 then 10.0
      else 0.0;
    facing + count + tier + reports
  }

  function EvaluateCustomerImpact(f: Incident): (r: MetricResult)
    ensures r.confidence == 0.7 && r.impactScore == Some(CustomerScore(f))
    ensures r.severity == "critical" <==> CustomerScore(f) >= 70.0
    ensures r.severity == "high" <==> 50.0 <= CustomerScore(f) < 70.0
    ensures r.severity == "medium" <==> 30.0 <= CustomerScore(f) < 50.0
    ensures r.severity == "low" <==> CustomerScore(f) < 30.0
    ensures r.details == CustomerDetails(f.customersFacing, f.customerCount, f.customerTier, f.customerReports)
  {
    var score := CustomerScore(f);
    MetricResult(Band(score, 70.0, 50.0, 30.0), 0.7, Some(score),
                 CustomerDetails(f.customersFacing, f.customerCount, f.customerTier, f.customerReports))
  }

  /** `g` states at least as much customer impact as `f`. */
  predicate CustomerDominates(f: Incident, g: Incident)
  {
    (f.customersFacing ==> g.customersFacing)
    && f.customerCount <= g.customerCount
    && TierPoints(f.customerTier) <= TierPoints(g.customerTier)
    && f.customerReports <= g.customerReports
  }

  lemma CustomerScoreMonotone(f: Incident, g: Incident)
    requires CustomerDominates(f, g)
    ensures CustomerScore(f) <= CustomerScore(g)
    ensures Rank(EvaluateCustomerImpact(f).severity) <= Rank(EvaluateCustomerImpact(g).severity)
  {
  }

  // ---------------------------------------------------------------- revenue

  function RevenueScore(f: Incident): (score: real)
    ensures 0.0 <= score <= 135.0
  {
    var impacted := if f.revenueImpacted then 30.0 else 0.0;
    var loss :=
      if f.estimatedLoss > 100000.0 then 50.0
      else if f.estimatedLoss > 10000.0 then 40.0
      else if f.estimatedLoss > 1000.0 then 30.0
      else if f.estimatedLoss > 0.0 then 20.0
      else 0.0;
    var payments := if f.affectsPayments then 25.0 else 0.0;
    var billing := if f.affectsBilling then 15.0 else 0.0;
    var duration :=
      if f.durationMinutes > 60.0 then 15.0
      else if f.durationMinutes > 30.0 then 10.0
      else if f.durationMinutes > 10.0 then 5.0
      else 0.0;
    impacted + loss + payments + billing + duration
  }

  function EvaluateRevenueImpact(f: Incident): (r: MetricResult)
    ensures r.confidence == 0.6 && r.impactScore == Some(RevenueScore(f))
    ensures r.severity == "critical" <==> RevenueScore(f) >= 75.0
    ensures r.severity == "high" <==> 50.0 <= RevenueScore(f) < 75.0
    ensures r.severity == "medium" <==> 30.0 <= RevenueScore(f) < 50.0
    ensures r.severity == "low" <==> RevenueScore(f) < 30.0
    ensures r.details == RevenueDetails(f.revenueImpacted, f.estimatedLoss, f.affectsPayments, f.affectsBilling, f.durationMinutes)
  {
    var score := RevenueScore(f);
    MetricResult(Band(score, 75.0, 50.0, 30.0), 0.6, Some(score),
                 RevenueDetails(f.revenueImpacted, f.estimatedLoss, f.affectsPayments, f.affectsBilling, f.durationMinutes))
  }

  /** `g` states at least as much revenue impact as `f`. */
  predicate RevenueDominates(f: Incident, g: Incident)
  {
    (f.revenueImpacted ==> g.revenueImpacted)
    && f.estimatedLoss <= g.estimatedLoss
    && (f.affectsPayments ==> g.affectsPayments)
    && (f.affectsBilling ==> g.affectsBilling)
    && f.durationMinutes <= g.durationMinutes
  }

  lemma RevenueScoreMonotone(f: Incident, g: Incident)
    requires RevenueDominates(f, g)
    ensures RevenueScore(f) <= RevenueScore(g)
    ensures Rank(EvaluateRevenueImpact(f).severity) <= Rank(EvaluateRevenueImpact(g).severity)
  {
  }

  // --------------------------------------------------------------- security

  /** `Math.min(systemsCompromised.length * 5, 20)`. */
  function CompromisedPoints(systems: seq<string>): (p: real)
    ensures p == 5.0 * (|systems| as real) || p == 20.0
    ensures 0.0 <= p <= 20.0 && p <= 5.0 * (|systems| as real)
  {
    if |systems| * 5 < 20 then (|systems| * 5) as real else 20.0
  }

  function SecurityScore(f: Incident): (score: real)
    ensures 0.0 <= score <= 150.0
  {
    var breach := if f.securityBreach then 50.0 else 0.0;
    var exposure := if f.dataExposure then 30.0 else 0.0;
    var sensitive := if f.sensitiveDataInvolved then 20.0 else 0.0;
    var size :=
      if f.breachSize > 10000 then 30.0
      else if f.breachSize > 1000 then 20.0
      else if f.breachSize > 0 then 10.0
      else 0.0;
    breach + exposure + sensitive + size + CompromisedPoints(f.systemsCompromised)
  }

  function EvaluateSecurityImpact(f: Incident): (r: MetricResult)
    ensures r.confidence == 0.7 && r.impactScore == Some(SecurityScore(f))
    ensures r.severity == "critical" <==> SecurityScore(f) >= 70.0
    ensures r.severity == "high" <==> 50.0 <= SecurityScore(f) < 70.0
    ensures r.severity == "medium" <==> 30.0 <= SecurityScore(f) < 50.0
    ensures r.severity == "low" <==> SecurityScore(f) < 30.0
    ensures r.details == SecurityDetails(f.securityBreach, f.dataExposure, f.sensitiveDataInvolved, f.breachSize, f.systemsCompromised)
  {
    var score := SecurityScore(f);
    MetricResult(Band(score, 70.0, 50.0, 30.0), 0.7, Some(score),
                 SecurityDetails(f.securityBreach, f.dataExposure, f.sensitiveDataInvolved, f.breachSize, f.systemsCompromised))
  }

  /** `g` states at least as much security impact as `f`. */
  predicate SecurityDominates(f: Incident, g: Incident)
  {
    (f.securityBreach ==> g.securityBreach)
    && (f.dataExposure ==> g.dataExposure)
    && (f.sensitiveDataInvolved ==> g.sensitiveDataInvolved)
    && f.breachSize <= g.breachSize
    && |f.systemsCompromised| <= |g.systemsCompromised|
  }

  lemma SecurityScoreMonotone(f: Incident, g: Incident)
    requires SecurityDominates(f, g)
    ensures SecurityScore(f) <= SecurityScore(g)
    ensures Rank(EvaluateSecurityImpact(f).severity) <= Rank(EvaluateSecurityImpact(g).severity)
  {
  }

  // --------------------------------------------------------------- dispatch

  /** The metric names the evaluator knows how to score. */
  predicate KnownMetric(name: string)
  {
    name == "service_impact" || name == "customer_impact" || name == "revenue_impact" || name == "security_impact"
  }

  /** The result for a metric name the evaluator does not know. */
  function UnknownMetric(name: string): (r: MetricResult)
    ensures r.severity == "unknown" && r.confidence == 0.0 && r.impactScore.None?
    ensures r.details.Note? && r.details.text == "Unknown metric type: " + name
  {
    MetricResult("unknown", 0.0, None, Note("Unknown metric type: " + name))
  }

  /** Scores one metric, dispatched by its name. */
  function EvaluateMetric(name: string, f: Incident): (r: MetricResult)
    ensures KnownMetric(name) ==> r.severity in {"critical", "high", "medium", "low"} && r.impactScore.Some? && 0.0 < r.confidence < 1.0
    ensures !KnownMetric(name) ==> r.severity == "unknown" && r.confidence == 0.0 && r.impactScore.None?
    ensures name == "service_impact" ==> r == EvaluateServiceImpact(f)
    ensures name == "customer_impact" ==> r == EvaluateCustomerImpact(f)
    ensures name == "revenue_impact" ==> r == EvaluateRevenueImpact(f)
    ensures name == "security_impact" ==> r == EvaluateSecurityImpact(f)
  {
    match name
    case "service_impact" => EvaluateServiceImpact(f)
    case "customer_impact" => EvaluateCustomerImpact(f)
    case "revenue_impact" => EvaluateRevenueImpact(f)
    case "security_impact" => EvaluateSecurityImpact(f)
    case _ => UnknownMetric(name)
  }

  /** An unknown metric name is reported back in the details text. */
  lemma UnknownMetricReported(name: string, f: Incident)
    requires !KnownMetric(name)
    ensures EvaluateMetric(name, f) == UnknownMetric(name)
    ensures EvaluateMetric(name, f).details == Note("Unknown metric type: " + name)
  {
  }

  /** Worked cases: a full outage at 100% for 70 minutes, and an enterprise customer incident. */
  lemma ScoringExamples()
    ensures var f := NoFacts().(serviceOutage := true, percentageImpacted := 100.0, durationMinutes := 70.0);
            ServiceScore(f) == 125.0 && EvaluateServiceImpact(f).severity == "critical"
    ensures var f := NoFacts().(customersFacing := true, customerCount := 1500, customerTier := "enterprise", customerReports := 60);
            CustomerScore(f) == 110.0 && EvaluateCustomerImpact(f).severity == "critical"
    ensures var f := NoFacts().(serviceOutage := true, percentageImpacted := 50.0, durationMinutes := 0.0);
            ServiceScore(f) == 80.0 && EvaluateServiceImpact(f).severity == "critical"
    ensures var f := NoFacts().(serviceDegradation := true, percentageImpacted := 0.0, durationMinutes := 60.0);
            ServiceScore(f) == 40.0 && EvaluateServiceImpact(f).severity == "medium"
  {
  }
}
