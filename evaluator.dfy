/**
 * The incident impact evaluator: it scores each configured metric that the
 * (possibly partial) assessment does not already hold, then fills in the
 * overall severity, the notification times, the impacted systems, the
 * impacted users and the recommendation, keeping every field the partial
 * assessment already sets (the times excepted: they are always recomputed).
 *
 * The assessment is a fresh shallow copy of the partial one, so its metrics
 * map is the caller's own: `MetricTable` is that shared, mutable map.
 */
module Evaluator {
  import opened Optional
  import opened Scoring
  import opened Severity
  import opened Derived

  // ------------------------------------------------------------ metrics map

  /**
   * An entry of the metrics map: a metric result, or a falsy placeholder
   * (`0`, `false` or `''`) that a partial assessment may hold for a metric.
   */
  datatype MetricEntry = Placeholder | Entry(result: MetricResult)

  /** `!!metrics[name]`: the entry is there and is not a placeholder. */
  predicate Holds(o: Option<MetricEntry>)
  {
    o.Some? && o.value.Entry?
  }

  /** The metric names of a map's entries, in insertion order. */
  function Names(entries: seq<(string, MetricEntry)>): (r: seq<string>)
    ensures |r| == |entries|
    ensures forall i :: 0 <= i < |entries| ==> r[i] == entries[i].0
  {
    if entries == [] then [] else [entries[0].0] + Names(entries[1..])
  }

  /** `metrics[name]`, `None` standing for `undefined`. */
  function Lookup(entries: seq<(string, MetricEntry)>, name: string): (r: Option<MetricEntry>)
    ensures r.Some? <==> name in Names(entries)
  {
    if entries == [] then None
    else if entries[0].0 == name then Some(entries[0].1)
    else Lookup(entries[1..], name)
  }

  /** `metrics[name] = e`: an existing key keeps its place, a new key goes last. */
  function Assign(entries: seq<(string, MetricEntry)>, name: string, e: MetricEntry): (r: seq<(string, MetricEntry)>)
    ensures Names(r) == if name in Names(entries) then Names(entries) else Names(entries) + [name]
    ensures forall n :: Lookup(r, n) == if n == name then Some(e) else Lookup(entries, n)
  {
    if entries == [] then [(name, e)]
    else if entries[0].0 == name then [(name, e)] + entries[1..]
    else
      var rest := Assign(entries[1..], name, e);
      assert Names(entries) == [entries[0].0] + Names(entries[1..]);
      [entries[0]] + rest
  }

  /** `Object.values(metrics).map(m => m.severity)`, a placeholder having no severity. */
  function SeveritiesOf(entries: seq<(string, MetricEntry)>): seq<string>
  {
    if entries == [] then []
    else
      var rest := SeveritiesOf(entries[1..]);
      if entries[0].1.Entry? then [entries[0].1.result.severity] + rest else rest
  }

  /** The caller's metrics map, updated in place by the evaluator. */
  class MetricTable {
    var entries: seq<(string, MetricEntry)>

    /** An object has each key once. */
    ghost predicate Valid()
      reads this
    {
      NoDuplicates(Names(entries))
    }

    constructor ()
      ensures Valid() && entries == []
    {
      entries := [];
    }

    function Get(name: string): Option<MetricEntry>
      reads this
    {
      Lookup(entries, name)
    }

    method Put(name: string, e: MetricEntry)
      requires Valid()
      modifies this
      ensures Valid()
      ensures entries == Assign(old(entries), name, e)
    {
      entries := Assign(entries, name, e);
    }
  }

  /** One pass of the loop body: a metric the map does not hold gets `result`. */
  function FillStep(before: seq<(string, MetricEntry)>, name: string, result: MetricResult): seq<(string, MetricEntry)>
  {
    if Holds(Lookup(before, name)) then before else Assign(before, name, Entry(result))
  }

  lemma FillStepLookup(before: seq<(string, MetricEntry)>, name: string, result: MetricResult, x: string)
    ensures Lookup(FillStep(before, name, result), x) ==
              if x == name && !Holds(Lookup(before, name)) then Some(Entry(result)) else Lookup(before, x)
  {
  }

  /** The evaluation loop over the configured metric names, as a function of the map it starts from. */
  function FillMetrics(entries: seq<(string, MetricEntry)>, names: seq<string>, f: Incident): seq<(string, MetricEntry)>
  {
    if names == [] then entries
    else
      var n := |names| - 1;
      FillStep(FillMetrics(entries, names[..n], f), names[n], EvaluateMetric(names[n], f))
  }

  /**
   * After the loop, a configured metric the map did not hold is scored from
   * the incident; every other entry, held or not configured, is unchanged.
   */
  lemma {:induction false} FillMetricsLookup(entries: seq<(string, MetricEntry)>, names: seq<string>, f: Incident, name: string)
    ensures Lookup(FillMetrics(entries, names, f), name) ==
              if name in names && !Holds(Lookup(entries, name)) then Some(Entry(EvaluateMetric(name, f)))
              else Lookup(entries, name)
  {
    if names != [] {
      var n := |names| - 1;
      var prefix, last := names[..n], names[n];
      var before := FillMetrics(entries, prefix, f);
      FillMetricsLookup(entries, prefix, f, name);
      FillMetricsLookup(entries, prefix, f, last);
      assert name in names <==> name in prefix || name == last by {
        assert names == prefix + [last];
      }
      assert FillMetrics(entries, names, f) == FillStep(before, last, EvaluateMetric(last, f));
      FillStepLookup(before, last, EvaluateMetric(last, f), name);
    }
  }

  /** The loop keeps the existing keys in place and appends only configured names. */
  lemma {:induction false} FillMetricsNames(entries: seq<(string, MetricEntry)>, names: seq<string>, f: Incident)
    ensures Names(entries) <= Names(FillMetrics(entries, names, f))
    ensures forall x :: x in Names(FillMetrics(entries, names, f)) ==> x in Names(entries) || x in names
  {
    if names != [] {
      var n := |names| - 1;
      var prefix, last := names[..n], names[n];
      var before := FillMetrics(entries, prefix, f);
      FillMetricsNames(entries, prefix, f);
      assert forall x :: x in prefix ==> x in names;
      if !Holds(Lookup(before, last)) {
        var e := Entry(EvaluateMetric(last, f));
        assert FillMetrics(entries, names, f) == Assign(before, last, e);
        assert Names(Assign(before, last, e)) == if last in Names(before) then Names(before) else Names(before) + [last];
      }
    }
  }

  /** When every configured metric is already held, the loop changes nothing. */
  lemma {:induction false} FillMetricsNoop(entries: seq<(string, MetricEntry)>, names: seq<string>, f: Incident)
    requires forall x :: x in names ==> Holds(Lookup(entries, x))
    ensures FillMetrics(entries, names, f) == entries
  {
    if names != [] {
      var n := |names| - 1;
      assert forall x :: x in names[..n] ==> x in names;
      FillMetricsNoop(entries, names[..n], f);
    }
  }

  /** Running the loop a second time changes nothing. */
  lemma FillMetricsIdempotent(entries: seq<(string, MetricEntry)>, names: seq<string>, f: Incident)
    ensures FillMetrics(FillMetrics(entries, names, f), names, f) == FillMetrics(entries, names, f)
  {
    var once := FillMetrics(entries, names, f);
    forall x | x in names
      ensures Holds(Lookup(once, x))
    {
      FillMetricsLookup(entries, names, f, x);
    }
    FillMetricsNoop(once, names, f);
  }

  // ------------------------------------------------------------- assessment

  /** An assessment as a value: its metrics map is given by its entries. */
  datatype Report = Report(
    overallSeverity: Option<string>,
    metrics: seq<(string, MetricEntry)>,
    responseTime: Option<int>,
    escalationTime: Option<int>,
    impactedSystems: seq<string>,
    impactedUsers: int,
    recommendation: Option<string>)

  /** An assessment as the evaluator holds it: its metrics map is a shared object. */
  datatype Assessment = Assessment(
    overallSeverity: Option<string>,
    metrics: MetricTable,
    responseTime: Option<int>,
    escalationTime: Option<int>,
    impactedSystems: seq<string>,
    impactedUsers: int,
    recommendation: Option<string>)

  function Snapshot(a: Assessment): Report
    reads a.metrics
  {
    Report(a.overallSeverity, a.metrics.entries, a.responseTime, a.escalationTime,
           a.impactedSystems, a.impactedUsers, a.recommendation)
  }

  /** The skeleton an evaluation starts from when no partial assessment is given. */
  function Skeleton(): Report
  {
    Report(None, [], None, None, [], 0, None)
  }

  /** A truthy string field: set and not empty. */
  predicate Filled(o: Option<string>)
  {
    o.Some? && o.value != ""
  }

  /**
   * What an evaluation produces from a partial assessment, field by field,
   * in the order the evaluator fills them.
   */
  function Complete(names: seq<string>, levels: seq<string>, thresholds: map<string, Thresholds>,
                    f: Incident, prior: Report): Report
  {
    var metrics := FillMetrics(prior.metrics, names, f);
    var severity := if Filled(prior.overallSeverity) then prior.overallSeverity.value
                    else Overall(levels, InScale(levels, SeveritiesOf(metrics)));
    var systems := if |prior.impactedSystems| == 0 then IdentifyImpactedSystems(f) else prior.impactedSystems;
    var users := if prior.impactedUsers != 0 then prior.impactedUsers else EstimateImpactedUsers(f, systems);
    var recommendation := if Filled(prior.recommendation) then prior.recommendation
                          else Some(GenerateRecommendation(Some(severity), systems, users));
    Report(Some(severity), metrics, Some(ResponseTimeFor(thresholds, severity)),
           Some(EscalationTimeFor(thresholds, severity)), systems, users, recommendation)
  }

  /** Fields the partial assessment sets (truthily) are kept. */
  lemma CompleteKeepsSupplied(names: seq<string>, levels: seq<string>, thresholds: map<string, Thresholds>,
                              f: Incident, prior: Report, name: string)
    ensures var r := Complete(names, levels, thresholds, f, prior);
            && (Filled(prior.overallSeverity) ==> r.overallSeverity == prior.overallSeverity)
            && (|prior.impactedSystems| > 0 ==> r.impactedSystems == prior.impactedSystems)
            && (prior.impactedUsers != 0 ==> r.impactedUsers == prior.impactedUsers)
            && (Filled(prior.recommendation) ==> r.recommendation == prior.recommendation)
            && (Holds(Lookup(prior.metrics, name)) ==> Lookup(r.metrics, name) == Lookup(prior.metrics, name))
            && Names(prior.metrics) <= Names(r.metrics)
  {
    FillMetricsLookup(prior.metrics, names, f, name);
    FillMetricsNames(prior.metrics, names, f);
  }

  /**
   * Every configured metric ends up held, those missing scored from the
   * incident; the severity, the times and the recommendation are always set,
   * and the times come from the final severity.
   */
  lemma CompleteFillsEverything(names: seq<string>, levels: seq<string>, thresholds: map<string, Thresholds>,
                                f: Incident, prior: Report, name: string)
    ensures var r := Complete(names, levels, thresholds, f, prior);
            && (name in names ==> Holds(Lookup(r.metrics, name)))
            && (name in names && !Holds(Lookup(prior.metrics, name)) ==>
                  Lookup(r.metrics, name) == Some(Entry(EvaluateMetric(name, f))))
            && r.overallSeverity.Some?
            && r.responseTime == Some(ResponseTimeFor(thresholds, r.overallSeverity.value))
            && r.escalationTime == Some(EscalationTimeFor(thresholds, r.overallSeverity.value))
            && r.responseTime.value != 0 && r.escalationTime.value != 0
            && Filled(r.recommendation)
  {
    FillMetricsLookup(prior.metrics, names, f, name);
  }

  /** Evaluating a completed assessment again gives it back unchanged. */
  lemma CompleteIdempotent(names: seq<string>, levels: seq<string>, thresholds: map<string, Thresholds>,
                           f: Incident, prior: Report)
    ensures var once := Complete(names, levels, thresholds, f, prior);
            Complete(names, levels, thresholds, f, once) == once
  {
    FillMetricsIdempotent(prior.metrics, names, f);
  }

  /** The facts of the worked end-to-end case: an outage at 80% for 45 minutes reaching 500 business customers. */
  function ScenarioFacts(): Incident
  {
    NoFacts().(serviceOutage := true, percentageImpacted := 80.0, durationMinutes := 45.0,
               customersFacing := true, customerCount := 500, customerTier := "business")
  }

  /** In the worked case the service score is 105 and the customer score 75: both 'critical'. */
  lemma ScenarioScores()
    ensures ServiceScore(ScenarioFacts()) == 105.0 && CustomerScore(ScenarioFacts()) == 75.0
    ensures SeveritiesOf(FillMetrics([], ["service_impact", "customer_impact"], ScenarioFacts())) == ["critical", "critical"]
  {
    var f := ScenarioFacts();
    var names := ["service_impact", "customer_impact"];
    var service, customer := EvaluateServiceImpact(f), EvaluateCustomerImpact(f);
    assert service.severity == "critical" && customer.severity == "critical";
    assert names[..1] == ["service_impact"] && names[..1][..0] == [];
    var m1 := FillMetrics([], names[..1], f);
    assert FillMetrics([], names[..1][..0], f) == [];
    assert m1 == [("service_impact", Entry(service))];
    var m := FillMetrics([], names, f);
    assert Lookup(m1, "customer_impact") == None;
    assert m == Assign(m1, "customer_impact", Entry(customer));
    assert m == [("service_impact", Entry(service)), ("customer_impact", Entry(customer))];
    assert m[1..] == [("customer_impact", Entry(customer))] && m[1..][1..] == [];
    assert SeveritiesOf(m[1..]) == ["critical"];
  }

  /**
   * Two 'critical' metrics on the default scale, with no thresholds, no
   * systems and no user count: since 'critical' ranks last the overall
   * severity is 'low', with the default times and the 'low' guidance.
   */
  lemma TwoCriticalsGiveLow(names: seq<string>, f: Incident)
    requires SeveritiesOf(FillMetrics([], names, f)) == ["critical", "critical"]
    requires f.userCount == 0 && f.affectedSystems == [] && f.relatedServices == []
    ensures var r := Complete(names, DefaultLevels, map[], f, Skeleton());
            && r.overallSeverity == Some("low")
            && r.responseTime == Some(30) && r.escalationTime == Some(60)
            && r.impactedUsers == 0
            && r.recommendation == Some(Template(Some("low")))
  {
    DefaultLevelsExamples();
    var systems := IdentifyImpactedSystems(f);
    assert systems == [];
    assert EstimateImpactedUsers(f, systems) == 0;
  }

  /** The worked end-to-end case evaluates to 'low' (see `TwoCriticalsGiveLow`). */
  lemma EndToEndExample()
    ensures var r := Complete(["service_impact", "customer_impact"], DefaultLevels, map[], ScenarioFacts(), Skeleton());
            && r.overallSeverity == Some("low")
            && r.recommendation == Some(Template(Some("low")))
  {
    ScenarioScores();
    TwoCriticalsGiveLow(["service_impact", "customer_impact"], ScenarioFacts());
  }

  // -------------------------------------------------------------- evaluator

  /** The evaluator's configuration; `None` for a setting the configuration leaves out. */
  datatype EvaluatorConfig = EvaluatorConfig(
    evaluationMetrics: Option<seq<string>>,
    severityLevels: Option<seq<string>>,
    notificationThresholds: Option<map<string, Thresholds>>)

  class ImpactEvaluator {
    const metrics: seq<string>
    const severityLevels: seq<string>
    const notificationThresholds: map<string, Thresholds>

    /** Takes each setting from the configuration, or its default: no metrics, the default scale, no thresholds. */
    constructor (config: EvaluatorConfig)
      ensures metrics == config.evaluationMetrics.GetOr([])
      ensures severityLevels == config.severityLevels.GetOr(DefaultLevels)
      ensures notificationThresholds == config.notificationThresholds.GetOr(map[])
    {
      metrics := config.evaluationMetrics.GetOr([]);
      severityLevels := config.severityLevels.GetOr(DefaultLevels);
      notificationThresholds := config.notificationThresholds.GetOr(map[]);
    }

    /** The overall severity of the metrics in `table`. */
    method DetermineSeverity(table: MetricTable) returns (r: string)
      ensures r == Overall(severityLevels, InScale(severityLevels, SeveritiesOf(table.entries)))
    {
      var severities := InScale(severityLevels, SeveritiesOf(table.entries));
      if |severities| == 0 {
        return "low";
      }
      var order: map<string, nat> := map[];
      for i := 0 to |severityLevels|
        invariant order == SeverityOrder(severityLevels[..i])
      {
        assert severityLevels[..i + 1][..i] == severityLevels[..i];
        order := order[severityLevels[i] := i];
      }
      assert severityLevels[..|severityLevels|] == severityLevels;
      var highestSeverity := "low";
      var highestPriority := RankIn(order, "low");
      for i := 0 to |severities|
        invariant (highestSeverity, highestPriority) == Best(severityLevels, severities[..i])
      {
        assert severities[..i + 1][..i] == severities[..i];
        var priority := RankIn(order, severities[i]);
        if priority < highestPriority {
          highestPriority := priority;
          highestSeverity := severities[i];
        }
      }
      assert severities[..|severities|] == severities;
      r := highestSeverity;
    }

    /**
     * Completes a partial assessment (or an empty one) for an incident.  The
     * result is a new assessment whose metrics map is the partial
     * assessment's own, updated in place.
     */
    method Evaluate(incident: Incident, initial: Option<Assessment>) returns (a: Assessment)
      requires initial.Some? ==> initial.value.metrics.Valid()
      modifies if initial.Some? then {initial.value.metrics} else {}
      ensures a.metrics.Valid()
      ensures initial.Some? ==> a.metrics == initial.value.metrics
      ensures initial.None? ==> fresh(a.metrics)
      ensures Snapshot(a) == Complete(metrics, severityLevels, notificationThresholds, incident,
                                      if initial.Some? then old(Snapshot(initial.value)) else Skeleton())
    {
      if initial.Some? {
        a := initial.value;
      } else {
        var table := new MetricTable();
        a := Assessment(None, table, None, None, [], 0, None);
      }
      ghost var prior := Snapshot(a);
      assert prior == if initial.Some? then old(Snapshot(initial.value)) else Skeleton();

      for i := 0 to |metrics|
        invariant a.metrics.Valid()
        invariant a.metrics.entries == FillMetrics(prior.metrics, metrics[..i], incident)
      {
        assert metrics[..i + 1][..i] == metrics[..i];
        if !Holds(a.metrics.Get(metrics[i])) {
          var result := EvaluateMetric(metrics[i], incident);
          a.metrics.Put(metrics[i], Entry(result));
        }
      }
      assert metrics[..|metrics|] == metrics;

      if !Filled(a.overallSeverity) {
        var severity := DetermineSeverity(a.metrics);
        a := a.(overallSeverity := Some(severity));
      }

      var severity := a.overallSeverity.value;
      a := a.(responseTime := Some(ResponseTimeFor(notificationThresholds, severity)),
              escalationTime := Some(EscalationTimeFor(notificationThresholds, severity)));

      if |a.impactedSystems| == 0 {
        a := a.(impactedSystems := IdentifyImpactedSystems(incident));
      }

      if a.impactedUsers == 0 {
        a := a.(impactedUsers := EstimateImpactedUsers(incident, a.impactedSystems));
      }

      if !Filled(a.recommendation) {
        a := a.(recommendation := Some(GenerateRecommendation(a.overallSeverity, a.impactedSystems, a.impactedUsers)));
      }
    }
  }
}
