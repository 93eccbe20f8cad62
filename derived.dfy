/**
 * The secondary outputs of an impact assessment: the impacted systems, the
 * estimate of impacted users, the response and escalation times, and the
 * recommendation text.
 */
module Derived {
  import opened Optional
  import opened Scoring

  // -------------------------------------------------------- impacted systems

  predicate NoDuplicates(s: seq<string>)
  {
    forall i, j :: 0 <= i < j < |s| ==> s[i] != s[j]
  }

  /** The position of the first occurrence of `x` in `s`. */
  function FirstIndex(s: seq<string>, x: string): (i: nat)
    requires x in s
    ensures i < |s| && s[i] == x
    ensures forall j :: 0 <= j < i ==> s[j] != x
  {
    if s[0] == x then 0 else 1 + FirstIndex(s[1..], x)
  }

  /** A first occurrence in a prefix is the first occurrence in the whole sequence. */
  lemma FirstIndexInPrefix(s: seq<string>, n: nat, x: string)
    requires n <= |s| && x in s[..n]
    ensures FirstIndex(s, x) == FirstIndex(s[..n], x)
  {
    var k := FirstIndex(s[..n], x);
    assert s[k] == x;
  }

  /**
   * `[...new Set(s)]`: the distinct elements of `s`, each where it first
   * occurs.
   */
  function Dedup(s: seq<string>): (r: seq<string>)
    ensures NoDuplicates(r)
    ensures forall x :: x in r <==> x in s
    ensures forall i, j :: 0 <= i < j < |r| ==> FirstIndex(s, r[i]) < FirstIndex(s, r[j])
  {
    if s == [] then []
    else
      var n := |s| - 1;
      var r := Dedup(s[..n]);
      assert s == s[..n] + [s[n]];
      forall x | x in r
        ensures FirstIndex(s, x) == FirstIndex(s[..n], x)
      {
        FirstIndexInPrefix(s, n, x);
      }
      if s[n] in r then r
      else
        assert FirstIndex(s, s[n]) == n;
        r + [s[n]]
  }

  /** The explicitly affected systems followed by the related services, without duplicates. */
  function IdentifyImpactedSystems(f: Incident): (r: seq<string>)
    ensures NoDuplicates(r)
    ensures forall x :: x in r <==> x in f.affectedSystems || x in f.relatedServices
    ensures forall i, j :: 0 <= i < j < |r| ==>
              FirstIndex(f.affectedSystems + f.relatedServices, r[i]) < FirstIndex(f.affectedSystems + f.relatedServices, r[j])
  {
    Dedup(f.affectedSystems + f.relatedServices)
  }

  // ---------------------------------------------------------- impacted users

  /** `Math.round`: the nearest integer, halves rounded up. */
  function Round(x: real): (n: int)
    ensures (n as real) - 0.5 <= x < (n as real) + 0.5
  {
    (x + 0.5).Floor
  }

  /** How many users an incident reaches, from its facts or the impacted systems. */
  function EstimateImpactedUsers(f: Incident, systems: seq<string>): (n: int)
    ensures f.userCount > 0 && f.percentageImpacted > 0.0 ==>
              (n as real) - 0.5 <= (f.userCount as real) * (f.percentageImpacted / 100.0) < (n as real) + 0.5
    ensures f.userCount > 0 && f.percentageImpacted > 0.0 && f.percentageImpacted <= 100.0 ==> 0 <= n <= f.userCount
    ensures f.userCount > 0 && f.percentageImpacted <= 0.0 ==> n == f.userCount
    ensures f.userCount <= 0 ==> n == 100 * |systems|
  {
    if f.userCount > 0 && f.percentageImpacted > 0.0 then
      var share := (f.userCount as real) * (f.percentageImpacted / 100.0);
      assert f.percentageImpacted <= 100.0 ==> 0.0 <= share <= f.userCount as real by {
        if f.percentageImpacted <= 100.0 {
          ShareBounded(f.userCount as real, f.percentageImpacted / 100.0);
        }
      }
      Round(share)
    else if f.userCount > 0 then f.userCount
    else |systems| * 100
  }

  lemma ShareBounded(count: real, fraction: real)
    requires count >= 0.0 && 0.0 <= fraction <= 1.0
    ensures 0.0 <= count * fraction <= count
  {
    assert count * fraction <= count * 1.0;
  }

  // ------------------------------------------------------------------ timings

  /** One severity's configured notification times; `None` when not configured. */
  datatype Thresholds = Thresholds(responseTime: Option<int>, escalationTime: Option<int>)

  /** `(thresholds[severity] || {}).responseTime || 30`: a missing or zero setting gives 30 minutes. */
  function ResponseTimeFor(thresholds: map<string, Thresholds>, severity: string): (t: int)
    ensures t != 0
    ensures t == 30 <==> severity !in thresholds || thresholds[severity].responseTime.GetOr(0) in {0, 30}
    ensures severity in thresholds && thresholds[severity].responseTime.GetOr(0) != 0 ==>
              t == thresholds[severity].responseTime.value
  {
    if severity in thresholds && thresholds[severity].responseTime.GetOr(0) != 0
    then thresholds[severity].responseTime.value
    else 30
  }

  /** `(thresholds[severity] || {}).escalationTime || 60`: a missing or zero setting gives 60 minutes. */
  function EscalationTimeFor(thresholds: map<string, Thresholds>, severity: string): (t: int)
    ensures t != 0
    ensures t == 60 <==> severity !in thresholds || thresholds[severity].escalationTime.GetOr(0) in {0, 60}
    ensures severity in thresholds && thresholds[severity].escalationTime.GetOr(0) != 0 ==>
              t == thresholds[severity].escalationTime.value
  {
    if severity in thresholds && thresholds[severity].escalationTime.GetOr(0) != 0
    then thresholds[severity].escalationTime.value
    else 60
  }

  // ----------------------------------------------------------- recommendation

  /** The fixed guidance texts: critical, high, medium, low, and the fallback. */
  const Guidance: seq<string> := [
    "Immediate all-hands response required. "
      + "Notify executive team and establish incident command. "
      + "Begin user communication strategy immediately.",
    "Assemble dedicated response team. "
      + "Escalate to service owners and senior technical staff. "
      + "Prepare user communication if outage exceeds 30 minutes.",
    "Assign dedicated engineer for investigation. "
      + "Notify service owners and prepare contingency plans. "
      + "Monitor for escalation triggers.",
    "Standard troubleshooting procedures. "
      + "Monitor for changes in impact level. "
      + "Document in ticket and address during business hours.",
    "Unable to determine appropriate response. " + "Investigate further."
  ]

  /** Which guidance a severity selects; anything else, `null` included, selects the fallback. */
  function GuidanceIndex(severity: Option<string>): (k: nat)
    ensures k < |Guidance|
  {
    match severity
    case Some("critical") => 0
    case Some("high") => 1
    case Some("medium") => 2
    case Some("low") => 3
    case _ => 4
  }

  /** The guidance text a severity selects. */
  function Template(severity: Option<string>): (t: string)
    ensures t in Guidance
    ensures |t| > 5
  {
    Guidance[GuidanceIndex(severity)]
  }

  /** Each level selects its own text; anything else selects the fallback. */
  lemma TemplateTexts(other: Option<string>)
    requires other !in {Some("critical"), Some("high"), Some("medium"), Some("low")}
    ensures Template(Some("critical")) == Guidance[0]
    ensures Template(Some("high")) == Guidance[1]
    ensures Template(Some("medium")) == Guidance[2]
    ensures Template(Some("low")) == Guidance[3]
    ensures Template(other) == Guidance[4]
  {
  }

  /** `items.join(separator)`. */
  function Join(items: seq<string>, separator: string): string
  {
    if items == [] then ""
    else if |items| == 1 then items[0]
    else items[0] + separator + Join(items[1..], separator)
  }

  /** The clause naming the impacted systems, empty when there are none. */
  function SystemsClause(systems: seq<string>): (c: string)
    ensures c == "" <==> |systems| == 0
  {
    if |systems| > 0 then " Focus on affected systems: " + Join(systems, ", ") + "." else ""
  }

  const PublicUpdateClause := " Significant user base affected; consider public status update."
  const SupportWatchClause := " Multiple users affected; monitor support channels for reports."

  /** The clause for the number of impacted users: above 1000, above 100, or none. */
  function UsersClause(users: int): (c: string)
    ensures users > 1000 ==> c == PublicUpdateClause
    ensures 100 < users <= 1000 ==> c == SupportWatchClause
    ensures users <= 100 ==> c == ""
  {
    if users > 1000 then PublicUpdateClause
    else if users > 100 then SupportWatchClause
    else ""
  }

  /** A guidance text followed by the systems clause and the users clause. */
  function Compose(guidance: string, systems: seq<string>, users: int): (r: string)
    ensures guidance <= r
    ensures r[|guidance|..] == SystemsClause(systems) + UsersClause(users)
    ensures |systems| == 0 && users <= 100 ==> r == guidance
  {
    var r := guidance + SystemsClause(systems) + UsersClause(users);
    assert r[|guidance|..] == SystemsClause(systems) + UsersClause(users);
    r
  }

  /** The severity guidance, then the systems clause, then the users clause. */
  function GenerateRecommendation(severity: Option<string>, systems: seq<string>, users: int): (r: string)
    ensures |r| > 0
    ensures Template(severity) <= r
    ensures r[|Template(severity)|..] == SystemsClause(systems) + UsersClause(users)
    ensures |systems| == 0 && users <= 100 ==> r == Template(severity)
  {
    Compose(Template(severity), systems, users)
  }

  /** No guidance text is a prefix of another, so a recommendation starts with exactly one of them. */
  lemma TemplatesPrefixFree(a: Option<string>, b: Option<string>)
    requires Template(a) <= Template(b)
    ensures Template(a) == Template(b)
  {
    // The first and fourth characters already tell the five texts apart.
    assert Guidance[0][0] == 'I' && Guidance[0][3] == 'e';
    assert Guidance[1][0] == 'A' && Guidance[1][3] == 'e';
    assert Guidance[2][0] == 'A' && Guidance[2][3] == 'i';
    assert Guidance[3][0] == 'S' && Guidance[3][3] == 'n';
    assert Guidance[4][0] == 'U' && Guidance[4][3] == 'b';
    assert Template(a)[0] == Template(b)[0] && Template(a)[3] == Template(b)[3];
  }

  /** The recommendation determines the severity guidance it was built from. */
  lemma RecommendationRevealsGuidance(a: Option<string>, sa: seq<string>, ua: int, b: Option<string>, sb: seq<string>, ub: int)
    requires GenerateRecommendation(a, sa, ua) == GenerateRecommendation(b, sb, ub)
    ensures Template(a) == Template(b)
  {
    var r := GenerateRecommendation(a, sa, ua);
    var ta, tb := Template(a), Template(b);
    if |ta| <= |tb| {
      assert ta == r[..|ta|] && tb == r[..|tb|];
      assert ta <= tb;
      TemplatesPrefixFree(a, b);
    } else {
      assert ta == r[..|ta|] && tb == r[..|tb|];
      assert tb <= ta;
      TemplatesPrefixFree(b, a);
    }
  }
}
