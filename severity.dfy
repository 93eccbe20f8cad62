/**
 * How the evaluator derives the overall severity from the per-metric
 * severities.  Each level of the configured scale is ranked by its index,
 * a repeated level by its last index, and a rank of 0 is read as absent, so
 * the level at index 0 ranks 999, behind every other level.  Levels outside
 * the scale are dropped; among the rest, the first one whose rank is
 * strictly below the running best wins, starting from 'low' at the rank of
 * 'low'.
 */
module Severity {

  /** The evaluator's severity scale when none is configured, most severe first. */
  const DefaultLevels: seq<string> := ["critical", "high", "medium", "low"]

  /** The position of the last occurrence of `s` in the scale. */
  function LastIndex(scale: seq<string>, s: string): (i: nat)
    requires s in scale
    ensures i < |scale| && scale[i] == s
    ensures forall j :: i < j < |scale| ==> scale[j] != s
  {
    var n := |scale| - 1;
    if scale[n] == s then n else LastIndex(scale[..n], s)
  }

  /** The level-to-index table, filled level by level so that a repeated level keeps its last index. */
  function SeverityOrder(scale: seq<string>): map<string, nat>
  {
    if scale == [] then map[]
    else
      var n := |scale| - 1;
      SeverityOrder(scale[..n])[scale[n] := n]
  }

  /** The table holds exactly the scale's levels, each at its last index. */
  lemma {:induction false} SeverityOrderIsLastIndex(scale: seq<string>)
    ensures forall s :: s in SeverityOrder(scale) <==> s in scale
    ensures forall s :: s in scale ==> SeverityOrder(scale)[s] == LastIndex(scale, s)
  {
    if scale != [] {
      var n := |scale| - 1;
      var prefix := scale[..n];
      SeverityOrderIsLastIndex(prefix);
      assert scale == prefix + [scale[n]];
      forall s
        ensures s in SeverityOrder(scale) <==> s in scale
      {
        assert s in scale <==> s == scale[n] || s in prefix;
      }
      forall s | s in scale
        ensures SeverityOrder(scale)[s] == LastIndex(scale, s)
      {
        if s != scale[n] {
          assert s in prefix;
        }
      }
    }
  }

  /** `severityOrder[s] || 999`: an absent level, and a level at index 0, rank 999. */
  function RankIn(order: map<string, nat>, s: string): int
  {
    if s in order && order[s] != 0 then order[s] else 999
  }

  /** The rank of a level on the scale (lower wins). */
  function Priority(scale: seq<string>, s: string): int
  {
    RankIn(SeverityOrder(scale), s)
  }

  /** A level's rank is its last index on the scale, except that index 0 and absence both give 999. */
  lemma PriorityIsLastIndex(scale: seq<string>, s: string)
    ensures s in scale && LastIndex(scale, s) != 0 ==> Priority(scale, s) == LastIndex(scale, s)
    ensures s !in scale || LastIndex(scale, s) == 0 ==> Priority(scale, s) == 999
  {
    SeverityOrderIsLastIndex(scale);
  }

  /** The metric severities that are levels of the scale, in order. */
  function InScale(scale: seq<string>, severities: seq<string>): (r: seq<string>)
    ensures forall x :: x in r ==> x in scale && x in severities
    ensures forall x :: x in severities && x in scale ==> x in r
  {
    if severities == [] then []
    else
      var n := |severities| - 1;
      var rest := InScale(scale, severities[..n]);
      if severities[n] in scale then rest + [severities[n]] else rest
  }

  /**
   * The running best after scanning `severities`: it starts at 'low' with
   * the rank of 'low' and moves to a level only on a strictly lower rank.
   */
  function Best(scale: seq<string>, severities: seq<string>): (r: (string, int))
    ensures r.1 == Priority(scale, r.0)
    ensures r.0 == "low" || r.0 in severities
    ensures r.1 <= Priority(scale, "low")
    ensures r.0 != "low" ==> r.1 < Priority(scale, "low")
    ensures forall j :: 0 <= j < |severities| ==> r.1 <= Priority(scale, severities[j])
  {
    if severities == [] then ("low", Priority(scale, "low"))
    else
      var n := |severities| - 1;
      var best := Best(scale, severities[..n]);
      var p := Priority(scale, severities[n]);
      if p < best.1 then (severities[n], p) else best
  }

  /** The overall severity for the in-scale metric severities: 'low' when there are none. */
  function Overall(scale: seq<string>, severities: seq<string>): (r: string)
    ensures r == "low" || r in severities
  {
    if severities == [] then "low" else Best(scale, severities).0
  }

  /** The result is 'low' or one of the given severities (hence a level, after `InScale`). */
  lemma OverallIsLowOrGiven(scale: seq<string>, severities: seq<string>)
    ensures Overall(scale, severities) == "low" || Overall(scale, severities) in severities
    ensures Overall(scale, InScale(scale, severities)) == "low" || Overall(scale, InScale(scale, severities)) in scale
  {
  }

  /** When no severity ranks strictly below 'low', the result is 'low'. */
  lemma {:induction false} OverallNoneBelowLow(scale: seq<string>, severities: seq<string>)
    requires forall j :: 0 <= j < |severities| ==> Priority(scale, severities[j]) >= Priority(scale, "low")
    ensures Overall(scale, severities) == "low"
    ensures Best(scale, severities) == ("low", Priority(scale, "low"))
  {
    if severities != [] {
      OverallNoneBelowLow(scale, severities[..|severities| - 1]);
    }
  }

  /**
   * Otherwise the result is the first severity of least rank: it ranks
   * strictly below 'low', no severity ranks lower and every earlier one ranks
   * strictly higher.
   */
  lemma {:induction false} OverallFirstMinimum(scale: seq<string>, severities: seq<string>, i: nat)
    requires i < |severities|
    requires Priority(scale, severities[i]) < Priority(scale, "low")
    requires forall j :: 0 <= j < |severities| ==> Priority(scale, severities[j]) >= Priority(scale, severities[i])
    requires forall j :: 0 <= j < i ==> Priority(scale, severities[j]) > Priority(scale, severities[i])
    ensures Overall(scale, severities) == severities[i]
    ensures Best(scale, severities) == (severities[i], Priority(scale, severities[i]))
  {
    var n := |severities| - 1;
    var prefix := severities[..n];
    if i < n {
      OverallFirstMinimum(scale, prefix, i);
    } else {
      var best := Best(scale, prefix);
      if best.0 != "low" {
        var j :| 0 <= j < |prefix| && prefix[j] == best.0;
        assert Priority(scale, severities[j]) > Priority(scale, severities[i]);
      }
    }
  }

  /**
   * The level at index 0 never wins (unless it is 'low' itself), on any scale
   * of at most 1000 levels where it is not repeated.
   */
  lemma IndexZeroNeverWins(scale: seq<string>, severities: seq<string>)
    requires 0 < |scale| <= 1000 && scale[0] != "low" && scale[0] !in scale[1..]
    ensures Overall(scale, severities) != scale[0]
  {
    PriorityIsLastIndex(scale, scale[0]);
    PriorityIsLastIndex(scale, "low");
    assert LastIndex(scale, scale[0]) == 0;
    assert "low" in scale ==> LastIndex(scale, "low") < 1000;
    assert Priority(scale, "low") <= 999;
  }

  /**
   * On the default scale 'critical' ranks last: the overall severity is
   * 'high' if any metric says 'high', else 'medium' if any says 'medium',
   * else 'low', whatever the order of the metrics.
   */
  lemma {:induction false} DefaultLevelsOverall(severities: seq<string>)
    ensures Best(DefaultLevels, severities).0 ==
              if "high" in severities then "high" else if "medium" in severities then "medium" else "low"
    ensures Overall(DefaultLevels, severities) ==
              if "high" in severities then "high" else if "medium" in severities then "medium" else "low"
  {
    DefaultPriorities();
    if severities != [] {
      var n := |severities| - 1;
      DefaultLevelsOverall(severities[..n]);
      assert severities == severities[..n] + [severities[n]];
    }
  }

  /** The ranks on the default scale: 'high' 1, 'medium' 2, 'low' 3, and 999 for 'critical' and anything else. */
  lemma DefaultPriorities()
    ensures forall s :: Priority(DefaultLevels, s) ==
              if s == "high" then 1 else if s == "medium" then 2 else if s == "low" then 3 else 999
  {
    var l1, l2, l3 := DefaultLevels[..1], DefaultLevels[..2], DefaultLevels[..3];
    assert l1[..0] == [] && l2[..1] == l1 && l3[..2] == l2 && DefaultLevels[..3] == l3;
    assert SeverityOrder(l1) == map["critical" := 0];
    assert SeverityOrder(l2) == map["critical" := 0, "high" := 1];
    assert SeverityOrder(l3) == map["critical" := 0, "high" := 1, "medium" := 2];
    assert SeverityOrder(DefaultLevels) == map["critical" := 0, "high" := 1, "medium" := 2, "low" := 3];
  }

  /** Two 'critical' metrics on the default scale give 'low'; 'critical' and 'medium' give 'medium'. */
  lemma DefaultLevelsExamples()
    ensures Overall(DefaultLevels, ["critical", "critical"]) == "low"
    ensures Overall(DefaultLevels, ["critical", "medium"]) == "medium"
    ensures Overall(DefaultLevels, ["medium", "high", "low"]) == "high"
    ensures InScale(DefaultLevels, ["critical", "critical"]) == ["critical", "critical"]
  {
    assert ["critical", "critical"][..1] == ["critical"];
    DefaultLevelsOverall(["critical", "critical"]);
    DefaultLevelsOverall(["critical", "medium"]);
    DefaultLevelsOverall(["medium", "high", "low"]);
  }

  /** Filtering a concatenation filters each part. */
  lemma {:induction false} InScaleAppend(scale: seq<string>, a: seq<string>, b: seq<string>)
    ensures InScale(scale, a + b) == InScale(scale, a) + InScale(scale, b)
  {
    if b == [] {
      assert a + b == a;
    } else {
      var n := |b| - 1;
      InScaleAppend(scale, a, b[..n]);
      assert (a + b)[..|a + b| - 1] == a + b[..n];
    }
  }

  /**
   * A severity outside the scale (such as 'unknown'), wherever it stands
   * among the metrics, is filtered out and cannot change the result.
   */
  lemma OffScaleIgnored(scale: seq<string>, a: seq<string>, extra: string, b: seq<string>)
    requires extra !in scale
    ensures InScale(scale, a + [extra] + b) == InScale(scale, a + b)
    ensures Overall(scale, InScale(scale, a + [extra] + b)) == Overall(scale, InScale(scale, a + b))
  {
    InScaleAppend(scale, a + [extra], b);
    InScaleAppend(scale, a, [extra]);
    InScaleAppend(scale, a, b);
    assert [extra][..0] == [];
  }
}
