/**
 * FStaticMeshLODPolyReductionRule: every consecutive pair of LODs must cut the
 * triangle count by at least MinReductionPercentage; the offending LODs are
 * reported together, and the fix re-targets every LOD's reduction settings on
 * a geometric progression from LOD0.
 */
module LodPolyReduction {
  import opened Wrappers
  import opened Numeric
  import opened Text
  import opened Results
  import opened Profile
  import opened Mesh
  import opened Rule

  const RuleId := "SM_LODPolyReduction"

  /** The allowed distance, in percentage points, between an achieved and the target reduction. */
  const Tolerance := 5.0

  // ---------------------------------------------------------------------------
  // Reduction and severity

  /** CalculateReductionPercentage: (higher - lower) / higher * 100, and 0 when higher is 0. */
  function ReductionPercentage(higher: int, lower: int): (r: real)
    ensures higher == 0 ==> r == 0.0
    ensures higher > 0 ==> (r < 0.0 <==> lower > higher)
    ensures higher > 0 ==> (r == 0.0 <==> lower == higher)
  {
    if higher == 0 then 0.0 else ((higher - lower) as real / higher as real) * 100.0
  }

  /** Scaling both sides of a strict comparison by a positive factor keeps it. */
  lemma ScaleLess(a: real, b: real, k: real)
    requires k > 0.0
    ensures a < b <==> a * k < b * k
  {
    if a < b {
      assert b * k - a * k == (b - a) * k;
    } else {
      assert a * k - b * k == (a - b) * k;
      MulNonneg(a - b, k);
    }
  }

  /**
   * A pair is short of the minimum exactly when the lower LOD keeps more than
   * (100 - min)% of the higher one's triangles.
   */
  lemma ReductionBelowMinimum(higher: nat, lower: int, min: real)
    requires higher > 0
    ensures ReductionPercentage(higher, lower) < min <==>
            100.0 * lower as real > (100.0 - min) * higher as real
  {
    var h := higher as real;
    var r := ReductionPercentage(higher, lower);
    assert r * h == (h - lower as real) * 100.0;
    ScaleLess(r, min, h);
  }

  /** GetSeverityForReduction: error band, then warning band, then info band, and Warning above all. */
  function SeverityForReduction(actual: real, min: real, warning: real, error: real): (s: Severity)
    ensures s.Error? <==> actual < error
    ensures s.Info? <==> error <= actual && warning <= actual < min
    ensures s.Warning? <==> error <= actual && (actual < warning || min <= actual)
    ensures !s.Critical?
  {
    if actual < error then Error
    else if actual < warning then Warning
    else if actual < min then Info
    else Warning
  }

  // ---------------------------------------------------------------------------
  // The pairs Check reports

  /** LOD i is reported: neither side of the pair (i - 1, i) is empty and the cut is short of min. */
  predicate Problematic(counts: seq<nat>, i: nat, min: real)
    requires 1 <= i < |counts|
  {
    counts[i - 1] != 0 && counts[i] != 0 && ReductionPercentage(counts[i - 1], counts[i]) < min
  }

  /** The reported LODs among 1 .. n - 1, in the order Check visits them. */
  function ProblematicLods(counts: seq<nat>, min: real, n: nat): (lods: seq<nat>)
    requires n <= |counts|
  {
    if n <= 1 then []
    else ProblematicLods(counts, min, n - 1) + (if Problematic(counts, n - 1, min) then [n - 1] else [])
  }

  /** The reported LODs are exactly the problematic indices, each once, ascending. */
  lemma {:induction false} ProblematicLodsExact(counts: seq<nat>, min: real, n: nat)
    requires n <= |counts|
    ensures forall i :: i in ProblematicLods(counts, min, n) <==> 1 <= i < n && Problematic(counts, i, min)
    ensures forall k :: 0 <= k < |ProblematicLods(counts, min, n)| ==> 1 <= ProblematicLods(counts, min, n)[k] < n
    ensures forall a, b :: 0 <= a < b < |ProblematicLods(counts, min, n)| ==>
              ProblematicLods(counts, min, n)[a] < ProblematicLods(counts, min, n)[b]
  {
    if n > 1 {
      ProblematicLodsExact(counts, min, n - 1);
      var prev := ProblematicLods(counts, min, n - 1);
      var lods := ProblematicLods(counts, min, n);
      assert lods == prev + (if Problematic(counts, n - 1, min) then [n - 1] else []);
      assert forall k :: 0 <= k < |prev| ==> lods[k] == prev[k];
    }
  }

  // ---------------------------------------------------------------------------
  // The severity of the comprehensive result

  /** The severity GetSeverityForReduction gives the pair (i - 1, i). */
  function PairSeverity(counts: seq<nat>, i: nat, min: real, warning: real, error: real): Severity
    requires 1 <= i < |counts|
  {
    SeverityForReduction(ReductionPercentage(counts[i - 1], counts[i]), min, warning, error)
  }

  /**
   * WorstSeverity as Check computes it over the pairs before LOD n: it starts
   * at Info and takes a pair's severity only when that has a larger ordinal.
   */
  function WorstSeverityAsWritten(counts: seq<nat>, min: real, warning: real, error: real, n: nat): Severity
    requires n <= |counts|
  {
    if n <= 1 then Info
    else
      var worst := WorstSeverityAsWritten(counts, min, warning, error, n - 1);
      if Problematic(counts, n - 1, min) && Ordinal(PairSeverity(counts, n - 1, min, warning, error)) > Ordinal(worst)
      then PairSeverity(counts, n - 1, min, warning, error)
      else worst
  }

  /** No ordinal exceeds Info's, so the tracked severity never leaves Info, whatever the pairs. */
  lemma {:induction false} WorstSeverityAsWrittenIsInfo(counts: seq<nat>, min: real, warning: real, error: real, n: nat)
    requires n <= |counts|
    ensures WorstSeverityAsWritten(counts, min, warning, error, n) == Info
  {
    if n > 1 {
      WorstSeverityAsWrittenIsInfo(counts, min, warning, error, n - 1);
    }
  }

  /**
   * Two LODs of 100 triangles under the default thresholds: the pair cuts
   * nothing, which lies in the error band, yet the result is reported as Info.
   */
  lemma ErrorBandReportedAsInfo()
    ensures Problematic([100, 100], 1, 30.0)
    ensures PairSeverity([100, 100], 1, 30.0, 20.0, 10.0) == Error
    ensures WorstSeverityAsWritten([100, 100], 30.0, 20.0, 10.0, 2) == Info
  {
    WorstSeverityAsWrittenIsInfo([100, 100], 30.0, 20.0, 10.0, 2);
  }

  /** The most severe severity among the reported pairs before LOD n: Info when there are none. */
  function MostSevere(counts: seq<nat>, min: real, warning: real, error: real, n: nat): Severity
    requires n <= |counts|
  {
    if n <= 1 then Info
    else
      var worst := MostSevere(counts, min, warning, error, n - 1);
      if Problematic(counts, n - 1, min) && Ordinal(PairSeverity(counts, n - 1, min, warning, error)) < Ordinal(worst)
      then PairSeverity(counts, n - 1, min, warning, error)
      else worst
  }

  /**
   * The result's severity is at least as severe as every reported pair's, and
   * it is the severity of one of them (Info when none is reported).
   */
  lemma {:induction false} MostSevereExact(counts: seq<nat>, min: real, warning: real, error: real, n: nat)
    requires n <= |counts|
    ensures forall i :: 1 <= i < n && Problematic(counts, i, min) ==>
              Ordinal(MostSevere(counts, min, warning, error, n)) <= Ordinal(PairSeverity(counts, i, min, warning, error))
    ensures (forall i :: 1 <= i < n ==> !Problematic(counts, i, min)) ==> MostSevere(counts, min, warning, error, n) == Info
    ensures (exists i :: 1 <= i < n && Problematic(counts, i, min)) ==>
              exists i :: 1 <= i < n && Problematic(counts, i, min)
                && MostSevere(counts, min, warning, error, n) == PairSeverity(counts, i, min, warning, error)
  {
    if n > 1 {
      MostSevereExact(counts, min, warning, error, n - 1);
      var worst := MostSevere(counts, min, warning, error, n - 1);
      if Problematic(counts, n - 1, min) && Ordinal(PairSeverity(counts, n - 1, min, warning, error)) >= Ordinal(worst) {
        if forall i :: 1 <= i < n - 1 ==> !Problematic(counts, i, min) {
          assert PairSeverity(counts, n - 1, min, warning, error) == Info;
        }
      }
    }
  }

  /** "x% reduction", or "INCREASE of x%" when the LOD grew. */
  function ReductionText(r: real): string
  {
    if r < 0.0 then "INCREASE of " + Fixed1(AbsReal(r)) + "%" else Fixed1(r) + "% reduction"
  }

  /** The triangle count of LOD i, 0 outside the list. */
  function CountAt(counts: seq<nat>, i: int): nat
  {
    if 0 <= i < |counts| then counts[i] else 0
  }

  /** The description segment of one reported LOD. */
  function Segment(counts: seq<nat>, i: nat, min: real): (s: string)
    ensures |s| > 0
  {
    "LOD" + IntToString(i - 1) + "→LOD" + IntToString(i) + ": "
    + ReductionText(ReductionPercentage(CountAt(counts, i - 1), CountAt(counts, i))) + " (need " + Fixed1(min) + "%)"
  }

  function Segments(counts: seq<nat>, min: real, lods: seq<nat>): (r: seq<string>)
    ensures |r| == |lods|
  {
    seq(|lods|, k requires 0 <= k < |lods| => Segment(counts, lods[k], min))
  }

  lemma SegmentsSnoc(counts: seq<nat>, min: real, lods: seq<nat>, i: nat)
    ensures Segments(counts, min, lods + [i]) == Segments(counts, min, lods) + [Segment(counts, i, min)]
  {
  }

  /** Appending a segment as Check does ("; " only after a non-empty description) extends the join. */
  lemma AppendSegment(segs: seq<string>, description: string, segment: string)
    requires description == Join(segs, "; ") && (|description| > 0 <==> |segs| > 0) && |segment| > 0
    ensures (if |description| > 0 then description + "; " else description) + segment == Join(segs + [segment], "; ")
  {
    JoinSnoc(segs, segment, "; ");
    if |description| == 0 {
      assert description + segment == segment;
    }
  }

  /** What the pair loop has built once the pairs before LOD i are visited. */
  ghost predicate Collected(counts: seq<nat>, min: real, i: nat, lods: seq<nat>, description: string)
    requires 1 <= i <= |counts|
  {
    && lods == ProblematicLods(counts, min, i)
    && description == Join(Segments(counts, min, lods), "; ")
    && (|description| > 0 <==> |lods| > 0)
  }

  /**
   * One iteration of the pair loop: skip a pair with an empty LOD, otherwise
   * report LOD i when its cut is short of min (AddUnique, "; " before all but
   * the first segment, and the pair's severity only when its ordinal is larger).
   */
  method VisitPair(counts: seq<nat>, min: real, warning: real, error: real, i: nat,
                   lods: seq<nat>, description: string, worst: Severity)
    returns (lods': seq<nat>, description': string, worst': Severity)
    requires 1 <= i < |counts| && Collected(counts, min, i, lods, description)
    requires worst == WorstSeverityAsWritten(counts, min, warning, error, i)
    ensures Collected(counts, min, i + 1, lods', description')
    ensures worst' == WorstSeverityAsWritten(counts, min, warning, error, i + 1)
  {
    lods', description', worst' := lods, description, worst;
    var previous := counts[i - 1];
    var current := counts[i];
    ProblematicLodsExact(counts, min, i);
    if previous == 0 || current == 0 {
      assert ProblematicLods(counts, min, i + 1) == lods + [];
      return;
    }
    var reduction := ReductionPercentage(previous, current);
    if reduction < min {
      if i !in lods' {
        lods' := lods' + [i];
      }
      assert lods' == ProblematicLods(counts, min, i + 1);
      var severity := SeverityForReduction(reduction, min, warning, error);
      if Ordinal(severity) > Ordinal(worst') {
        worst' := severity;
      }
      var segment := Segment(counts, i, min);
      SegmentsSnoc(counts, min, lods, i);
      AppendSegment(Segments(counts, min, lods), description, segment);
      if |description'| > 0 {
        description' := description' + "; ";
      }
      description' := description' + segment;
    } else {
      assert ProblematicLods(counts, min, i + 1) == lods + [];
    }
  }

  /**
   * The pair loop of Check: collects the reported LODs with AddUnique, joins
   * their segments with "; " and tracks WorstSeverity as written (a larger
   * ordinal replaces the one held, starting from Info), so it stays Info.
   */
  method CollectReductionIssues(counts: seq<nat>, min: real, warning: real, error: real)
    returns (lods: seq<nat>, description: string, worst: Severity)
    ensures lods == ProblematicLods(counts, min, |counts|)
    ensures description == Join(Segments(counts, min, lods), "; ")
    ensures worst == WorstSeverityAsWritten(counts, min, warning, error, |counts|)
    ensures worst == Info
  {
    hide Segment;
    lods := [];
    description := "";
    worst := Info;
    assert Segments(counts, min, lods) == [];
    if |counts| <= 1 {
      return;
    }
    var i := 1;
    assert Collected(counts, min, i, lods, description);
    while i < |counts|
      invariant 1 <= i <= |counts|
      invariant Collected(counts, min, i, lods, description)
      invariant worst == WorstSeverityAsWritten(counts, min, warning, error, i)
    {
      lods, description, worst := VisitPair(counts, min, warning, error, i, lods, description, worst);
      i := i + 1;
    }
    WorstSeverityAsWrittenIsInfo(counts, min, warning, error, |counts|);
  }

  // ---------------------------------------------------------------------------
  // Check

  /** The rule's three thresholds as read from the profile, with their defaults. */
  datatype Thresholds = Thresholds(min: real, warning: real, error: real)

  function ReadThresholds(rules: seq<RuleConfig>): (t: Thresholds)
    ensures FindRuleConfig(rules, RuleId).None? ==> t == Thresholds(Atof("30.0"), Atof("20.0"), Atof("10.0"))
  {
    Thresholds(
      Atof(GetRuleParameter(rules, RuleId, "MinReductionPercentage", "30.0")),
      Atof(GetRuleParameter(rules, RuleId, "WarningThreshold", "20.0")),
      Atof(GetRuleParameter(rules, RuleId, "ErrorThreshold", "10.0")))
  }

  /** CanFixLODReduction: LOD0 has vertices and a reduction interface is available. */
  predicate CanFixLodReduction(m: StaticMesh, host: Host)
  {
    HasBaseVertices(m) && host.meshReductionAvailable
  }

  function Description(m: StaticMesh, lods: seq<nat>, issues: string, min: real): string
  {
    "Static Mesh '" + m.name + "' has insufficient polygon reduction in " + IntToString(|lods|)
    + " LOD level(s): " + issues + ". Required: " + IntToString(RoundToInt(min))
    + "% reduction between consecutive LODs."
  }

  /**
   * The outcome of Check, as written (corrected == false) or with the intended
   * severity (corrected == true): nothing for a missing mesh or profile, a
   * disabled rule or fewer than two LODs; otherwise one result covering every
   * reported LOD, with the fix-all command when the mesh can be reduced. As
   * written its severity is the WorstSeverity the pair loop tracks; corrected,
   * it is the most severe of the reported pairs.
   */
  function EvaluateWith(asset: Option<StaticMesh>, profile: Option<ProfileData>, host: Host, corrected: bool): Outcome
  {
    if asset.None? || profile.None? || !IsRuleEnabled(profile.value.rules, RuleId) then NoIssue
    else
      var m := asset.value;
      var t := ReadThresholds(profile.value.rules);
      var counts := TriangleCounts(m);
      if |counts| < 2 then NoIssue
      else
        var lods := ProblematicLods(counts, t.min, |counts|);
        if |lods| == 0 then NoIssue
        else
          var issues := Join(Segments(counts, t.min, lods), "; ");
          var fix := if CanFixLodReduction(m, host) then Some(FixAllLodReductions(lods, t.min)) else None;
          var severity := if corrected then MostSevere(counts, t.min, t.warning, t.error, |counts|)
                          else WorstSeverityAsWritten(counts, t.min, t.warning, t.error, |counts|);
          Outcome(true, [MeshIssue(m, severity, RuleId, Description(m, lods, issues, t.min), fix)])
  }

  /** The outcome Check specifies, as the source computes it. */
  function Evaluate(asset: Option<StaticMesh>, profile: Option<ProfileData>, host: Host): Outcome
  {
    EvaluateWith(asset, profile, host, false)
  }

  /** The outcome with the severity the rule evidently intends: that of the most severe reported pair. */
  function EvaluateCorrected(asset: Option<StaticMesh>, profile: Option<ProfileData>, host: Host): Outcome
  {
    EvaluateWith(asset, profile, host, true)
  }

  /** Check: the guards, then the pair loop, then at most one comprehensive result. */
  method Check(asset: Option<StaticMesh>, profile: Option<ProfileData>, host: Host) returns (o: Outcome)
    ensures o == Evaluate(asset, profile, host)
  {
    if asset.None? || profile.None? || !IsRuleEnabled(profile.value.rules, RuleId) {
      return NoIssue;
    }
    var m := asset.value;
    var t := ReadThresholds(profile.value.rules);
    if |m.lods| < 2 {
      return NoIssue;
    }
    var lods, issues, worst := CollectReductionIssues(TriangleCounts(m), t.min, t.warning, t.error);
    if |lods| == 0 {
      return NoIssue;
    }
    var fix := if CanFixLodReduction(m, host) then Some(FixAllLodReductions(lods, t.min)) else None;
    o := Outcome(true, [MeshIssue(m, worst, RuleId, Description(m, lods, issues, t.min), fix)]);
  }

  /**
   * Check reports exactly when some pair with two non-empty LODs is short of the
   * minimum; it then appends one result listing those LODs, with the package
   * name as its path, always at Info (the tracked WorstSeverity never leaves
   * it), and binds the fix exactly when the mesh can be reduced.
   */
  lemma EvaluateReports(m: StaticMesh, profile: ProfileData, host: Host)
    requires IsRuleEnabled(profile.rules, RuleId) && |m.lods| >= 2
    ensures var o := Evaluate(Some(m), Some(profile), host);
            var t := ReadThresholds(profile.rules);
            var counts := TriangleCounts(m);
            && (o.found <==> exists i :: 1 <= i < |counts| && Problematic(counts, i, t.min))
            && |o.results| == (if o.found then 1 else 0)
            && (o.found ==> o.results[0].severity == Info
                            && o.results[0].ruleId == RuleId
                            && o.results[0].asset == AssetOf(m) && o.results[0].filePath == m.packageName
                            && (o.results[0].fix.Some? <==> CanFixLodReduction(m, host))
                            && (o.results[0].fix.Some? ==>
                                  o.results[0].fix.value == FixAllLodReductions(ProblematicLods(counts, t.min, |counts|), t.min)))
  {
    hide Description, Segments, Join;
    var t := ReadThresholds(profile.rules);
    var counts := TriangleCounts(m);
    ProblematicLodsExact(counts, t.min, |counts|);
    WorstSeverityAsWrittenIsInfo(counts, t.min, t.warning, t.error, |counts|);
    var lods := ProblematicLods(counts, t.min, |counts|);
    if |lods| > 0 {
      assert lods[0] in lods;
    }
  }

  /**
   * The corrected outcome differs from Check's only in the result's severity,
   * which is at least as severe as every reported pair's and is the severity of
   * one of them.
   */
  lemma EvaluateCorrectedReports(m: StaticMesh, profile: ProfileData, host: Host)
    requires IsRuleEnabled(profile.rules, RuleId) && |m.lods| >= 2
    ensures var o := Evaluate(Some(m), Some(profile), host);
            var c := EvaluateCorrected(Some(m), Some(profile), host);
            var t := ReadThresholds(profile.rules);
            var counts := TriangleCounts(m);
            && c.found == o.found && |c.results| == |o.results|
            && (c.found ==>
                  && c.results[0] == o.results[0].(severity := c.results[0].severity)
                  && (forall i :: 1 <= i < |counts| && Problematic(counts, i, t.min) ==>
                        Ordinal(c.results[0].severity) <= Ordinal(PairSeverity(counts, i, t.min, t.warning, t.error)))
                  && (exists i :: 1 <= i < |counts| && Problematic(counts, i, t.min)
                        && c.results[0].severity == PairSeverity(counts, i, t.min, t.warning, t.error)))
  {
    hide Description, Segments, Join;
    var t := ReadThresholds(profile.rules);
    var counts := TriangleCounts(m);
    ProblematicLodsExact(counts, t.min, |counts|);
    MostSevereExact(counts, t.min, t.warning, t.error, |counts|);
    var lods := ProblematicLods(counts, t.min, |counts|);
    if |lods| > 0 {
      assert lods[0] in lods;
    }
  }

  /** Nothing is reported without a mesh, without a profile, for a disabled rule, or below two LODs. */
  lemma EvaluateQuiet(asset: Option<StaticMesh>, profile: Option<ProfileData>, host: Host)
    requires asset.None? || profile.None? || !IsRuleEnabled(profile.value.rules, RuleId) || |asset.value.lods| < 2
    ensures Evaluate(asset, profile, host) == NoIssue
  {
  }

  // ---------------------------------------------------------------------------
  // FixAllLODReductions

  /** The triangle count LOD i - 1 should have: LOD0's, scaled by ((100 - r) / 100)^(i - 1) and rounded. */
  function PreviousTarget(base: nat, r: real, i: nat): int
    requires i >= 1
  {
    if i == 1 then base else RoundToInt(base as real * Pow((100.0 - r) / 100.0, i - 1))
  }

  /** The triangle count LOD i should have: r% fewer than PreviousTarget, and never below 4. */
  function TargetTriangles(base: nat, r: real, i: nat): (n: int)
    requires i >= 1
    ensures n >= 4
    ensures n >= RoundToInt(PreviousTarget(base, r, i) as real * (100.0 - r) / 100.0)
  {
    MaxInt(RoundToInt(PreviousTarget(base, r, i) as real * (100.0 - r) / 100.0), 4)
  }

  /**
   * The fraction of LOD0 written to PercentTriangles and PercentVertices, clamped
   * to [0.01, 1.0]. A zero LOD0 count makes the float division infinite, which
   * the clamp turns into 1.0.
   */
  function TargetFraction(base: nat, r: real, i: nat): (f: real)
    requires i >= 1
    ensures 0.01 <= f <= 1.0
  {
    if base == 0 then 1.0 else ClampReal(TargetTriangles(base, r, i) as real / base as real, 0.01, 1.0)
  }

  /** For a reduction between 0 and 100, a target never exceeds its previous target once that is at least 4. */
  lemma TargetNotAbovePrevious(base: nat, r: real, i: nat)
    requires i >= 1 && 0.0 <= r <= 100.0 && PreviousTarget(base, r, i) >= 4
    ensures TargetTriangles(base, r, i) <= PreviousTarget(base, r, i)
  {
    var p := PreviousTarget(base, r, i) as real;
    var scaled := p * (100.0 - r) / 100.0;
    assert p - scaled == p * r / 100.0;
    MulNonneg(p, r);
    assert scaled <= p;
  }

  /** The reduction settings FixAllLODReductions writes for LOD i: both percentages, reduced from LOD0. */
  function PlannedReduction(base: nat, r: real, i: nat): (s: ReductionSettings)
    requires i >= 1
    ensures s.percentTriangles == s.percentVertices == TargetFraction(base, r, i)
    ensures s.baseLodModel == 0
  {
    ReductionSettings(TargetFraction(base, r, i), TargetFraction(base, r, i), 0)
  }

  /**
   * The source-model loop of FixAllLODReductions: every LOD after LOD0 of the
   * render data that has a source model gets the planned settings. An empty
   * problem list or a missing reduction interface leaves the mesh as it is.
   */
  method FixAllLodReductionSettings(m: StaticMesh, problematic: seq<int>, r: real, host: Host)
    returns (fixed: StaticMesh)
    requires |problematic| == 0 || !host.meshReductionAvailable || |m.lods| > 0
    ensures |problematic| == 0 || !host.meshReductionAvailable ==> fixed == m
    ensures fixed.lods == m.lods && |fixed.sourceModels| == |m.sourceModels|
    ensures fixed == m.(sourceModels := fixed.sourceModels)
    ensures |problematic| > 0 && host.meshReductionAvailable ==>
              forall i :: 0 <= i < |m.sourceModels| ==>
                fixed.sourceModels[i] ==
                  if 1 <= i < |m.lods|
                  then m.sourceModels[i].(reduction := PlannedReduction(m.lods[0].triangles, r, i))
                  else m.sourceModels[i]
  {
    if |problematic| == 0 || !host.meshReductionAvailable {
      return m;
    }
    var base := m.lods[0].triangles;
    var models := m.sourceModels;
    var lod := 1;
    while lod < |m.lods|
      invariant 1 <= lod <= |m.lods| || |m.lods| < 1
      invariant |models| == |m.sourceModels|
      invariant forall i :: 0 <= i < |models| ==>
                  models[i] == if 1 <= i < lod && i < |m.lods|
                               then m.sourceModels[i].(reduction := PlannedReduction(base, r, i))
                               else m.sourceModels[i]
    {
      if lod < |models| {
        models := models[lod := models[lod].(reduction := PlannedReduction(base, r, lod))];
      }
      lod := lod + 1;
    }
    fixed := m.(sourceModels := models);
  }

  /**
   * One step of the verification loop: the achieved reduction from the previous
   * count is within 5 points of the target. A zero previous count divides by
   * zero in float: 0/0 is NaN, which fails no comparison, and anything else is
   * an infinity, which is out of tolerance.
   */
  predicate StepWithinTolerance(previous: nat, current: nat, r: real)
  {
    if previous == 0 then current == 0
    else AbsReal(ReductionPercentage(previous, current) - r) <= Tolerance
  }

  /** The count each rebuilt LOD is compared against: LOD0's for LOD1, the rebuilt previous LOD's after. */
  function PreviousRebuilt(base: nat, rebuilt: seq<nat>, i: nat): nat
    requires 1 <= i <= |rebuilt|
  {
    if i == 1 then base else rebuilt[i - 1]
  }

  /**
   * The verification loop after Build: walks the rebuilt LOD counts of the
   * original LOD range and reports success exactly when every step is within
   * tolerance of the target. The reductions it lists are one per LOD after LOD0.
   */
  method VerifyReductions(base: nat, rebuilt: seq<nat>, total: nat, r: real)
    returns (success: bool, reductions: seq<real>)
    requires total <= |rebuilt|
    ensures success <==> forall i :: 1 <= i < total ==> StepWithinTolerance(PreviousRebuilt(base, rebuilt, i), rebuilt[i], r)
    ensures |reductions| == if total == 0 then 0 else total - 1
  {
    success := true;
    reductions := [];
    if total <= 1 {
      return;
    }
    var newCounts: seq<nat> := [];
    var lod := 1;
    while lod < total
      invariant 1 <= lod <= total
      invariant newCounts == rebuilt[1..lod]
      invariant |reductions| == lod - 1
      invariant success <==> forall i :: 1 <= i < lod ==>
                                StepWithinTolerance(PreviousRebuilt(base, rebuilt, i), rebuilt[i], r)
    {
      var previous := if lod == 1 then base else newCounts[lod - 2];
      var current := rebuilt[lod];
      newCounts := newCounts + [current];
      reductions := reductions + [ReductionPercentage(previous, current)];
      if !StepWithinTolerance(previous, current, r) {
        success := false;
      }
      lod := lod + 1;
    }
  }
}
