/**
 * FStaticMeshDegenerateFacesRule: an estimate of zero-area triangles from LOD0's
 * triangle-to-vertex ratio, reported by the percentage of all triangles it makes
 * up. Automatic removal is switched off in the rule, so no fix is ever offered.
 */
module DegenerateFaces {
  import opened Wrappers
  import opened Numeric
  import opened Text
  import opened Results
  import opened Mesh
  import opened Rule
  import opened Settings

  const RuleId := "SM_DegenerateFaces"

  /**
   * The degenerate-face estimate: a tenth of LOD0's triangles (at least one) when
   * there are fewer than half as many triangles as vertices, otherwise none; none
   * without LOD data.
   */
  function EstimatedDegenerateFaces(m: StaticMesh): (d: nat)
    ensures d > 0 <==> |m.lods| > 0 && m.lods[0].triangles > 0 && m.lods[0].vertices > 0
                        && 2 * m.lods[0].triangles < m.lods[0].vertices
    ensures d > 0 ==> d <= m.lods[0].triangles && 10 * d <= MaxInt(10, m.lods[0].triangles)
  {
    if |m.lods| == 0 then 0
    else
      var t := m.lods[0].triangles;
      var v := m.lods[0].vertices;
      if t > 0 && v > 0 && (t as real / v as real) < 0.5 then (RatioBelowHalf(t, v); MaxInt(1, t / 10))
      else (RatioBelowHalf(t, v); 0)
  }

  /** For positive counts, t / v < 0.5 exactly when 2t < v. */
  lemma RatioBelowHalf(t: nat, v: nat)
    ensures v > 0 ==> (t as real / v as real < 0.5 <==> 2 * t < v)
  {
    if v > 0 {
      RatioCompare(t as real, v as real, 0.5);
    }
  }

  /** The degenerate share of all LOD0 triangles, in percent. */
  function DegeneratePercentage(degenerate: nat, total: nat): real
    requires total > 0
  {
    degenerate as real / total as real * 100.0
  }

  /**
   * The estimate makes up a tenth of the triangles or less from ten triangles on,
   * and more than a tenth below ten, where it is the one triangle it never goes
   * below: thresholds above 10% can only flag meshes with fewer than ten triangles.
   */
  lemma PercentageOfEstimate(m: StaticMesh)
    requires EstimatedDegenerateFaces(m) > 0
    ensures var p := DegeneratePercentage(EstimatedDegenerateFaces(m), m.lods[0].triangles);
            && 0.0 < p <= 100.0
            && (m.lods[0].triangles >= 10 ==> p <= 10.0)
            && (m.lods[0].triangles < 10 ==> p > 10.0)
  {
    var d := EstimatedDegenerateFaces(m);
    var t := m.lods[0].triangles;
    var r := d as real / t as real;
    assert r * t as real == d as real;
    RatioCompare(d as real, t as real, 0.0);
    RatioCompare(d as real, t as real, 1.0);
    RatioCompare(d as real, t as real, 0.1);
    if t >= 10 {
      assert 10 * d <= t;
    } else {
      assert d == 1;
    }
  }

  /** Error from the error threshold on, Warning from the warning threshold on, else Info (no issue). */
  function PercentageSeverity(pct: real, q: QuickSettings): Severity
  {
    if pct >= q.degenerateFacesErrorThreshold then Error
    else if pct >= q.degenerateFacesWarningThreshold then Warning
    else Info
  }

  function Description(degenerate: nat, total: nat, severity: Severity): string
    requires total > 0
  {
    SeverityTag(severity)
    + ": Found " + IntToString(degenerate) + " degenerate faces out of " + IntToString(total) + " total faces ("
    + Fixed1(DegeneratePercentage(degenerate, total)) + "%). "
    + "Degenerate faces (zero-area triangles) can cause rendering artifacts, physics issues, and performance problems. "
    + "These should be removed to ensure proper mesh functionality."
  }

  /**
   * The outcome Check specifies: nothing without a mesh or with the rule switched
   * off; for an estimated degenerate count one result, without a fix, when the
   * percentage reaches a threshold.
   */
  function Evaluate(asset: Option<StaticMesh>, q: QuickSettings): Outcome
  {
    if asset.None? || !q.enableDegenerateFaces then NoIssue
    else
      var m := asset.value;
      var d := EstimatedDegenerateFaces(m);
      if d == 0 then NoIssue
      else
        var total := m.lods[0].triangles;
        var severity := PercentageSeverity(DegeneratePercentage(d, total), q);
        if severity == Info then NoIssue
        else Outcome(true, [MeshIssue(m, severity, RuleId, Description(d, total, severity), None)])
  }

  /**
   * With the rule switched on, Check reports exactly when the estimate is positive
   * and its percentage reaches a threshold; the result is Error exactly from the
   * error threshold on and never carries a fix.
   */
  lemma EvaluateReports(m: StaticMesh, q: QuickSettings)
    requires q.enableDegenerateFaces
    ensures var o := Evaluate(Some(m), q);
            var d := EstimatedDegenerateFaces(m);
            var reachesError := d > 0 && DegeneratePercentage(d, m.lods[0].triangles) >= q.degenerateFacesErrorThreshold;
            var reachesWarning := d > 0 && DegeneratePercentage(d, m.lods[0].triangles) >= q.degenerateFacesWarningThreshold;
            && (o.found <==> reachesError || reachesWarning)
            && |o.results| == (if o.found then 1 else 0)
            && (o.found ==> && o.results[0].ruleId == RuleId && o.results[0].asset == AssetOf(m)
                            && (o.results[0].severity == Error <==> reachesError)
                            && (o.results[0].severity == Warning <==> !reachesError)
                            && o.results[0].fix.None?)
  {
    hide Description;
  }

  /** Nothing is reported without a mesh, with the rule switched off, or without LOD data. */
  lemma EvaluateQuiet(asset: Option<StaticMesh>, q: QuickSettings)
    requires asset.None? || !q.enableDegenerateFaces || |asset.value.lods| == 0
    ensures Evaluate(asset, q) == NoIssue
  {
  }
}
