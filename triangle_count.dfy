/**
 * FStaticMeshTriangleCountRule: LOD0's triangle count against a base budget
 * raised by a warning and an error percentage. The rule never offers a fix.
 */
module TriangleCount {
  import opened Wrappers
  import opened Numeric
  import opened Text
  import opened Results
  import opened Profile
  import opened Mesh
  import opened Rule
  import opened Settings

  const RuleId := "SM_TriangleCount"

  /** The base budget raised by pct percent of itself, rounded to a whole triangle count. */
  function Threshold(base: int, pct: real): (t: int)
    ensures (t - base) as real - 0.5 <= base as real * pct / 100.0 < (t - base) as real + 0.5
  {
    base + RoundToInt(base as real * pct / 100.0)
  }

  /** Error from the error threshold on, Warning from the warning threshold on, else Info (no issue). */
  function DetermineSeverity(count: int, warning: int, error: int): Severity
  {
    if count >= error then Error
    else if count >= warning then Warning
    else Info
  }

  /** A larger triangle count is never judged less severe. */
  lemma SeverityMonotone(c1: int, c2: int, warning: int, error: int)
    requires c1 <= c2
    ensures Ordinal(DetermineSeverity(c2, warning, error)) <= Ordinal(DetermineSeverity(c1, warning, error))
  {
  }

  /** A non-negative budget with a smaller warning percentage gets a warning threshold no higher than its error threshold. */
  lemma ThresholdsOrdered(base: int, warningPct: real, errorPct: real)
    requires base >= 0 && warningPct <= errorPct
    ensures Threshold(base, warningPct) <= Threshold(base, errorPct)
  {
    MulNonneg(base as real, errorPct - warningPct);
    assert base as real * errorPct - base as real * warningPct == base as real * (errorPct - warningPct);
  }

  /** How far the count exceeds the base, in percent of the base. */
  function ExcessPercentage(count: int, base: int): real
  {
    if base == 0 then 0.0 else (count - base) as real / base as real * 100.0
  }

  function Description(m: StaticMesh, count: int, base: int, pct: real, severity: Severity): string
  {
    SeverityTag(severity)
    + ": Triangle count " + IntToString(count) + " exceeds base threshold " + IntToString(base)
    + " by " + Fixed1(ExcessPercentage(count, base)) + "% (threshold: " + Fixed1(pct) + "%). "
    + "High triangle counts impact rendering performance, especially on mobile devices and VR. "
    + "Optimize mesh in external 3D tools (Blender, Maya, 3ds Max) to preserve UVs and shape quality."
  }

  /**
   * The outcome Check specifies: nothing without a mesh or profile, with the rule
   * disabled in the profile or in the settings, or for a LOD0 without triangles;
   * otherwise one result without a fix when the severity is not Info. The
   * description quotes the percentage of the threshold that was reached.
   */
  function Evaluate(asset: Option<StaticMesh>, profile: Option<ProfileData>, q: QuickSettings): Outcome
  {
    if asset.None? || profile.None? || !IsRuleEnabled(profile.value.rules, RuleId) || !q.enableTriangleCount then NoIssue
    else
      var m := asset.value;
      var count := LodTriangles(m, 0);
      if count == 0 then NoIssue
      else
        var base := q.triangleCountBaseThreshold;
        var warning := Threshold(base, q.triangleCountWarningPercentage);
        var error := Threshold(base, q.triangleCountErrorPercentage);
        var severity := DetermineSeverity(count, warning, error);
        if severity == Info then NoIssue
        else
          var pct := if severity == Warning then q.triangleCountWarningPercentage else q.triangleCountErrorPercentage;
          Outcome(true, [MeshIssue(m, severity, RuleId, Description(m, count, base, pct, severity), None)])
  }

  /**
   * With the rule enabled in both places, Check reports exactly when LOD0 has
   * triangles and reaches one of the two thresholds; the single result is Error
   * exactly from the error threshold on, Warning otherwise, and never has a fix.
   */
  lemma EvaluateReports(m: StaticMesh, profile: ProfileData, q: QuickSettings)
    requires IsRuleEnabled(profile.rules, RuleId) && q.enableTriangleCount
    ensures var o := Evaluate(Some(m), Some(profile), q);
            var count := LodTriangles(m, 0);
            var warning := Threshold(q.triangleCountBaseThreshold, q.triangleCountWarningPercentage);
            var error := Threshold(q.triangleCountBaseThreshold, q.triangleCountErrorPercentage);
            && (o.found <==> count > 0 && (count >= warning || count >= error))
            && |o.results| == (if o.found then 1 else 0)
            && (o.found ==> && o.results[0].ruleId == RuleId && o.results[0].asset == AssetOf(m)
                            && o.results[0].filePath == m.packageName
                            && (o.results[0].severity == Error <==> count >= error)
                            && (o.results[0].severity == Warning <==> count < error)
                            && o.results[0].fix.None?)
  {
    hide Description;
  }

  /** Nothing is reported without a mesh or profile, with the rule disabled, or for an empty LOD0. */
  lemma EvaluateQuiet(asset: Option<StaticMesh>, profile: Option<ProfileData>, q: QuickSettings)
    requires || asset.None? || profile.None? || !IsRuleEnabled(profile.value.rules, RuleId)
             || !q.enableTriangleCount || LodTriangles(asset.value, 0) == 0
    ensures Evaluate(asset, profile, q) == NoIssue
  {
  }
}
