/**
 * FStaticMeshNaniteSuitabilityRule: a mesh with many triangles should use Nanite
 * and a mesh with few should not. The fix sets the Nanite flag to the
 * recommendation.
 */
module Nanite {
  import opened Wrappers
  import opened Text
  import opened Results
  import opened Mesh
  import opened Rule
  import opened Settings

  const RuleId := "SM_NaniteSuitability"

  /** Meshes above this many LOD0 triangles are not optimized automatically. */
  const MaxAutoFixTriangles := 1000000

  /** LOD0 has at least the suitability threshold of triangles; false without render data. */
  predicate ShouldUseNanite(m: StaticMesh, suitability: int)
  {
    |m.lods| > 0 && m.lods[0].triangles >= suitability
  }

  /** LOD0 has at most the disable threshold of triangles; false without render data. */
  predicate ShouldDisableNanite(m: StaticMesh, disable: int)
  {
    |m.lods| > 0 && m.lods[0].triangles <= disable
  }

  /** LOD data exists and LOD0 has at most a million triangles. */
  predicate CanSafelyOptimizeNanite(m: StaticMesh)
  {
    |m.lods| > 0 && m.lods[0].triangles <= MaxAutoFixTriangles
  }

  function Description(m: StaticMesh, shouldUse: bool, shouldDisable: bool, triangles: nat): string
  {
    if shouldUse && !m.nanite.enabled then
      "High-poly mesh (" + IntToString(triangles)
      + " triangles) should use Nanite for optimal performance. Current: Nanite Disabled. Recommended: Enable Nanite."
    else if shouldDisable && m.nanite.enabled then
      "Low-poly mesh (" + IntToString(triangles)
      + " triangles) has Nanite enabled unnecessarily. Current: Nanite Enabled. Recommended: Disable Nanite for better performance."
    else "Nanite suitability check failed for " + m.name + " (" + IntToString(triangles) + " triangles)"
  }

  /**
   * The outcome Check specifies: nothing without a mesh or with the rule switched
   * off; a Warning when Nanite should be used but is off, otherwise an Info when
   * it should be disabled but is on. The fix, when allowed and safe, sets the flag
   * to the recommendation.
   */
  function Evaluate(asset: Option<StaticMesh>, q: QuickSettings): Outcome
  {
    if asset.None? || !q.enableNanite then NoIssue
    else
      var m := asset.value;
      var triangles := LodTriangles(m, 0);
      var shouldUse := ShouldUseNanite(m, q.naniteSuitabilityThreshold);
      var shouldDisable := ShouldDisableNanite(m, q.naniteDisableThreshold);
      var enabled := m.nanite.enabled;
      if (shouldUse && !enabled) || (shouldDisable && enabled) then
        var severity := if shouldUse && !enabled then Warning else Info;
        var fix := if q.allowNaniteAutoFix && CanSafelyOptimizeNanite(m) then Some(OptimizeNanite(shouldUse)) else None;
        Outcome(true, [UnlocatedIssue(m, severity, RuleId, Description(m, shouldUse, shouldDisable, triangles), fix)])
      else NoIssue
  }

  /**
   * With the rule switched on, Check reports exactly when Nanite is off on a mesh
   * at the suitability threshold (a Warning) or on a mesh at the disable threshold
   * (an Info otherwise). The fix is bound exactly when allowed and LOD0 has at most
   * a million triangles, and it carries the recommendation.
   */
  lemma EvaluateReports(m: StaticMesh, q: QuickSettings)
    requires q.enableNanite
    ensures var o := Evaluate(Some(m), q);
            var shouldUse := |m.lods| > 0 && m.lods[0].triangles >= q.naniteSuitabilityThreshold;
            var shouldDisable := |m.lods| > 0 && m.lods[0].triangles <= q.naniteDisableThreshold;
            && (o.found <==> (shouldUse && !m.nanite.enabled) || (shouldDisable && m.nanite.enabled))
            && |o.results| == (if o.found then 1 else 0)
            && (o.found ==> && o.results[0].ruleId == RuleId && o.results[0].asset == AssetOf(m) && o.results[0].filePath == ""
                            && (o.results[0].severity == Warning <==> !m.nanite.enabled)
                            && (o.results[0].severity == Info <==> m.nanite.enabled)
                            && (o.results[0].fix.Some? <==> q.allowNaniteAutoFix && m.lods[0].triangles <= 1000000)
                            && (o.results[0].fix.Some? ==> o.results[0].fix.value == OptimizeNanite(shouldUse)))
  {
    hide Description;
  }

  /** Nothing is reported without a mesh, with the rule switched off, or without render data. */
  lemma EvaluateQuiet(asset: Option<StaticMesh>, q: QuickSettings)
    requires asset.None? || !q.enableNanite || |asset.value.lods| == 0
    ensures Evaluate(asset, q) == NoIssue
  {
  }

  /**
   * OptimizeNaniteSettings: the enabled flag becomes the recommendation; enabling
   * also preserves area and drops explicit tangents.
   */
  function OptimizeNaniteSettings(m: StaticMesh, shouldUse: bool): (r: StaticMesh)
    ensures r.nanite.enabled == shouldUse
    ensures shouldUse ==> r.nanite.preserveArea && !r.nanite.explicitTangents
    ensures !shouldUse ==> r.nanite == m.nanite.(enabled := false)
    ensures r == m.(nanite := r.nanite)
  {
    if shouldUse then m.(nanite := NaniteSettings(true, true, false))
    else m.(nanite := m.nanite.(enabled := false))
  }

  /**
   * After the fix the rule reports again exactly when the mesh is both at the
   * suitability and at the disable threshold, which consistent thresholds
   * (disable below suitability) rule out.
   */
  lemma FixOutcome(m: StaticMesh, q: QuickSettings)
    requires q.enableNanite
    ensures var shouldUse := ShouldUseNanite(m, q.naniteSuitabilityThreshold);
            var r := OptimizeNaniteSettings(m, shouldUse);
            Evaluate(Some(r), q).found <==> shouldUse && ShouldDisableNanite(m, q.naniteDisableThreshold)
  {
    var shouldUse := ShouldUseNanite(m, q.naniteSuitabilityThreshold);
    var r := OptimizeNaniteSettings(m, shouldUse);
    EvaluateReports(r, q);
  }

  /** With the disable threshold below the suitability threshold the fix resolves the issue. */
  lemma FixResolves(m: StaticMesh, q: QuickSettings)
    requires q.enableNanite && q.naniteDisableThreshold < q.naniteSuitabilityThreshold
    ensures !Evaluate(Some(OptimizeNaniteSettings(m, ShouldUseNanite(m, q.naniteSuitabilityThreshold))), q).found
  {
    FixOutcome(m, q);
  }
}
