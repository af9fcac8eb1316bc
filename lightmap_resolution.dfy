/**
 * FStaticMeshLightmapResolutionRule: the lightmap resolution must lie within the
 * configured range. The fix sets a resolution chosen from the triangle count and
 * the bounding box's surface, clamped to that range.
 */
module LightmapResolution {
  import opened Wrappers
  import opened Numeric
  import opened Text
  import opened Results
  import opened Mesh
  import opened Rule
  import opened Settings

  const RuleId := "SM_LightmapResolution"

  /** MAX_TRIANGLE_COUNT_FOR_LIGHTMAP_RESOLUTION. */
  const MaxTrianglesForResolution := 1000000

  predicate HasInappropriateLightmapResolution(m: StaticMesh, min: int, max: int)
  {
    m.lightmapResolution < min || m.lightmapResolution > max
  }

  /** LOD data exists and LOD0 has at most a million triangles. */
  predicate CanSafelySetLightmapResolution(m: StaticMesh)
  {
    |m.lods| > 0 && m.lods[0].triangles <= MaxTrianglesForResolution
  }

  /** Twice the sum of the pairwise products of the bounding box's sides. */
  function SurfaceArea(m: StaticMesh): real
  {
    var s := BoxSize(m.boundingBox);
    s.x * s.y * 2.0 + s.y * s.z * 2.0 + s.z * s.x * 2.0
  }

  /** The unclamped choice: the minimum, raised by the triangle count and the surface area. */
  function RaisedResolution(min: int, triangles: nat, area: real): (r: int)
    ensures r >= min
    ensures (triangles > 10000 || area > 10000.0) ==> r >= 8
    ensures (triangles > 50000 || area > 100000.0) ==> r >= 10
    ensures triangles > 100000 ==> r >= 12
    ensures r == min || r == 8 || r == 10 || r == 12
  {
    var r1 := if triangles > 10000 then MaxInt(min, 8) else min;
    var r2 := if triangles > 50000 then MaxInt(r1, 10) else r1;
    var r3 := if triangles > 100000 then MaxInt(r2, 12) else r2;
    var r4 := if area > 10000.0 then MaxInt(r3, 8) else r3;
    if area > 100000.0 then MaxInt(r4, 10) else r4
  }

  /**
   * CalculateOptimalLightmapResolution: the minimum without render data, else the
   * raised choice clamped to [min, max].
   */
  function CalculateOptimalLightmapResolution(m: StaticMesh, min: int, max: int): (r: int)
    ensures min <= max ==> min <= r <= max
    ensures |m.lods| == 0 ==> r == min
    ensures min <= max && |m.lods| > 0 && m.lods[0].triangles > 100000 ==> r >= MinInt(12, max)
    ensures min <= max && |m.lods| > 0 && (m.lods[0].triangles > 50000 || SurfaceArea(m) > 100000.0) ==> r >= MinInt(10, max)
    ensures min <= max && |m.lods| > 0 && (m.lods[0].triangles > 10000 || SurfaceArea(m) > 10000.0) ==> r >= MinInt(8, max)
  {
    if |m.lods| == 0 then min
    else ClampInt(RaisedResolution(min, m.lods[0].triangles, SurfaceArea(m)), min, max)
  }

  /** SetOptimalLightmapResolution: only the resolution changes. */
  function SetOptimalLightmapResolution(m: StaticMesh, min: int, max: int): (r: StaticMesh)
    ensures r == m.(lightmapResolution := CalculateOptimalLightmapResolution(m, min, max))
  {
    m.(lightmapResolution := CalculateOptimalLightmapResolution(m, min, max))
  }

  function Description(m: StaticMesh, min: int, max: int): string
  {
    var res := m.lightmapResolution;
    if res < min then
      "Static mesh " + m.name + " has low lightmap resolution (" + IntToString(res) + " < " + IntToString(min)
      + " minimum). This may result in poor lighting quality."
    else if res > max then
      "Static mesh " + m.name + " has high lightmap resolution (" + IntToString(res) + " > " + IntToString(max)
      + " maximum). This may impact performance unnecessarily."
    else "Lightmap resolution check failed for " + m.name
  }

  /**
   * The outcome Check specifies: nothing without a mesh or with the rule switched
   * off; one result with the configured severity for a resolution outside the
   * range, with the resolution fix when allowed and safe.
   */
  function Evaluate(asset: Option<StaticMesh>, q: QuickSettings): Outcome
  {
    if asset.None? || !q.enableLightmapResolution then NoIssue
    else
      var m := asset.value;
      var min := q.lightmapResolutionMin;
      var max := q.lightmapResolutionMax;
      if !HasInappropriateLightmapResolution(m, min, max) then NoIssue
      else
        var fix := if q.allowLightmapResolutionAutoFix && CanSafelySetLightmapResolution(m)
                   then Some(FixCommand.SetOptimalLightmapResolution(min, max)) else None;
        Outcome(true, [UnlocatedIssue(m, q.lightmapResolutionSeverity, RuleId, Description(m, min, max), fix)])
  }

  /**
   * With the rule switched on, Check reports exactly when the resolution lies
   * outside [min, max], with the configured severity; the fix is bound exactly
   * when allowed and LOD0 exists with at most a million triangles.
   */
  lemma EvaluateReports(m: StaticMesh, q: QuickSettings)
    requires q.enableLightmapResolution
    ensures var o := Evaluate(Some(m), q);
            && (o.found <==> m.lightmapResolution < q.lightmapResolutionMin || m.lightmapResolution > q.lightmapResolutionMax)
            && |o.results| == (if o.found then 1 else 0)
            && (o.found ==> && o.results[0].ruleId == RuleId && o.results[0].asset == AssetOf(m) && o.results[0].filePath == ""
                            && o.results[0].severity == q.lightmapResolutionSeverity
                            && (o.results[0].fix.Some? <==>
                                  q.allowLightmapResolutionAutoFix && |m.lods| > 0 && m.lods[0].triangles <= 1000000)
                            && (o.results[0].fix.Some? ==>
                                  o.results[0].fix.value
                                  == FixCommand.SetOptimalLightmapResolution(q.lightmapResolutionMin, q.lightmapResolutionMax)))
  {
    hide Description;
  }

  /** Nothing is reported without a mesh, with the rule switched off, or within the range. */
  lemma EvaluateQuiet(asset: Option<StaticMesh>, q: QuickSettings)
    requires asset.None? || !q.enableLightmapResolution
             || q.lightmapResolutionMin <= asset.value.lightmapResolution <= q.lightmapResolutionMax
    ensures Evaluate(asset, q) == NoIssue
  {
  }

  /** The description says low below the minimum and high above the maximum. */
  lemma DescriptionDirection(m: StaticMesh, min: int, max: int)
    ensures m.lightmapResolution < min ==> "Static mesh " + m.name + " has low" <= Description(m, min, max)
    ensures min <= m.lightmapResolution && m.lightmapResolution > max
            ==> "Static mesh " + m.name + " has high" <= Description(m, min, max)
  {
  }

  /** With min <= max the fix resolves the issue: the new resolution lies in the range. */
  lemma FixResolves(m: StaticMesh, q: QuickSettings)
    requires q.enableLightmapResolution && q.lightmapResolutionMin <= q.lightmapResolutionMax
    ensures Evaluate(Some(SetOptimalLightmapResolution(m, q.lightmapResolutionMin, q.lightmapResolutionMax)), q) == NoIssue
  {
  }
}
