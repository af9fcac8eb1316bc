/**
 * FStaticMeshScalingRule: three independent checks on the size of the mesh's
 * bounding box — one axis much longer than another, an axis of (near) zero
 * size, and sizes outside [0.001, 1000]. Only the zero-size result offers a
 * fix, and that fix never succeeds.
 */
module Scaling {
  import opened Wrappers
  import opened Numeric
  import opened Text
  import opened Results
  import opened Profile
  import opened Mesh
  import opened Rule
  import opened Settings

  const NonUniformRuleId := "SM_NonUniformScale"
  const ZeroScaleRuleId := "SM_ZeroScale"
  const ExtremeScaleRuleId := "SM_ExtremeScale"

  /** PipelineGuardianConstants::MIN_SCALE_THRESHOLD and MAX_SCALE_THRESHOLD. */
  const MinScaleThreshold := 0.001
  const MaxScaleThreshold := 1000.0

  /** Meshes above this many LOD0 triangles are not offered the zero-scale fix. */
  const MaxAutoFixTriangles := 500000

  const LargeIssue := "Extreme scale values (>1000 units)"
  const SmallIssue := "Very small scale values (<0.001 units)"

  function Max3(a: real, b: real, c: real): (r: real)
    ensures r >= a && r >= b && r >= c
    ensures r == a || r == b || r == c
  {
    MaxReal(a, MaxReal(b, c))
  }

  function Min3(a: real, b: real, c: real): (r: real)
    ensures r <= a && r <= b && r <= c
    ensures r == a || r == b || r == c
  {
    MinReal(a, MinReal(b, c))
  }

  /** The three axes of a bounding-box size. */
  datatype Dim = DimX | DimY | DimZ

  function Side(size: Vec3, d: Dim): real
  {
    match d
    case DimX => size.x
    case DimY => size.y
    case DimZ => size.z
  }

  /** The name the rule reports an axis by. */
  function Label(d: Dim): string
  {
    match d
    case DimX => "X"
    case DimY => "Y"
    case DimZ => "Z"
  }

  // ---------------------------------------------------------------------------
  // Non-uniform scale

  /**
   * HasNonUniformScale: false when LOD0's build settings recompute normals;
   * otherwise the ratio of the longest to the shortest box side exceeds the
   * warning ratio, provided both are positive.
   */
  predicate HasNonUniformScale(m: StaticMesh, ratio: real)
  {
    if Lod0Build(m).recomputeNormals then false
    else
      var size := BoxSize(m.boundingBox);
      var longest := Max3(size.x, size.y, size.z);
      var shortest := Min3(size.x, size.y, size.z);
      longest > 0.0 && shortest > 0.0 && longest / shortest > ratio
  }

  function Times(r: real, x: real): real { r * x }

  /** Some side exceeds ratio times another side. */
  predicate SomeSideExceeds(size: Vec3, ratio: real)
  {
    exists a: Dim, b: Dim :: Side(size, a) > Times(ratio, Side(size, b))
  }

  /**
   * Without recomputed normals the scale is non-uniform exactly when every side
   * is positive and some side exceeds the warning ratio times another.
   */
  lemma NonUniformMeansSideRatio(m: StaticMesh, ratio: real)
    requires !Lod0Build(m).recomputeNormals
    ensures var size := BoxSize(m.boundingBox);
            HasNonUniformScale(m, ratio) <==> size.x > 0.0 && size.y > 0.0 && size.z > 0.0 && SomeSideExceeds(size, ratio)
  {
    var size := BoxSize(m.boundingBox);
    var longest := Max3(size.x, size.y, size.z);
    var shortest := Min3(size.x, size.y, size.z);
    if size.x > 0.0 && size.y > 0.0 && size.z > 0.0 {
      RatioAbove(longest, shortest, ratio);
      SideExceedsIffExtremes(size, ratio);
      assert Times(ratio, shortest) == ratio * shortest;
    }
  }

  /** With all sides positive, some side exceeds r times another exactly when the longest exceeds r times the shortest. */
  lemma SideExceedsIffExtremes(size: Vec3, r: real)
    requires size.x > 0.0 && size.y > 0.0 && size.z > 0.0
    ensures SomeSideExceeds(size, r) <==> Max3(size.x, size.y, size.z) > Times(r, Min3(size.x, size.y, size.z))
  {
    hide Times;
    var longest := Max3(size.x, size.y, size.z);
    var shortest := Min3(size.x, size.y, size.z);
    if longest > Times(r, shortest) {
      var a := if longest == size.x then DimX else if longest == size.y then DimY else DimZ;
      var b := if shortest == size.x then DimX else if shortest == size.y then DimY else DimZ;
      assert Side(size, a) > Times(r, Side(size, b));
    }
    if SomeSideExceeds(size, r) {
      var a, b :| Side(size, a) > Times(r, Side(size, b));
      SideBound(Side(size, a), Side(size, b), longest, shortest, r);
    }
  }

  /** For a positive divisor, the quotient exceeds r exactly when the dividend exceeds r times the divisor. */
  lemma RatioAbove(x: real, y: real, r: real)
    requires y > 0.0
    ensures x / y > r <==> x > r * y
  {
    assert x / y * y == x;
    if x / y > r {
      MulPos(x / y - r, y);
    } else {
      MulNonneg(r - x / y, y);
    }
  }

  /** A side exceeding r times another lets the longest exceed r times the shortest. */
  lemma SideBound(sa: real, sb: real, longest: real, shortest: real, r: real)
    requires longest >= sa && 0.0 < shortest <= sb && longest > 0.0 && sa > Times(r, sb)
    ensures longest > Times(r, shortest)
  {
    if r >= 0.0 {
      MulNonneg(r, sb - shortest);
    } else {
      MulNonneg(-r, shortest);
    }
  }

  function NonUniformDescription(m: StaticMesh, size: Vec3): string
  {
    "Static mesh " + m.name + " has non-uniform scaling (X:" + Fixed2(size.x) + ", Y:" + Fixed2(size.y) + ", Z:" + Fixed2(size.z)
    + "). This can cause rendering artifacts and should be uniform for consistent results."
  }

  // ---------------------------------------------------------------------------
  // Zero scale

  /** The names of the axes shorter than the threshold, in X, Y, Z order. */
  function ZeroScaleAxes(size: Vec3, threshold: real): seq<string>
  {
    (if size.x < threshold then ["X"] else []) + (if size.y < threshold then ["Y"] else []) + (if size.z < threshold then ["Z"] else [])
  }

  /** HasZeroScale: each axis in turn, its name appended when the side is below the threshold. */
  method HasZeroScale(m: StaticMesh, threshold: real) returns (zero: bool, axes: seq<string>)
    ensures axes == ZeroScaleAxes(BoxSize(m.boundingBox), threshold)
    ensures zero <==> |axes| > 0
  {
    var size := BoxSize(m.boundingBox);
    axes := [];
    zero := false;
    if size.x < threshold {
      axes := axes + ["X"];
      zero := true;
    }
    if size.y < threshold {
      axes := axes + ["Y"];
      zero := true;
    }
    if size.z < threshold {
      axes := axes + ["Z"];
      zero := true;
    }
  }

  /**
   * The axes listed are exactly those below the threshold, each once and in
   * X, Y, Z order.
   */
  lemma ZeroScaleAxesExact(size: Vec3, threshold: real)
    ensures var axes := ZeroScaleAxes(size, threshold);
            && (forall d :: Label(d) in axes <==> Side(size, d) < threshold)
            && (forall a :: a in axes ==> exists d :: a == Label(d))
            && (forall i, j :: 0 <= i < j < |axes| ==> Rank(axes[i]) < Rank(axes[j]))
  {
    var axes := ZeroScaleAxes(size, threshold);
    assert Label(DimX) == "X" && Label(DimY) == "Y" && Label(DimZ) == "Z";
    assert "X" != "Y" && "Y" != "Z" && "X" != "Z";
    forall a | a in axes
      ensures exists d :: a == Label(d)
    {
      if a == "X" {
        assert a == Label(DimX);
      } else if a == "Y" {
        assert a == Label(DimY);
      } else {
        assert a == Label(DimZ);
      }
    }
  }

  /** The position of an axis name in X, Y, Z order. */
  function Rank(a: string): nat
  {
    if a == "X" then 0 else if a == "Y" then 1 else 2
  }

  function ZeroScaleDescription(m: StaticMesh, axes: seq<string>): string
  {
    "Static mesh " + m.name + " has zero or near-zero scale on axes: " + Join(axes, ", ") + ". This can cause rendering and collision issues."
  }

  /**
   * CanSafelyFixScaling as written: it reads LOD0's triangle count without
   * checking that render data exists, so it is defined only for a mesh with LODs.
   */
  predicate CanSafelyFixScalingAsWritten(m: StaticMesh)
    requires |m.lods| > 0
  {
    m.lods[0].triangles <= MaxAutoFixTriangles
  }

  /**
   * The unguarded read is reachable: a mesh without render data whose box is
   * empty is reported for zero scale on all three axes, so Check consults
   * CanSafelyFixScaling for a mesh outside its domain.
   */
  lemma ZeroScaleWithoutRenderData(m: StaticMesh, q: QuickSettings)
    requires |m.lods| == 0 && m.boundingBox.min == m.boundingBox.max
    requires q.enableZeroScale && q.zeroScaleThreshold > 0.0
    ensures ZeroScaleAxes(BoxSize(m.boundingBox), q.zeroScaleThreshold) == ["X", "Y", "Z"]
    ensures !(|m.lods| > 0)
  {
  }

  /** CanSafelyFixScaling as evidently intended: render data exists and LOD0 has at most 500,000 triangles. */
  predicate CanSafelyFixScaling(m: StaticMesh)
  {
    |m.lods| > 0 && m.lods[0].triangles <= MaxAutoFixTriangles
  }

  /** The guarded predicate agrees with the written one wherever that is defined, and declines a mesh without LODs. */
  lemma CanSafelyFixScalingAgrees(m: StaticMesh)
    ensures |m.lods| > 0 ==> (CanSafelyFixScaling(m) <==> CanSafelyFixScalingAsWritten(m))
    ensures |m.lods| == 0 ==> !CanSafelyFixScaling(m)
  {
  }

  /** FixZeroScale: marks the package dirty and reports failure, whatever the axes. */
  function FixZeroScaleSucceeds(m: StaticMesh, axes: seq<string>): (ok: bool)
    ensures !ok
  {
    false
  }

  // ---------------------------------------------------------------------------
  // Extreme scale

  /** The extreme-scale messages: at most one for a side above 1000, then at most one for a side below 0.001. */
  function ExtremeIssues(size: Vec3): seq<string>
  {
    (if size.x > MaxScaleThreshold || size.y > MaxScaleThreshold || size.z > MaxScaleThreshold then [LargeIssue] else [])
    + (if size.x < MinScaleThreshold || size.y < MinScaleThreshold || size.z < MinScaleThreshold then [SmallIssue] else [])
  }

  /** HasExtremeScaleValues: the large-side message, then the small-side message, each appended when due. */
  method HasExtremeScaleValues(m: StaticMesh) returns (extreme: bool, issues: seq<string>)
    ensures issues == ExtremeIssues(BoxSize(m.boundingBox))
    ensures extreme <==> |issues| > 0
  {
    var size := BoxSize(m.boundingBox);
    issues := [];
    extreme := false;
    if size.x > MaxScaleThreshold || size.y > MaxScaleThreshold || size.z > MaxScaleThreshold {
      issues := issues + [LargeIssue];
      extreme := true;
    }
    if size.x < MinScaleThreshold || size.y < MinScaleThreshold || size.z < MinScaleThreshold {
      issues := issues + [SmallIssue];
      extreme := true;
    }
  }

  /**
   * The large-side message appears exactly when some side exceeds 1000 and the
   * small-side one exactly when some side is below 0.001, the large one first;
   * a box with every side in [0.001, 1000] has no messages.
   */
  lemma ExtremeIssuesExact(size: Vec3)
    ensures var issues := ExtremeIssues(size);
            && |issues| <= 2
            && (LargeIssue in issues <==> exists d :: Side(size, d) > MaxScaleThreshold)
            && (SmallIssue in issues <==> exists d :: Side(size, d) < MinScaleThreshold)
            && (|issues| == 2 ==> issues == [LargeIssue, SmallIssue])
  {
    assert Side(size, DimX) == size.x && Side(size, DimY) == size.y && Side(size, DimZ) == size.z;
  }

  function ExtremeDescription(m: StaticMesh, issues: seq<string>): string
  {
    "Static mesh " + m.name + " has extreme scale values: " + Join(issues, ", ") + ". These should be normalized before importing."
  }

  // ---------------------------------------------------------------------------
  // Check

  function NonUniformResults(m: StaticMesh, q: QuickSettings): seq<AnalysisResult>
  {
    if q.enableNonUniformScale && HasNonUniformScale(m, q.nonUniformScaleWarningRatio) then
      [UnlocatedIssue(m, q.nonUniformScaleSeverity, NonUniformRuleId, NonUniformDescription(m, BoxSize(m.boundingBox)), None)]
    else []
  }

  function ZeroScaleResults(m: StaticMesh, q: QuickSettings): seq<AnalysisResult>
  {
    var axes := ZeroScaleAxes(BoxSize(m.boundingBox), q.zeroScaleThreshold);
    if q.enableZeroScale && |axes| > 0 then
      var fix := if CanSafelyFixScaling(m) then Some(FixZeroScale(axes)) else None;
      [UnlocatedIssue(m, q.zeroScaleSeverity, ZeroScaleRuleId, ZeroScaleDescription(m, axes), fix)]
    else []
  }

  function ExtremeResults(m: StaticMesh, q: QuickSettings): seq<AnalysisResult>
  {
    var issues := ExtremeIssues(BoxSize(m.boundingBox));
    if q.enableAssetTypeSpecificPivotRules && |issues| > 0 then
      [UnlocatedIssue(m, q.transformPivotSeverity, ExtremeScaleRuleId, ExtremeDescription(m, issues), None)]
    else []
  }

  /** The outcome Check specifies: nothing without a mesh or profile, else the three results in order. */
  function Evaluate(asset: Option<StaticMesh>, profile: Option<ProfileData>, q: QuickSettings): Outcome
  {
    if asset.None? || profile.None? then NoIssue
    else
      var m := asset.value;
      var results := NonUniformResults(m, q) + ZeroScaleResults(m, q) + ExtremeResults(m, q);
      Outcome(|results| > 0, results)
  }

  method Check(asset: Option<StaticMesh>, profile: Option<ProfileData>, q: QuickSettings) returns (o: Outcome)
    ensures o == Evaluate(asset, profile, q)
  {
    hide NonUniformDescription, ZeroScaleDescription, ExtremeDescription;
    if asset.None? || profile.None? {
      return NoIssue;
    }
    var m := asset.value;
    var results: seq<AnalysisResult> := [];
    var hasIssues := false;
    if q.enableNonUniformScale && HasNonUniformScale(m, q.nonUniformScaleWarningRatio) {
      results := results + [UnlocatedIssue(m, q.nonUniformScaleSeverity, NonUniformRuleId, NonUniformDescription(m, BoxSize(m.boundingBox)), None)];
      hasIssues := true;
    }
    if q.enableZeroScale {
      var zero, axes := HasZeroScale(m, q.zeroScaleThreshold);
      if zero {
        var fix := None;
        if CanSafelyFixScaling(m) {
          fix := Some(FixZeroScale(axes));
        }
        results := results + [UnlocatedIssue(m, q.zeroScaleSeverity, ZeroScaleRuleId, ZeroScaleDescription(m, axes), fix)];
        hasIssues := true;
      }
    }
    if q.enableAssetTypeSpecificPivotRules {
      var extreme, issues := HasExtremeScaleValues(m);
      if extreme {
        results := results + [UnlocatedIssue(m, q.transformPivotSeverity, ExtremeScaleRuleId, ExtremeDescription(m, issues), None)];
        hasIssues := true;
      }
    }
    return Outcome(hasIssues, results);
  }

  /**
   * With a profile, Check appends the non-uniform, zero-scale and extreme-scale
   * results in that order, each when its setting is on and its condition holds,
   * with its own rule ID and configured severity and an empty path; it returns
   * true exactly when it appended one, and only the zero-scale result can carry
   * a fix: FixZeroScale with the short axes, offered when LOD0 has at most
   * 500,000 triangles.
   */
  lemma EvaluateReports(m: StaticMesh, profile: ProfileData, q: QuickSettings)
    ensures var o := Evaluate(Some(m), Some(profile), q);
            var size := BoxSize(m.boundingBox);
            var nonUniform := q.enableNonUniformScale && HasNonUniformScale(m, q.nonUniformScaleWarningRatio);
            var zero := q.enableZeroScale && (size.x < q.zeroScaleThreshold || size.y < q.zeroScaleThreshold || size.z < q.zeroScaleThreshold);
            var extreme := q.enableAssetTypeSpecificPivotRules && |ExtremeIssues(size)| > 0;
            && (o.found <==> nonUniform || zero || extreme)
            && |o.results| == (if nonUniform then 1 else 0) + (if zero then 1 else 0) + (if extreme then 1 else 0)
            && (forall k :: 0 <= k < |o.results| ==> o.results[k].asset == AssetOf(m) && o.results[k].filePath == "")
            && (nonUniform ==> && o.results[0].ruleId == NonUniformRuleId
                               && o.results[0].severity == q.nonUniformScaleSeverity)
            && (zero ==> var z := if nonUniform then 1 else 0;
                         && o.results[z].ruleId == ZeroScaleRuleId
                         && o.results[z].severity == q.zeroScaleSeverity
                         && (o.results[z].fix.Some? <==> CanSafelyFixScaling(m)))
            && (extreme ==> && o.results[|o.results| - 1].ruleId == ExtremeScaleRuleId
                            && o.results[|o.results| - 1].severity == q.transformPivotSeverity)
            && (forall k :: 0 <= k < |o.results| && o.results[k].fix.Some? ==>
                  && o.results[k].ruleId == ZeroScaleRuleId
                  && o.results[k].fix.value == FixZeroScale(ZeroScaleAxes(size, q.zeroScaleThreshold))
                  && |m.lods| > 0 && m.lods[0].triangles <= MaxAutoFixTriangles)
  {
    hide NonUniformDescription, ZeroScaleDescription, ExtremeDescription;
  }

  /** Nothing is reported without a mesh or a profile, or with all three checks switched off. */
  lemma EvaluateQuiet(asset: Option<StaticMesh>, profile: Option<ProfileData>, q: QuickSettings)
    requires || asset.None? || profile.None?
             || (!q.enableNonUniformScale && !q.enableZeroScale && !q.enableAssetTypeSpecificPivotRules)
    ensures Evaluate(asset, profile, q) == NoIssue
  {
  }
}
