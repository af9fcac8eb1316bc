/**
 * FStaticMeshTransformRule: the pivot (the local origin) far from the centre of
 * the bounding box, and signs of transformations not applied in the modelling
 * tool. Neither result offers a fix.
 */
module Transform {
  import opened Wrappers
  import opened Numeric
  import opened Text
  import opened Results
  import opened Profile
  import opened Mesh
  import opened Rule
  import opened Settings

  const PivotRuleId := "SM_TransformPivot"
  const DccRuleId := "SM_DCCTransform"

  const Origin := Vec3(0.0, 0.0, 0.0)

  /** Box centres farther than this from the origin, and sides longer than this, are suspicious. */
  const FarLimit := 1000.0
  const SmallLimit := 0.001

  const FarPivotIssue := "Pivot very far from origin"
  const LargeSizeIssue := "Extreme size values (>1000 units)"
  const SmallSizeIssue := "Very small size values (<0.001 units)"

  /**
   * HasProblematicPivot: the bounding-box centre lies farther from the pivot at
   * the origin than the smaller of the two distances.
   */
  predicate HasProblematicPivot(m: StaticMesh, warning: real, error: real)
  {
    FartherThan(BoxCenter(m.boundingBox), Origin, MinReal(warning, error))
  }

  /**
   * Measured by the distance d of the centre from the origin, the pivot is
   * problematic exactly when d exceeds both distances' minimum, that is when it
   * exceeds the warning or the error distance.
   */
  lemma PivotMeansDistance(m: StaticMesh, warning: real, error: real, d: real)
    requires d >= 0.0 && d * d == DistSquared(BoxCenter(m.boundingBox), Origin)
    ensures HasProblematicPivot(m, warning, error) <==> d > warning || d > error
  {
    FartherThanMeansDistance(BoxCenter(m.boundingBox), Origin, MinReal(warning, error), d);
  }

  function PivotDescription(m: StaticMesh, distance: real): string
  {
    "Static mesh " + m.name + " has pivot offset " + Fixed2(distance)
    + " units from mesh center. This may cause placement and rotation issues. Consider centering the pivot in your DCC tool."
  }

  /** The DCC messages: a far centre, then a side above 1000, then a side below 0.001, each at most once. */
  function DccIssues(m: StaticMesh): seq<string>
  {
    var size := BoxSize(m.boundingBox);
    (if FartherThan(BoxCenter(m.boundingBox), Origin, FarLimit) then [FarPivotIssue] else [])
    + (if size.x > FarLimit || size.y > FarLimit || size.z > FarLimit then [LargeSizeIssue] else [])
    + (if size.x < SmallLimit || size.y < SmallLimit || size.z < SmallLimit then [SmallSizeIssue] else [])
  }

  /** HasUnappliedDCCTransformations: the three tests in turn, each appending its message when it fails. */
  method HasUnappliedDccTransformations(m: StaticMesh) returns (found: bool, issues: seq<string>)
    ensures issues == DccIssues(m)
    ensures found <==> |issues| > 0
  {
    var size := BoxSize(m.boundingBox);
    var center := BoxCenter(m.boundingBox);
    issues := [];
    found := false;
    if FartherThan(center, Origin, FarLimit) {
      issues := issues + [FarPivotIssue];
      found := true;
    }
    if size.x > FarLimit || size.y > FarLimit || size.z > FarLimit {
      issues := issues + [LargeSizeIssue];
      found := true;
    }
    if size.x < SmallLimit || size.y < SmallLimit || size.z < SmallLimit {
      issues := issues + [SmallSizeIssue];
      found := true;
    }
  }

  /** The position of a DCC message in the order the tests run. */
  function IssueRank(s: string): nat
  {
    if s == FarPivotIssue then 0 else if s == LargeSizeIssue then 1 else 2
  }

  /**
   * Each DCC message appears exactly when its test fails, at most once, and in
   * the order the tests run: far centre, large side, small side. A box with a
   * centre within 1000 of the origin and every side in [0.001, 1000] has none.
   */
  lemma DccIssuesExact(m: StaticMesh)
    ensures var issues := DccIssues(m);
            var size := BoxSize(m.boundingBox);
            && |issues| <= 3
            && (FarPivotIssue in issues <==> FartherThan(BoxCenter(m.boundingBox), Origin, FarLimit))
            && (LargeSizeIssue in issues <==> size.x > FarLimit || size.y > FarLimit || size.z > FarLimit)
            && (SmallSizeIssue in issues <==> size.x < SmallLimit || size.y < SmallLimit || size.z < SmallLimit)
            && (forall i, j :: 0 <= i < j < |issues| ==> IssueRank(issues[i]) < IssueRank(issues[j]))
  {
    assert FarPivotIssue != LargeSizeIssue && FarPivotIssue != SmallSizeIssue && LargeSizeIssue != SmallSizeIssue;
  }

  function DccDescription(m: StaticMesh, issues: seq<string>): string
  {
    "Static mesh " + m.name + " has unapplied DCC transformations: " + Join(issues, ", ") + ". These should be applied before importing."
  }

  /** FixTransformPivot: marks the package dirty and reports failure. */
  function FixTransformPivotSucceeds(m: StaticMesh): (ok: bool)
    ensures !ok
  {
    false
  }

  // ---------------------------------------------------------------------------
  // Check

  /**
   * The outcome Check specifies: nothing without a mesh or profile; else the
   * pivot result and the DCC result, each when its setting is on and its test
   * fails, both with the pivot severity and without a fix. The description
   * quotes pivotDistance, FVector::Dist of the box centre from the origin, which
   * the caller supplies since square roots are not modelled.
   */
  function Evaluate(asset: Option<StaticMesh>, profile: Option<ProfileData>, q: QuickSettings, pivotDistance: real): Outcome
  {
    if asset.None? || profile.None? then NoIssue
    else
      var m := asset.value;
      var pivot :=
        if q.enableTransformPivot && HasProblematicPivot(m, q.transformPivotWarningDistance, q.transformPivotErrorDistance) then
          [UnlocatedIssue(m, q.transformPivotSeverity, PivotRuleId, PivotDescription(m, pivotDistance), None)]
        else [];
      var issues := DccIssues(m);
      var dcc :=
        if q.enableAssetTypeSpecificPivotRules && |issues| > 0 then
          [UnlocatedIssue(m, q.transformPivotSeverity, DccRuleId, DccDescription(m, issues), None)]
        else [];
      Outcome(|pivot + dcc| > 0, pivot + dcc)
  }

  method Check(asset: Option<StaticMesh>, profile: Option<ProfileData>, q: QuickSettings, pivotDistance: real) returns (o: Outcome)
    ensures o == Evaluate(asset, profile, q, pivotDistance)
  {
    hide PivotDescription, DccDescription;
    if asset.None? || profile.None? {
      return NoIssue;
    }
    var m := asset.value;
    var results: seq<AnalysisResult> := [];
    var hasIssues := false;
    if q.enableTransformPivot && HasProblematicPivot(m, q.transformPivotWarningDistance, q.transformPivotErrorDistance) {
      results := results + [UnlocatedIssue(m, q.transformPivotSeverity, PivotRuleId, PivotDescription(m, pivotDistance), None)];
      hasIssues := true;
    }
    if q.enableAssetTypeSpecificPivotRules {
      var found, issues := HasUnappliedDccTransformations(m);
      if found {
        results := results + [UnlocatedIssue(m, q.transformPivotSeverity, DccRuleId, DccDescription(m, issues), None)];
        hasIssues := true;
      }
    }
    return Outcome(hasIssues, results);
  }

  /**
   * With a profile, and d the distance of the box centre from the origin, Check
   * raises the pivot result exactly when d exceeds the warning or the error
   * distance, then the DCC result exactly when a DCC test fails; it returns
   * true exactly when it appended one, and no result carries a fix.
   */
  lemma EvaluateReports(m: StaticMesh, profile: ProfileData, q: QuickSettings, d: real)
    requires d >= 0.0 && d * d == DistSquared(BoxCenter(m.boundingBox), Origin)
    ensures var o := Evaluate(Some(m), Some(profile), q, d);
            var pivot := q.enableTransformPivot && (d > q.transformPivotWarningDistance || d > q.transformPivotErrorDistance);
            var dcc := q.enableAssetTypeSpecificPivotRules && |DccIssues(m)| > 0;
            && (o.found <==> pivot || dcc)
            && |o.results| == (if pivot then 1 else 0) + (if dcc then 1 else 0)
            && (pivot ==> o.results[0].ruleId == PivotRuleId)
            && (dcc ==> o.results[|o.results| - 1].ruleId == DccRuleId)
            && (forall k :: 0 <= k < |o.results| ==>
                  && o.results[k].asset == AssetOf(m) && o.results[k].filePath == "" && o.results[k].severity == q.transformPivotSeverity
                  && o.results[k].fix.None?)
  {
    hide PivotDescription, DccDescription;
    PivotMeansDistance(m, q.transformPivotWarningDistance, q.transformPivotErrorDistance, d);
  }

  /** Nothing is reported without a mesh or profile, or with both checks switched off. */
  lemma EvaluateQuiet(asset: Option<StaticMesh>, profile: Option<ProfileData>, q: QuickSettings, pivotDistance: real)
    requires asset.None? || profile.None? || (!q.enableTransformPivot && !q.enableAssetTypeSpecificPivotRules)
    ensures Evaluate(asset, profile, q, pivotDistance) == NoIssue
  {
  }
}
