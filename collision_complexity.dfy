/**
 * FStaticMeshCollisionComplexityRule: a body setup with more than ten collision
 * primitives is complex; the warning and error thresholds decide whether it is
 * reported. The simplification fix itself is engine work and is not modelled.
 */
module CollisionComplexity {
  import opened Wrappers
  import opened Text
  import opened Results
  import opened Mesh
  import opened Rule
  import opened Settings

  const RuleId := "SM_CollisionComplexity"

  /** More primitives than this make collision complex on their own. */
  const ComplexPrimitiveCount := 10

  /** The use-complex-as-simple detection the rule performs: it always reports false. */
  const UseComplexAsSimple := false

  /** The AggGeom element count, 0 without a body setup. */
  function PrimitiveCount(m: StaticMesh): nat
  {
    if m.bodySetup.Some? then m.bodySetup.value.elementCount else 0
  }

  /** HasComplexCollision: a body setup with primitives, more than ten of them or complex-as-simple. */
  predicate HasComplexCollision(m: StaticMesh)
  {
    m.bodySetup.Some? && PrimitiveCount(m) > 0 && (PrimitiveCount(m) > ComplexPrimitiveCount || UseComplexAsSimple)
  }

  /** Error from the error threshold on, Warning from the warning threshold on, else Info; complex-as-simple may force Error. */
  function ComplexitySeverity(count: nat, q: QuickSettings, useComplex: bool): Severity
  {
    var s := if count >= q.collisionComplexityErrorThreshold then Error
             else if count >= q.collisionComplexityWarningThreshold then Warning
             else Info;
    if useComplex && q.treatUseComplexAsSimpleAsError then Error else s
  }

  /** LOD data exists and the body setup has at least one primitive. */
  predicate CanSafelySimplifyCollision(m: StaticMesh)
  {
    |m.lods| > 0 && m.bodySetup.Some? && m.bodySetup.value.elementCount > 0
  }

  function Description(m: StaticMesh, count: nat, useComplex: bool, severity: Severity): string
  {
    SeverityTag(severity)
    + ": Static mesh '" + m.name + "' has overly complex collision geometry. "
    + "Collision has " + IntToString(count) + " primitives"
    + (if useComplex then " and uses complex collision as simple" else "") + ". "
    + "Complex collision can cause performance issues, physics simulation problems, and memory overhead. "
    + "Simplify collision geometry to improve performance and stability."
  }

  /**
   * The outcome Check specifies: nothing without a mesh or with the rule switched
   * off; for complex collision one result when the severity is not Info, with
   * the simplification fix when allowed and safe.
   */
  function Evaluate(asset: Option<StaticMesh>, q: QuickSettings): Outcome
  {
    if asset.None? || !q.enableCollisionComplexity then NoIssue
    else
      var m := asset.value;
      var count := PrimitiveCount(m);
      if !HasComplexCollision(m) then NoIssue
      else
        var severity := ComplexitySeverity(count, q, UseComplexAsSimple);
        if severity == Info then NoIssue
        else
          var fix := if q.allowCollisionComplexityAutoFix && CanSafelySimplifyCollision(m) then Some(SimplifyCollision) else None;
          Outcome(true, [MeshIssue(m, severity, RuleId, Description(m, count, UseComplexAsSimple, severity), fix)])
  }

  /**
   * With the rule switched on, Check reports exactly when the body setup has more
   * than ten primitives and at least one threshold is reached: so 11 up to the
   * warning threshold less one primitives raise nothing. The result is Error
   * exactly from the error threshold on, and the fix is bound exactly when allowed
   * and LOD data exists.
   */
  lemma EvaluateReports(m: StaticMesh, q: QuickSettings)
    requires q.enableCollisionComplexity
    ensures var o := Evaluate(Some(m), q);
            var count := PrimitiveCount(m);
            && (o.found <==> m.bodySetup.Some? && count > 10
                             && (count >= q.collisionComplexityWarningThreshold || count >= q.collisionComplexityErrorThreshold))
            && |o.results| == (if o.found then 1 else 0)
            && (o.found ==> && o.results[0].ruleId == RuleId && o.results[0].asset == AssetOf(m)
                            && (o.results[0].severity == Error <==> count >= q.collisionComplexityErrorThreshold)
                            && (o.results[0].severity == Warning <==> count < q.collisionComplexityErrorThreshold)
                            && (o.results[0].fix.Some? <==> q.allowCollisionComplexityAutoFix && |m.lods| > 0)
                            && (o.results[0].fix.Some? ==> o.results[0].fix.value == SimplifyCollision))
  {
    hide Description;
  }

  /** Nothing is reported without a mesh, with the rule switched off, or with at most ten primitives. */
  lemma EvaluateQuiet(asset: Option<StaticMesh>, q: QuickSettings)
    requires asset.None? || !q.enableCollisionComplexity || PrimitiveCount(asset.value) <= 10
    ensures Evaluate(asset, q) == NoIssue
  {
  }
}
