/**
 * FStaticMeshCollisionMissingRule: a mesh without a body setup, without collision
 * primitives or with the NoCollision profile is missing collision. The fix creates
 * a body setup with the BlockAll profile and falls back to a box around the mesh.
 */
module CollisionMissing {
  import opened Wrappers
  import opened Text
  import opened Results
  import opened Mesh
  import opened Rule
  import opened Settings

  const RuleId := "SM_CollisionMissing"

  /** UCollisionProfile::NoCollision_ProfileName and BlockAll_ProfileName. */
  const NoCollisionProfile := "NoCollision"
  const BlockAllProfile := "BlockAll"

  /** MAX_TRIANGLE_COUNT_FOR_COLLISION_GENERATION. */
  const MaxTrianglesForCollisionGeneration := 50000

  const AutoFixDisabledNote := " (Auto-fix disabled - check mesh complexity or settings)"

  predicate HasMissingCollision(m: StaticMesh)
  {
    match m.bodySetup
    case None => true
    case Some(b) => b.elementCount == 0 || b.collisionProfile == NoCollisionProfile
  }

  /** LOD data exists and LOD0 has at most 50,000 triangles. */
  predicate CanSafelyGenerateCollision(m: StaticMesh)
  {
    |m.lods| > 0 && m.lods[0].triangles <= MaxTrianglesForCollisionGeneration
  }

  function Description(m: StaticMesh, severity: Severity): string
  {
    SeverityTag(severity) + DescriptionBody(m)
  }

  function DescriptionBody(m: StaticMesh): string
  {
    ": Static mesh '" + m.name + "' is missing collision geometry. "
    + "Missing collision can cause physics issues, navigation problems, and gameplay bugs. "
    + "Generate collision geometry to ensure proper physics simulation and gameplay functionality."
  }

  /** The description names the severity first: CRITICAL exactly for Error, WARNING otherwise. */
  lemma DescriptionSeverity(m: StaticMesh, severity: Severity)
    ensures severity == Error ==> "CRITICAL" <= Description(m, severity)
    ensures severity != Error ==> "WARNING" <= Description(m, severity)
  {
    hide DescriptionBody;
  }

  /**
   * The outcome Check specifies: nothing without a mesh or with the rule switched
   * off; for missing collision one result with the configured severity, with the
   * generation fix when allowed and safe and otherwise a note in the description.
   */
  function Evaluate(asset: Option<StaticMesh>, q: QuickSettings): Outcome
  {
    if asset.None? || !q.enableCollisionMissing then NoIssue
    else
      var m := asset.value;
      if !HasMissingCollision(m) then NoIssue
      else
        var severity := q.collisionMissingSeverity;
        var fixable := q.allowCollisionMissingAutoFix && CanSafelyGenerateCollision(m);
        var description := Description(m, severity) + (if fixable then "" else AutoFixDisabledNote);
        Outcome(true, [MeshIssue(m, severity, RuleId, description, if fixable then Some(GenerateCollision) else None)])
  }

  /**
   * With the rule switched on, Check reports exactly when collision is missing,
   * with the configured severity; the fix is bound exactly when allowed and LOD0
   * exists with at most 50,000 triangles, and otherwise the description ends with
   * the auto-fix note.
   */
  lemma EvaluateReports(m: StaticMesh, q: QuickSettings)
    requires q.enableCollisionMissing
    ensures var o := Evaluate(Some(m), q);
            && (o.found <==> m.bodySetup.None? || m.bodySetup.value.elementCount == 0
                             || m.bodySetup.value.collisionProfile == "NoCollision")
            && |o.results| == (if o.found then 1 else 0)
            && (o.found ==> && o.results[0].ruleId == RuleId && o.results[0].asset == AssetOf(m)
                            && o.results[0].severity == q.collisionMissingSeverity
                            && (o.results[0].fix.Some? <==>
                                  q.allowCollisionMissingAutoFix && |m.lods| > 0 && m.lods[0].triangles <= 50000)
                            && (o.results[0].fix.Some? ==> o.results[0].fix.value == GenerateCollision)
                            && (o.results[0].fix.None? ==>
                                  var d := o.results[0].description;
                                  |d| >= |AutoFixDisabledNote| && d[|d| - |AutoFixDisabledNote|..] == AutoFixDisabledNote))
  {
    hide Description;
  }

  /** Nothing is reported without a mesh, with the rule switched off, or with collision present. */
  lemma EvaluateQuiet(asset: Option<StaticMesh>, q: QuickSettings)
    requires asset.None? || !q.enableCollisionMissing || !HasMissingCollision(asset.value)
    ensures Evaluate(asset, q) == NoIssue
  {
  }

  /**
   * GenerateCollision: the body setup (created when absent) gets the BlockAll
   * profile; cooking leaves `cooked` primitives, the engine's own work passed in.
   * Without any, a box around the mesh bounds is added when LOD data exists.
   * The boolean says whether collision now exists.
   */
  function ApplyGenerateCollision(m: StaticMesh, cooked: nat): (r: (bool, StaticMesh))
    ensures r.1 == m.(bodySetup := r.1.bodySetup)
    ensures r.1.bodySetup.Some? && r.1.bodySetup.value.collisionProfile == BlockAllProfile
    ensures r.0 <==> cooked > 0 || |m.lods| > 0
    ensures r.1.bodySetup.value.elementCount == (if cooked > 0 then cooked else if |m.lods| > 0 then 1 else 0)
  {
    if cooked > 0 then (true, m.(bodySetup := Some(BodySetup(cooked, BlockAllProfile))))
    else if |m.lods| > 0 then (true, m.(bodySetup := Some(BodySetup(1, BlockAllProfile))))
    else (false, m.(bodySetup := Some(BodySetup(0, BlockAllProfile))))
  }

  /**
   * The fix resolves what it is attached for: whenever it is bound, generation
   * succeeds whatever cooking produces, and collision is no longer missing.
   */
  lemma FixResolves(m: StaticMesh, q: QuickSettings, cooked: nat)
    requires q.enableCollisionMissing && Evaluate(Some(m), q).found
    requires Evaluate(Some(m), q).results[0].fix.Some?
    ensures ApplyGenerateCollision(m, cooked).0
    ensures !HasMissingCollision(ApplyGenerateCollision(m, cooked).1)
    ensures Evaluate(Some(ApplyGenerateCollision(m, cooked).1), q) == NoIssue
  {
    hide Description;
  }
}
