/**
 * FStaticMeshLODMissingRule: a mesh must have at least MinLODs_SM LODs. The fix
 * appends up to three source models whose reduction settings either follow the
 * LOD quality settings (a chain of per-LOD reductions from LOD0) or halve the
 * triangle budget at every level.
 */
module LodMissing {
  import opened Wrappers
  import opened Numeric
  import opened Text
  import opened Results
  import opened Profile
  import opened Mesh
  import opened Rule
  import opened Settings

  const RuleId := "SM_LODMissing"

  /** At most this many LODs are generated by one fix. */
  const MaxGeneratedLods := 3

  /** The smallest triangle count a generated LOD is planned with. */
  const MinTargetTriangles := 4

  /** MIN_LOD_REDUCTION_CLAMP and MAX_LOD_REDUCTION_CLAMP: the bounds of a planned fraction of LOD0. */
  const MinFraction := 0.01
  const MaxFraction := 1.0

  // ---------------------------------------------------------------------------
  // Check

  /** The MinLODs_SM parameter, "3" when absent. */
  function MinRequiredLods(rules: seq<RuleConfig>): int
  {
    Atoi(GetRuleParameter(rules, RuleId, "MinLODs_SM", "3"))
  }

  /**
   * Error when only the base LOD exists or fewer than half the required LODs
   * (half rounded down) exist; Warning otherwise. A deficient count makes the
   * minimum positive, so the source's truncating division is Dafny's.
   */
  function SeverityFor(count: nat, min: int): (s: Severity)
    requires count < min
    ensures s == Error <==> count == 1 || 2 * (count + 1) <= min
    ensures s == Warning <==> !(count == 1 || 2 * (count + 1) <= min)
  {
    if count == 1 then Error
    else if count < min / 2 then Error
    else Warning
  }

  /** CanGenerateLODs: LOD0 exists with vertices and a reduction interface is available. */
  predicate CanGenerateLods(m: StaticMesh, host: Host)
  {
    HasBaseVertices(m) && host.meshReductionAvailable
  }

  function Description(m: StaticMesh, min: int): string
  {
    "Static Mesh '" + m.name + "' has " + IntToString(|m.lods|) + " LOD(s) but requires "
    + IntToString(min) + " LOD(s) for proper optimization"
  }

  /**
   * The outcome Check specifies: nothing without a mesh or profile or for a
   * disabled rule; otherwise one result exactly when the mesh has fewer LODs than
   * required, with the generation fix when the mesh can be reduced.
   */
  function Evaluate(asset: Option<StaticMesh>, profile: Option<ProfileData>, host: Host): Outcome
  {
    if asset.None? || profile.None? || !IsRuleEnabled(profile.value.rules, RuleId) then NoIssue
    else
      var m := asset.value;
      var min := MinRequiredLods(profile.value.rules);
      if |m.lods| >= min then NoIssue
      else
        var fix := if CanGenerateLods(m, host) then Some(FixCommand.GenerateLods(min)) else None;
        Outcome(true, [MeshIssue(m, SeverityFor(|m.lods|, min), RuleId, Description(m, min), fix)])
  }

  /**
   * With the rule enabled, Check reports exactly when the LOD count is below the
   * minimum, appending one result whose fix, bound exactly when the mesh can be
   * reduced, generates LODs up to that minimum.
   */
  lemma EvaluateReports(m: StaticMesh, profile: ProfileData, host: Host)
    requires IsRuleEnabled(profile.rules, RuleId)
    ensures var o := Evaluate(Some(m), Some(profile), host);
            var min := MinRequiredLods(profile.rules);
            && (o.found <==> |m.lods| < min)
            && |o.results| == (if o.found then 1 else 0)
            && (o.found ==> o.results[0].ruleId == RuleId && o.results[0].asset == AssetOf(m)
                            && (o.results[0].severity == Error <==> |m.lods| == 1 || 2 * (|m.lods| + 1) <= min)
                            && (o.results[0].severity == Warning <==> !(|m.lods| == 1 || 2 * (|m.lods| + 1) <= min))
                            && (o.results[0].fix.Some? <==> CanGenerateLods(m, host))
                            && (o.results[0].fix.Some? ==> o.results[0].fix.value == FixCommand.GenerateLods(min)))
  {
    hide Description;
  }

  /** Nothing is reported without a mesh or profile or for a disabled rule. */
  lemma EvaluateQuiet(asset: Option<StaticMesh>, profile: Option<ProfileData>, host: Host)
    requires asset.None? || profile.None? || !IsRuleEnabled(profile.value.rules, RuleId)
    ensures Evaluate(asset, profile, host) == NoIssue
  {
  }

  /** Without a config for the rule three LODs are required; after a sync the quick setting is. */
  lemma MinimumSources(rules: seq<RuleConfig>, q: QuickSettings)
    ensures FindRuleConfig(rules, RuleId).None? ==> MinRequiredLods(rules) == 3
    ensures MinRequiredLods(SyncedRules(rules, q)) == q.minRequiredLods
  {
    AtoiOfIntToString(3);
    SyncedMinLods(rules, q);
  }

  // ---------------------------------------------------------------------------
  // Planned reductions

  /** The reduction, in percent, planned from LOD lod - 1 to LOD lod: the configured one, else the minimum. */
  function LodReduction(q: QuickSettings, lod: nat): (r: real)
    requires lod >= 1
    ensures lod - 1 < |q.defaultLodReductionPercentages| ==> r == q.defaultLodReductionPercentages[lod - 1]
    ensures lod - 1 >= |q.defaultLodReductionPercentages| ==> r == q.minLodReductionPercentage
  {
    if lod - 1 < |q.defaultLodReductionPercentages| then q.defaultLodReductionPercentages[lod - 1]
    else q.minLodReductionPercentage
  }

  /** A triangle count reduced by r percent and rounded. */
  function Reduced(triangles: int, r: real): int
  {
    RoundToInt(triangles as real * (100.0 - r) / 100.0)
  }

  /** The triangle count LOD k is expected to have when LOD0 has base: the reductions applied in turn. */
  function ChainedTriangles(base: nat, q: QuickSettings, k: nat): int
  {
    if k == 0 then base else Reduced(ChainedTriangles(base, q, k - 1), LodReduction(q, k))
  }

  /**
   * The previous LOD's triangle count that LOD lod is planned from: the actual count
   * when that LOD exists, otherwise the chained expectation from LOD0.
   */
  function PreviousTriangles(m: StaticMesh, q: QuickSettings, lod: nat): int
    requires |m.lods| > 0 && lod >= 1
  {
    if lod - 1 < |m.lods| then m.lods[lod - 1].triangles else ChainedTriangles(m.lods[0].triangles, q, lod - 1)
  }

  /** The planned triangle count of LOD lod in quality mode: the reduced previous count, at least 4. */
  function QualityTarget(m: StaticMesh, q: QuickSettings, lod: nat): (t: int)
    requires |m.lods| > 0 && lod >= 1
    ensures t >= MinTargetTriangles
    ensures t >= Reduced(PreviousTriangles(m, q, lod), LodReduction(q, lod))
  {
    MaxInt(Reduced(PreviousTriangles(m, q, lod), LodReduction(q, lod)), MinTargetTriangles)
  }

  /**
   * The fraction of LOD0 written to PercentTriangles and PercentVertices for LOD
   * lod: the quality target over LOD0's count, or 0.5^lod in standard mode, then
   * clamped to [0.01, 1.0]. A zero LOD0 count divides a positive target by zero,
   * an infinity the clamp turns into 1.0.
   */
  function PlannedFraction(m: StaticMesh, q: QuickSettings, lod: nat): (f: real)
    requires |m.lods| > 0 && lod >= 1
    ensures MinFraction <= f <= MaxFraction
  {
    var base := m.lods[0].triangles;
    var raw :=
      if q.followLodQualityWhenCreating then
        (if base == 0 then MaxFraction else QualityTarget(m, q, lod) as real / base as real)
      else Pow(0.5, lod);
    ClampReal(raw, MinFraction, MaxFraction)
  }

  /** The source model AddSourceModel creates for LOD lod, with its reduction settings filled in. */
  function PlannedModel(m: StaticMesh, q: QuickSettings, lod: nat): (s: SourceModel)
    requires |m.lods| > 0 && lod >= 1
    ensures s.reduction.percentTriangles == s.reduction.percentVertices == PlannedFraction(m, q, lod)
    ensures s.reduction.baseLodModel == 0
    ensures s.build == DefaultBuildSettings
  {
    var f := PlannedFraction(m, q, lod);
    SourceModel(DefaultBuildSettings, ReductionSettings(f, f, 0))
  }

  /** The n source models appended for LODs start, start + 1, ..., start + n - 1. */
  function PlannedModels(m: StaticMesh, q: QuickSettings, start: nat, n: nat): (s: seq<SourceModel>)
    requires |m.lods| > 0 && start >= 1
  {
    if n == 0 then [] else PlannedModels(m, q, start, n - 1) + [PlannedModel(m, q, start + n - 1)]
  }

  /** The k-th appended model is the one planned for LOD start + k. */
  lemma {:induction false} PlannedModelsAt(m: StaticMesh, q: QuickSettings, start: nat, n: nat)
    requires |m.lods| > 0 && start >= 1
    ensures |PlannedModels(m, q, start, n)| == n
    ensures forall k :: 0 <= k < n ==> PlannedModels(m, q, start, n)[k] == PlannedModel(m, q, start + k)
  {
    if n > 0 {
      PlannedModelsAt(m, q, start, n - 1);
    }
  }

  // ---------------------------------------------------------------------------
  // GenerateLODs

  /** The previous-LOD loop for a LOD beyond the existing ones: the chained expectation. */
  method ChainFromBase(base: nat, q: QuickSettings, lod: nat) returns (previous: int)
    requires lod >= 1
    ensures previous == ChainedTriangles(base, q, lod - 1)
  {
    previous := base;
    var i := 1;
    while i < lod
      invariant 1 <= i <= lod
      invariant previous == ChainedTriangles(base, q, i - 1)
    {
      previous := Reduced(previous, LodReduction(q, i));
      i := i + 1;
    }
  }

  /** The percentage computation in the body of GenerateLODs' loop, for LOD lod. */
  method TargetPercentage(m: StaticMesh, q: QuickSettings, lod: nat) returns (f: real)
    requires |m.lods| > 0 && lod >= 1
    ensures f == PlannedFraction(m, q, lod)
  {
    var base := m.lods[0].triangles;
    var raw: real;
    if q.followLodQualityWhenCreating {
      var reduction := LodReduction(q, lod);
      var previous: int;
      if lod - 1 < |m.lods| {
        previous := m.lods[lod - 1].triangles;
      } else {
        previous := ChainFromBase(base, q, lod);
      }
      var target := MaxInt(Reduced(previous, reduction), MinTargetTriangles);
      raw := if base == 0 then MaxFraction else target as real / base as real;
    } else {
      raw := Pow(0.5, lod);
    }
    f := ClampReal(raw, MinFraction, MaxFraction);
  }

  /**
   * GenerateLODs: nothing when the mesh already has the target count or no
   * reduction interface exists; otherwise one new source model for each of the
   * next min(target - current, 3) LODs, appended in LOD order. LOD0 must exist,
   * since the loop reads its triangle count.
   */
  method GenerateLods(m: StaticMesh, target: int, q: QuickSettings, host: Host) returns (r: StaticMesh)
    requires |m.lods| > 0 || |m.lods| >= target || !host.meshReductionAvailable
    ensures |m.lods| >= target || !host.meshReductionAvailable ==> r == m
    ensures |m.lods| < target && host.meshReductionAvailable ==>
              r == m.(sourceModels := m.sourceModels + PlannedModels(m, q, |m.lods|, MinInt(target - |m.lods|, MaxGeneratedLods)))
  {
    var current := |m.lods|;
    if current >= target || !host.meshReductionAvailable {
      return m;
    }
    var count := MinInt(target - current, MaxGeneratedLods);
    var models := m.sourceModels;
    var lod := current;
    while lod < current + count
      invariant current <= lod <= current + count
      invariant models == m.sourceModels + PlannedModels(m, q, current, lod - current)
    {
      var f := TargetPercentage(m, q, lod);
      models := models + [SourceModel(DefaultBuildSettings, ReductionSettings(f, f, 0))];
      lod := lod + 1;
    }
    r := m.(sourceModels := models);
  }

  /**
   * What a fix adds: between one and three source models (exactly
   * min(target - current, 3)), each reducing from LOD0 with equal triangle and
   * vertex fractions in [0.01, 1.0]; the existing source models stay in front.
   */
  lemma GeneratedModels(m: StaticMesh, q: QuickSettings, target: int)
    requires |m.lods| > 0 && |m.lods| < target
    ensures var added := PlannedModels(m, q, |m.lods|, MinInt(target - |m.lods|, MaxGeneratedLods));
            && 1 <= |added| <= MaxGeneratedLods
            && |added| == MinInt(target - |m.lods|, MaxGeneratedLods)
            && forall k :: 0 <= k < |added| ==>
                 added[k].reduction.baseLodModel == 0
                 && added[k].reduction.percentTriangles == added[k].reduction.percentVertices
                 && MinFraction <= added[k].reduction.percentTriangles <= MaxFraction
  {
    PlannedModelsAt(m, q, |m.lods|, MinInt(target - |m.lods|, MaxGeneratedLods));
  }

  /** 0.5^n is at least 1/64 up to n = 6. */
  lemma {:induction false} HalfPowerFloor(n: nat)
    requires n <= 6
    ensures Pow(0.5, n) >= 0.015625
    decreases 6 - n
  {
    if n == 6 {
      assert Pow(0.5, 6) == 0.015625;
    } else {
      HalfPowerFloor(n + 1);
      PowInUnitInterval(0.5, n);
    }
  }

  /** 0.5^n is at most 1/128 from n = 7 on. */
  lemma {:induction false} HalfPowerCeiling(n: nat)
    requires n >= 7
    ensures Pow(0.5, n) <= 0.0078125
  {
    if n == 7 {
      assert Pow(0.5, 7) == 0.0078125;
    } else {
      HalfPowerCeiling(n - 1);
      PowInUnitInterval(0.5, n - 1);
    }
  }

  /**
   * In standard mode each generated LOD keeps half of the previous one's fraction
   * of LOD0 up to LOD6, and from LOD7 on the clamp holds every fraction at 1%.
   */
  lemma StandardModeHalves(m: StaticMesh, q: QuickSettings, lod: nat)
    requires |m.lods| > 0 && lod >= 1 && !q.followLodQualityWhenCreating
    ensures lod <= 5 ==> PlannedFraction(m, q, lod + 1) * 2.0 == PlannedFraction(m, q, lod)
    ensures lod >= 7 ==> PlannedFraction(m, q, lod) == MinFraction
  {
    if lod <= 5 {
      HalfPowerFloor(lod + 1);
      HalfPowerFloor(lod);
      PowInUnitInterval(0.5, lod);
      PowInUnitInterval(0.5, lod + 1);
    } else if lod >= 7 {
      HalfPowerCeiling(lod);
    }
  }

  /**
   * In quality mode a reduction between 0 and 100 percent never plans more
   * triangles than the previous LOD has, once that has at least 4.
   */
  lemma QualityTargetNotAbovePrevious(m: StaticMesh, q: QuickSettings, lod: nat)
    requires |m.lods| > 0 && lod >= 1
    requires 0.0 <= LodReduction(q, lod) <= 100.0 && PreviousTriangles(m, q, lod) >= MinTargetTriangles
    ensures QualityTarget(m, q, lod) <= PreviousTriangles(m, q, lod)
  {
    var p := PreviousTriangles(m, q, lod) as real;
    var r := LodReduction(q, lod);
    var scaled := p * (100.0 - r) / 100.0;
    assert p - scaled == p * r / 100.0;
    MulNonneg(p, r);
  }
}
