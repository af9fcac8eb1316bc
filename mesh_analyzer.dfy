/**
 * FStaticMeshAnalyzer: the fixed, ordered list of the sixteen static-mesh rules
 * and AnalyzeAsset, which either reports a load failure or runs every rule in
 * list order, each appending its results to OutResults.
 */
module StaticMeshAnalyzer {
  import opened Wrappers
  import opened Results
  import opened Profile
  import opened Mesh
  import opened Rule
  import opened Settings
  import Naming
  import LodMissing
  import LodPolyReduction
  import LightmapUv
  import UvOverlapping
  import TriangleCount
  import DegenerateFaces
  import CollisionMissing
  import CollisionComplexity
  import Nanite
  import MaterialSlot
  import VertexColor
  import Transform
  import Scaling
  import LightmapResolution
  import SocketNaming

  /** The rule classes the analyzer instantiates. */
  datatype RuleKind =
    | NamingRule
    | LodMissingRule
    | LodPolyReductionRule
    | LightmapUvMissingRule
    | UvOverlappingRule
    | TriangleCountRule
    | DegenerateFacesRule
    | CollisionMissingRule
    | CollisionComplexityRule
    | NaniteSuitabilityRule
    | MaterialSlotRule
    | VertexColorMissingRule
    | TransformRule
    | ScalingRule
    | LightmapResolutionRule
    | SocketNamingRule

  /** InitializeRules: the order in which the rules are added, and so run. */
  const AllRules: seq<RuleKind> := [
    NamingRule, LodMissingRule, LodPolyReductionRule, LightmapUvMissingRule,
    UvOverlappingRule, TriangleCountRule, DegenerateFacesRule, CollisionMissingRule,
    CollisionComplexityRule, NaniteSuitabilityRule, MaterialSlotRule, VertexColorMissingRule,
    TransformRule, ScalingRule, LightmapResolutionRule, SocketNamingRule
  ]

  /**
   * What a rule's Check sees besides the mesh: the profile, the plugin
   * settings, the editor's mesh-reduction support, and the distance of the
   * bounding-box centre from the pivot that the transform rule quotes.
   */
  datatype Context = Context(profile: ProfileData, q: QuickSettings, host: Host, pivotDistance: real)

  /** IAssetCheckRule::Check of one rule on a loaded mesh. */
  function RunRule(kind: RuleKind, m: StaticMesh, c: Context): Outcome
  {
    var asset := Some(m);
    var profile := Some(c.profile);
    match kind
    case NamingRule => Naming.Evaluate(asset, profile)
    case LodMissingRule => LodMissing.Evaluate(asset, profile, c.host)
    case LodPolyReductionRule => LodPolyReduction.Evaluate(asset, profile, c.host)
    case LightmapUvMissingRule => LightmapUv.Evaluate(asset, profile)
    case UvOverlappingRule => UvOverlapping.Evaluate(asset, profile)
    case TriangleCountRule => TriangleCount.Evaluate(asset, profile, c.q)
    case DegenerateFacesRule => DegenerateFaces.Evaluate(asset, c.q)
    case CollisionMissingRule => CollisionMissing.Evaluate(asset, c.q)
    case CollisionComplexityRule => CollisionComplexity.Evaluate(asset, c.q)
    case NaniteSuitabilityRule => Nanite.Evaluate(asset, c.q)
    case MaterialSlotRule => MaterialSlot.Evaluate(asset, c.q)
    case VertexColorMissingRule => VertexColor.Evaluate(asset, c.q)
    case TransformRule => Transform.Evaluate(asset, profile, c.q, c.pivotDistance)
    case ScalingRule => Scaling.Evaluate(asset, profile, c.q)
    case LightmapResolutionRule => LightmapResolution.Evaluate(asset, c.q)
    case SocketNamingRule => SocketNaming.Evaluate(asset, c.q)
  }

  /** The results a list of rules appends, run in list order. */
  function RunAll(rules: seq<RuleKind>, m: StaticMesh, c: Context): seq<AnalysisResult>
    decreases |rules|
  {
    if |rules| == 0 then []
    else RunAll(rules[..|rules| - 1], m, c) + RunRule(rules[|rules| - 1], m, c).results
  }

  /** Running two lists of rules one after the other appends their results one after the other. */
  lemma {:induction false} RunAllAppend(a: seq<RuleKind>, b: seq<RuleKind>, m: StaticMesh, c: Context)
    ensures RunAll(a + b, m, c) == RunAll(a, m, c) + RunAll(b, m, c)
    decreases |b|
  {
    hide RunRule;
    if |b| == 0 {
      assert a + b == a;
    } else {
      var b' := b[..|b| - 1];
      assert (a + b)[..|a + b| - 1] == a + b';
      RunAllAppend(a, b', m, c);
    }
  }

  /**
   * Each rule of the list runs exactly once, in list order: the results are
   * those of the rules before position k, then those of rule k, then those of
   * the rules after it.
   */
  lemma RunAllInOrder(rules: seq<RuleKind>, k: nat, m: StaticMesh, c: Context)
    requires k < |rules|
    ensures RunAll(rules, m, c) == RunAll(rules[..k], m, c) + RunRule(rules[k], m, c).results + RunAll(rules[k + 1..], m, c)
  {
    hide RunRule;
    assert rules == rules[..k] + [rules[k]] + rules[k + 1..];
    RunAllAppend(rules[..k] + [rules[k]], rules[k + 1..], m, c);
    RunAllAppend(rules[..k], [rules[k]], m, c);
    assert RunAll([rules[k]], m, c) == RunAll([], m, c) + RunRule(rules[k], m, c).results;
  }

  /** The name under which FAssetData(LoadFailure) is reported. */
  const LoadFailureRuleId := "SM_AssetLoading"

  /** The single result for an asset that does not load as a static mesh. */
  function LoadFailure(asset: AssetData): (r: AnalysisResult)
    ensures r.asset == asset && r.severity == Error && r.ruleId == LoadFailureRuleId && r.fix.None?
    ensures r.filePath == asset.packageName
  {
    AnalysisResult(asset, Error, LoadFailureRuleId, "Failed to load StaticMesh asset: " + asset.assetName, asset.packageName, None)
  }

  /**
   * What AnalyzeAsset appends: nothing for an invalid asset or without a
   * profile; the load failure when the asset does not load as a static mesh;
   * otherwise the results of the rules in list order.
   */
  function AnalysisResults(rules: seq<RuleKind>, asset: AssetData, profile: Option<ProfileData>,
                           loaded: Option<StaticMesh>, q: QuickSettings, host: Host, pivotDistance: real): seq<AnalysisResult>
  {
    if !asset.valid || profile.None? then []
    else if loaded.None? then [LoadFailure(asset)]
    else RunAll(rules, loaded.value, Context(profile.value, q, host, pivotDistance))
  }

  /**
   * A load failure appends exactly one result, an Error on the asset under
   * SM_AssetLoading, and no rule runs; an invalid asset or a missing profile
   * appends nothing.
   */
  lemma LoadOutcomes(rules: seq<RuleKind>, asset: AssetData, profile: Option<ProfileData>,
                     loaded: Option<StaticMesh>, q: QuickSettings, host: Host, pivotDistance: real)
    ensures var r := AnalysisResults(rules, asset, profile, loaded, q, host, pivotDistance);
            && (!asset.valid || profile.None? ==> r == [])
            && (asset.valid && profile.Some? && loaded.None? ==>
                  |r| == 1 && r[0].asset == asset && r[0].severity == Error && r[0].ruleId == LoadFailureRuleId)
  {
    hide RunRule;
  }

  class MeshAnalyzer {
    /** StaticMeshRules. */
    var rules: seq<RuleKind>

    /** The constructor's InitializeRules: the sixteen rules, Naming first and SocketNaming last. */
    constructor()
      ensures rules == AllRules
      ensures |rules| == 16 && rules[0] == NamingRule && rules[15] == SocketNamingRule
    {
      rules := [];
      rules := rules + [NamingRule];
      rules := rules + [LodMissingRule];
      rules := rules + [LodPolyReductionRule];
      rules := rules + [LightmapUvMissingRule];
      rules := rules + [UvOverlappingRule];
      rules := rules + [TriangleCountRule];
      rules := rules + [DegenerateFacesRule];
      rules := rules + [CollisionMissingRule];
      rules := rules + [CollisionComplexityRule];
      rules := rules + [NaniteSuitabilityRule];
      rules := rules + [MaterialSlotRule];
      rules := rules + [VertexColorMissingRule];
      rules := rules + [TransformRule];
      rules := rules + [ScalingRule];
      rules := rules + [LightmapResolutionRule];
      rules := rules + [SocketNamingRule];
    }

    /**
     * AnalyzeAsset: OutResults keeps its entries as a prefix and gains the
     * results AnalysisResults describes. loaded is the asset after GetAsset
     * and the cast to UStaticMesh, None when either fails.
     */
    method AnalyzeAsset(asset: AssetData, profile: Option<ProfileData>, loaded: Option<StaticMesh>,
                        q: QuickSettings, host: Host, pivotDistance: real, outResults: seq<AnalysisResult>)
      returns (results: seq<AnalysisResult>)
      ensures results == outResults + AnalysisResults(rules, asset, profile, loaded, q, host, pivotDistance)
    {
      hide RunRule;
      results := outResults;
      if !asset.valid {
        return;
      }
      if profile.None? {
        return;
      }
      if loaded.None? {
        results := results + [LoadFailure(asset)];
        return;
      }
      var m := loaded.value;
      var c := Context(profile.value, q, host, pivotDistance);
      var i := 0;
      while i < |rules|
        invariant 0 <= i <= |rules|
        invariant results == outResults + RunAll(rules[..i], m, c)
      {
        var o := RunRule(rules[i], m, c);
        assert rules[..i + 1][..i] == rules[..i];
        results := results + o.results;
        i := i + 1;
      }
      assert rules[..i] == rules;
    }
  }
}
