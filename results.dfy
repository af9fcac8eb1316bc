/**
 * The analysis result record every rule produces: a severity, the rule that
 * raised it, a description, the asset and its package path, and an optional fix.
 */
module Results {
  import opened Wrappers
  import opened Text

  /** EAssetIssueSeverity; the declaration order gives the ordinals 0..3. */
  datatype Severity = Critical | Error | Warning | Info

  /**
   * The underlying uint8 value the source compares with < and >: Critical 0,
   * Error 1, Warning 2, Info 3, so a larger ordinal is a less severe issue and
   * no severity has a larger ordinal than Info.
   */
  function Ordinal(s: Severity): (n: nat)
    ensures n <= 3
    ensures n == 0 <==> s == Critical
    ensures n == 1 <==> s == Error
    ensures n == 2 <==> s == Warning
    ensures n == 3 <==> s == Info
  {
    match s
    case Critical => 0
    case Error => 1
    case Warning => 2
    case Info => 3
  }

  /** The asset reference (FAssetData) a result points at. */
  datatype AssetData = AssetData(valid: bool, packageName: string, assetName: string)

  /** A default-constructed FAssetData is not valid. */
  const NoAsset := AssetData(false, "", "")

  /** ELightmapUVChannelStrategy, declared with the plugin settings. */
  datatype ChannelStrategy = NextAvailable | PreferredChannel | ForceChannel1

  /**
   * The action a result's FixAction delegate would run, as a tagged command with
   * the values the source's lambda captures.
   */
  datatype FixCommand =
    | FixAllLodReductions(problematicLods: seq<int>, minReduction: real)
    | GenerateLods(targetLodCount: int)
    | RenameAsset(newName: string)
    | EnableLightmapUvGeneration(strategy: ChannelStrategy, preferredChannel: int)
    | RemoveMaterialSlots(slotIndices: seq<int>)
    | OptimizeNanite(shouldUseNanite: bool)
    | SimplifyCollision
    | GenerateCollision
    | SetOptimalLightmapResolution(minResolution: int, maxResolution: int)
    | FixSockets(prefix: string)
    | GenerateVertexColors
    | FixZeroScale(axes: seq<string>)

  /** FAssetAnalysisResult; "None" is the name NAME_None, an unbound FixAction is None. */
  datatype AnalysisResult = AnalysisResult(
    asset: AssetData,
    severity: Severity,
    ruleId: string,
    description: string,
    filePath: string,
    fix: Option<FixCommand>)

  /** The default constructor: severity Info, rule NAME_None, no asset, no fix. */
  function DefaultResult(): (r: AnalysisResult)
    ensures r.severity == Info && r.ruleId == NameNone
    ensures r.fix == None && !r.asset.valid
    ensures r.description == "" && r.filePath == ""
  {
    AnalysisResult(NoAsset, Info, NameNone, "", "", None)
  }

  /** The four-argument constructor: FilePath is the package name only for a valid asset. */
  function NewResult(asset: AssetData, severity: Severity, ruleId: string, description: string): (r: AnalysisResult)
    ensures r.asset == asset && r.severity == severity && r.ruleId == ruleId && r.description == description
    ensures r.fix == None
    ensures r.filePath == (if asset.valid then asset.packageName else "")
  {
    AnalysisResult(asset, severity, ruleId, description, if asset.valid then asset.packageName else "", None)
  }

  /** A result is fixable exactly when its FixAction is bound. */
  predicate HasFix(r: AnalysisResult) { r.fix.Some? }
}
