/**
 * UPipelineGuardianSettings: the editor's quick settings for every rule, the
 * cached active profile, and the sync that copies the quick settings into the
 * active profile as rule configs.
 */
module Settings {
  import opened Wrappers
  import opened Text
  import opened Results
  import opened Json
  import opened Profile
  import opened Seqs

  /** The quick-settings properties of UPipelineGuardianSettings, one field per property. */
  datatype QuickSettings = QuickSettings(
    masterSwitch: bool,
    enableNaming: bool,
    namingPattern: string,
    enableLodCount: bool,
    minRequiredLods: int,
    enableLodPolyReduction: bool,
    minLodReductionPercentage: real,
    lodReductionWarningThreshold: real,
    lodReductionErrorThreshold: real,
    followLodQualityWhenCreating: bool,
    defaultLodReductionPercentages: seq<real>,
    enableLightmapUv: bool,
    lightmapUvSeverity: Severity,
    requireValidLightmapUvs: bool,
    allowLightmapUvAutoFix: bool,
    lightmapUvChannelStrategy: ChannelStrategy,
    preferredLightmapUvChannel: int,
    enableUvOverlapping: bool,
    uvOverlappingSeverity: Severity,
    checkUvChannel0: bool,
    checkUvChannel1: bool,
    checkUvChannel2: bool,
    checkUvChannel3: bool,
    textureUvOverlapTolerance: real,
    lightmapUvOverlapTolerance: real,
    textureUvOverlapWarningThreshold: real,
    textureUvOverlapErrorThreshold: real,
    lightmapUvOverlapWarningThreshold: real,
    lightmapUvOverlapErrorThreshold: real,
    enableTriangleCount: bool,
    triangleCountSeverity: Severity,
    triangleCountBaseThreshold: int,
    triangleCountWarningPercentage: real,
    triangleCountErrorPercentage: real,
    enableDegenerateFaces: bool,
    degenerateFacesSeverity: Severity,
    degenerateFacesWarningThreshold: real,
    degenerateFacesErrorThreshold: real,
    allowDegenerateFacesAutoFix: bool,
    enableCollisionMissing: bool,
    collisionMissingSeverity: Severity,
    allowCollisionMissingAutoFix: bool,
    enableCollisionComplexity: bool,
    collisionComplexitySeverity: Severity,
    collisionComplexityWarningThreshold: int,
    collisionComplexityErrorThreshold: int,
    treatUseComplexAsSimpleAsError: bool,
    allowCollisionComplexityAutoFix: bool,
    enableNanite: bool,
    naniteSeverity: Severity,
    naniteSuitabilityThreshold: int,
    naniteDisableThreshold: int,
    allowNaniteAutoFix: bool,
    enableMaterialSlot: bool,
    materialSlotSeverity: Severity,
    materialSlotWarningThreshold: int,
    materialSlotErrorThreshold: int,
    allowMaterialSlotAutoFix: bool,
    enableVertexColorMissing: bool,
    vertexColorMissingSeverity: Severity,
    vertexColorRequiredThreshold: int,
    allowVertexColorMissingAutoFix: bool,
    enableVertexColorUnusedChannel: bool,
    vertexColorUnusedChannelSeverity: Severity,
    enableVertexColorChannelValidation: bool,
    requiredVertexColorChannels: string,
    enableTransformPivot: bool,
    transformPivotSeverity: Severity,
    transformPivotWarningDistance: real,
    transformPivotErrorDistance: real,
    enableAssetTypeSpecificPivotRules: bool,
    enableNonUniformScale: bool,
    nonUniformScaleSeverity: Severity,
    nonUniformScaleWarningRatio: real,
    enableZeroScale: bool,
    zeroScaleSeverity: Severity,
    zeroScaleThreshold: real,
    enableLightmapResolution: bool,
    lightmapResolutionSeverity: Severity,
    lightmapResolutionMin: int,
    lightmapResolutionMax: int,
    allowLightmapResolutionAutoFix: bool,
    enableSocketNaming: bool,
    socketNamingSeverity: Severity,
    socketNamingPrefix: string,
    socketTransformWarningDistance: real,
    allowSocketNamingAutoFix: bool)

  /** The values the settings constructor gives every property. */
  function DefaultQuickSettings(): (q: QuickSettings)
    ensures q.masterSwitch && q.enableNaming && q.namingPattern == "SM_*"
    ensures q.minRequiredLods == 3 && q.defaultLodReductionPercentages == [30.0, 50.0, 70.0]
    ensures q.collisionMissingSeverity == Error && q.lightmapUvSeverity == Warning
    ensures !q.allowVertexColorMissingAutoFix && !q.checkUvChannel2 && !q.checkUvChannel3
  {
    QuickSettings(
      true, true, "SM_*", true, 3,
      true, 30.0, 20.0, 10.0, true, [30.0, 50.0, 70.0],
      true, Warning, true, true, NextAvailable, 1,
      true, Warning, true, true, false, false, 0.01, 0.005, 5.0, 15.0, 2.0, 8.0,
      true, Warning, 50000, 20.0, 50.0,
      true, Warning, 1.0, 5.0, true,
      true, Error, true,
      true, Warning, 15, 25, true, true,
      true, Warning, 5000, 1000, true,
      true, Warning, 4, 6, true,
      true, Warning, 1000, false, true, Warning, false, "Mask,Detail",
      true, Warning, 50.0, 200.0, false,
      true, Warning, 2.0, true, Warning, 0.01,
      true, Warning, 4, 16, true,
      true, Warning, "Socket_", 100.0, true)
  }

  // ---------------------------------------------------------------------------
  // Parameter text written by the sync

  function BoolText(b: bool): (s: string)
    ensures s == "true" || s == "false"
    ensures ToBool(s) == b
  {
    if b then "true" else "false"
  }

  /** The severity names the lightmap-UV and UV-overlap configs carry; Critical is written as "Warning". */
  function SeverityName(s: Severity): (t: string)
    ensures s.Error? <==> t == "Error"
    ensures s.Info? <==> t == "Info"
    ensures (s.Warning? || s.Critical?) <==> t == "Warning"
  {
    match s
    case Error => "Error"
    case Info => "Info"
    case _ => "Warning"
  }

  /** The numeric severity the other configs carry: FString::FromInt of the enum's underlying value. */
  function SeverityOrdinalText(s: Severity): string
  {
    match s
    case Critical => "0"
    case Error => "1"
    case Warning => "2"
    case Info => "3"
  }

  /** The numeric severity text is FromInt of the ordinal and parses back to it. */
  lemma SeverityOrdinalTextParses(s: Severity)
    ensures SeverityOrdinalText(s) == IntToString(Ordinal(s))
    ensures Atoi(SeverityOrdinalText(s)) == Ordinal(s)
  {
    AtoiOfIntToString(Ordinal(s));
  }

  function StrategyName(s: ChannelStrategy): string
  {
    match s
    case NextAvailable => "NextAvailable"
    case PreferredChannel => "PreferredChannel"
    case ForceChannel1 => "ForceChannel1"
  }

  // ---------------------------------------------------------------------------
  // The fifteen configs the sync writes, in the order it writes them

  const SyncedRuleIds: seq<string> := [
    "SM_Naming", "SM_LODMissing", "SM_LightmapUVMissing", "SM_UVOverlapping", "SM_TriangleCount",
    "SM_DegenerateFaces", "SM_CollisionMissing", "SM_CollisionComplexity", "SM_NaniteSuitability",
    "SM_MaterialSlot", "SM_VertexColorMissing", "SM_TransformPivot", "SM_Scaling",
    "SM_LightmapResolution", "SM_SocketNaming"]

  /** The parameters after a sequence of TMap::Add calls: a later key replaces an earlier one. */
  function ParamMap(pairs: seq<(string, string)>): map<string, string>
  {
    if |pairs| == 0 then map[]
    else ParamMap(pairs[..|pairs| - 1])[pairs[|pairs| - 1].0 := pairs[|pairs| - 1].1]
  }

  /** A key that no later pair repeats keeps the value of its pair. */
  lemma {:induction false} ParamMapLookup(pairs: seq<(string, string)>, k: nat)
    requires k < |pairs|
    requires forall j :: k < j < |pairs| ==> pairs[j].0 != pairs[k].0
    ensures pairs[k].0 in ParamMap(pairs) && ParamMap(pairs)[pairs[k].0] == pairs[k].1
  {
    if k < |pairs| - 1 {
      ParamMapLookup(pairs[..|pairs| - 1], k);
    }
  }

  function NamingSync(q: QuickSettings): (c: RuleConfig)
    ensures c.ruleId == SyncedRuleIds[0] && c.enabled == SyncedFlags(q)[0]
  {
    RuleConfig("SM_Naming", q.enableNaming, ParamMap([("NamingPattern", q.namingPattern)]))
  }

  function LodMissingSync(q: QuickSettings): (c: RuleConfig)
    ensures c.ruleId == SyncedRuleIds[1] && c.enabled == SyncedFlags(q)[1]
  {
    RuleConfig("SM_LODMissing", q.enableLodCount, ParamMap([("MinLODs_SM", IntToString(q.minRequiredLods))]))
  }

  function LightmapUvSync(q: QuickSettings): (c: RuleConfig)
    ensures c.ruleId == SyncedRuleIds[2] && c.enabled == SyncedFlags(q)[2]
  {
    RuleConfig("SM_LightmapUVMissing", q.enableLightmapUv, ParamMap([
      ("Severity", SeverityName(q.lightmapUvSeverity)),
      ("RequireValidUVs", BoolText(q.requireValidLightmapUvs)),
      ("AllowAutoGeneration", BoolText(q.allowLightmapUvAutoFix)),
      ("ChannelStrategy", StrategyName(q.lightmapUvChannelStrategy)),
      ("PreferredChannel", IntToString(q.preferredLightmapUvChannel))]))
  }

  function UvOverlappingSync(q: QuickSettings): (c: RuleConfig)
    ensures c.ruleId == SyncedRuleIds[3] && c.enabled == SyncedFlags(q)[3]
  {
    RuleConfig("SM_UVOverlapping", q.enableUvOverlapping, ParamMap([
      ("Severity", SeverityName(q.uvOverlappingSeverity)),
      ("CheckUVChannel0", BoolText(q.checkUvChannel0)),
      ("CheckUVChannel1", BoolText(q.checkUvChannel1)),
      ("CheckUVChannel2", BoolText(q.checkUvChannel2)),
      ("CheckUVChannel3", BoolText(q.checkUvChannel3)),
      ("TextureUVTolerance", SanitizeFloat(q.textureUvOverlapTolerance)),
      ("LightmapUVTolerance", SanitizeFloat(q.lightmapUvOverlapTolerance)),
      ("TextureWarningThreshold", SanitizeFloat(q.textureUvOverlapWarningThreshold)),
      ("TextureErrorThreshold", SanitizeFloat(q.textureUvOverlapErrorThreshold)),
      ("LightmapWarningThreshold", SanitizeFloat(q.lightmapUvOverlapWarningThreshold)),
      ("LightmapErrorThreshold", SanitizeFloat(q.lightmapUvOverlapErrorThreshold))]))
  }

  function TriangleCountSync(q: QuickSettings): (c: RuleConfig)
    ensures c.ruleId == SyncedRuleIds[4] && c.enabled == SyncedFlags(q)[4]
  {
    RuleConfig("SM_TriangleCount", q.enableTriangleCount, ParamMap([
      ("Severity", SeverityOrdinalText(q.triangleCountSeverity)),
      ("BaseThreshold", IntToString(q.triangleCountBaseThreshold)),
      ("WarningPercentage", SanitizeFloat(q.triangleCountWarningPercentage)),
      ("ErrorPercentage", SanitizeFloat(q.triangleCountErrorPercentage))]))
  }

  function DegenerateFacesSync(q: QuickSettings): (c: RuleConfig)
    ensures c.ruleId == SyncedRuleIds[5] && c.enabled == SyncedFlags(q)[5]
  {
    RuleConfig("SM_DegenerateFaces", q.enableDegenerateFaces, ParamMap([
      ("Severity", SeverityOrdinalText(q.degenerateFacesSeverity)),
      ("WarningThreshold", SanitizeFloat(q.degenerateFacesWarningThreshold)),
      ("ErrorThreshold", SanitizeFloat(q.degenerateFacesErrorThreshold)),
      ("AllowAutoFix", BoolText(q.allowDegenerateFacesAutoFix))]))
  }

  function CollisionMissingSync(q: QuickSettings): (c: RuleConfig)
    ensures c.ruleId == SyncedRuleIds[6] && c.enabled == SyncedFlags(q)[6]
  {
    RuleConfig("SM_CollisionMissing", q.enableCollisionMissing, ParamMap([
      ("Severity", SeverityOrdinalText(q.collisionMissingSeverity)),
      ("AllowAutoFix", BoolText(q.allowCollisionMissingAutoFix))]))
  }

  function CollisionComplexitySync(q: QuickSettings): (c: RuleConfig)
    ensures c.ruleId == SyncedRuleIds[7] && c.enabled == SyncedFlags(q)[7]
  {
    RuleConfig("SM_CollisionComplexity", q.enableCollisionComplexity, ParamMap([
      ("Severity", SeverityOrdinalText(q.collisionComplexitySeverity)),
      ("WarningThreshold", IntToString(q.collisionComplexityWarningThreshold)),
      ("ErrorThreshold", IntToString(q.collisionComplexityErrorThreshold)),
      ("TreatUseComplexAsSimpleAsError", BoolText(q.treatUseComplexAsSimpleAsError)),
      ("AllowAutoFix", BoolText(q.allowCollisionComplexityAutoFix))]))
  }

  function NaniteSync(q: QuickSettings): (c: RuleConfig)
    ensures c.ruleId == SyncedRuleIds[8] && c.enabled == SyncedFlags(q)[8]
  {
    RuleConfig("SM_NaniteSuitability", q.enableNanite, ParamMap([
      ("Severity", SeverityOrdinalText(q.naniteSeverity)),
      ("SuitabilityThreshold", IntToString(q.naniteSuitabilityThreshold)),
      ("DisableThreshold", IntToString(q.naniteDisableThreshold)),
      ("AllowAutoFix", BoolText(q.allowNaniteAutoFix))]))
  }

  function MaterialSlotSync(q: QuickSettings): (c: RuleConfig)
    ensures c.ruleId == SyncedRuleIds[9] && c.enabled == SyncedFlags(q)[9]
  {
    RuleConfig("SM_MaterialSlot", q.enableMaterialSlot, ParamMap([
      ("Severity", SeverityOrdinalText(q.materialSlotSeverity)),
      ("WarningThreshold", IntToString(q.materialSlotWarningThreshold)),
      ("ErrorThreshold", IntToString(q.materialSlotErrorThreshold)),
      ("AllowAutoFix", BoolText(q.allowMaterialSlotAutoFix))]))
  }

  function VertexColorSync(q: QuickSettings): (c: RuleConfig)
    ensures c.ruleId == SyncedRuleIds[10] && c.enabled == SyncedFlags(q)[10]
  {
    RuleConfig("SM_VertexColorMissing", q.enableVertexColorMissing, ParamMap([
      ("Severity", SeverityOrdinalText(q.vertexColorMissingSeverity)),
      ("RequiredThreshold", IntToString(q.vertexColorRequiredThreshold)),
      ("AllowAutoFix", BoolText(q.allowVertexColorMissingAutoFix))]))
  }

  function TransformPivotSync(q: QuickSettings): (c: RuleConfig)
    ensures c.ruleId == SyncedRuleIds[11] && c.enabled == SyncedFlags(q)[11]
  {
    RuleConfig("SM_TransformPivot", q.enableTransformPivot, ParamMap([
      ("Severity", SeverityOrdinalText(q.transformPivotSeverity)),
      ("WarningDistance", Fixed2(q.transformPivotWarningDistance)),
      ("ErrorDistance", Fixed2(q.transformPivotErrorDistance))]))
  }

  function ScalingSync(q: QuickSettings): (c: RuleConfig)
    ensures c.ruleId == SyncedRuleIds[12] && c.enabled == SyncedFlags(q)[12]
  {
    RuleConfig("SM_Scaling", q.enableNonUniformScale, ParamMap([
      ("Severity", SeverityOrdinalText(q.nonUniformScaleSeverity)),
      ("WarningRatio", Fixed2(q.nonUniformScaleWarningRatio)),
      ("ZeroScaleEnabled", BoolText(q.enableZeroScale)),
      ("ZeroScaleSeverity", SeverityOrdinalText(q.zeroScaleSeverity)),
      ("ZeroScaleThreshold", FixedPoint(q.zeroScaleThreshold, 3))]))
  }

  function LightmapResolutionSync(q: QuickSettings): (c: RuleConfig)
    ensures c.ruleId == SyncedRuleIds[13] && c.enabled == SyncedFlags(q)[13]
  {
    RuleConfig("SM_LightmapResolution", q.enableLightmapResolution, ParamMap([
      ("Severity", SeverityOrdinalText(q.lightmapResolutionSeverity)),
      ("MinResolution", IntToString(q.lightmapResolutionMin)),
      ("MaxResolution", IntToString(q.lightmapResolutionMax)),
      ("AllowAutoFix", BoolText(q.allowLightmapResolutionAutoFix))]))
  }

  function SocketNamingSync(q: QuickSettings): (c: RuleConfig)
    ensures c.ruleId == SyncedRuleIds[14] && c.enabled == SyncedFlags(q)[14]
  {
    RuleConfig("SM_SocketNaming", q.enableSocketNaming, ParamMap([
      ("Severity", SeverityOrdinalText(q.socketNamingSeverity)),
      ("NamingPrefix", q.socketNamingPrefix),
      ("TransformWarningDistance", Fixed2(q.socketTransformWarningDistance)),
      ("AllowAutoFix", BoolText(q.allowSocketNamingAutoFix))]))
  }

  /** The enabled flag each synced config takes, in sync order. */
  function SyncedFlags(q: QuickSettings): seq<bool>
  {
    [q.enableNaming, q.enableLodCount, q.enableLightmapUv, q.enableUvOverlapping, q.enableTriangleCount,
     q.enableDegenerateFaces, q.enableCollisionMissing, q.enableCollisionComplexity, q.enableNanite,
     q.enableMaterialSlot, q.enableVertexColorMissing, q.enableTransformPivot, q.enableNonUniformScale,
     q.enableLightmapResolution, q.enableSocketNaming]
  }

  /** Synced configs 0 to 4. */
  function FirstSyncs(q: QuickSettings, k: nat): (c: RuleConfig)
    requires 0 <= k < 5
    ensures c.ruleId == SyncedRuleIds[k] && c.enabled == SyncedFlags(q)[k]
  {
    match k
    case 0 => NamingSync(q)
    case 1 => LodMissingSync(q)
    case 2 => LightmapUvSync(q)
    case 3 => UvOverlappingSync(q)
    case _ => TriangleCountSync(q)
  }

  /** Synced configs 5 to 9. */
  function MiddleSyncs(q: QuickSettings, k: nat): (c: RuleConfig)
    requires 5 <= k < 10
    ensures c.ruleId == SyncedRuleIds[k] && c.enabled == SyncedFlags(q)[k]
  {
    match k
    case 5 => DegenerateFacesSync(q)
    case 6 => CollisionMissingSync(q)
    case 7 => CollisionComplexitySync(q)
    case 8 => NaniteSync(q)
    case _ => MaterialSlotSync(q)
  }

  /** Synced configs 10 to 14. */
  function LastSyncs(q: QuickSettings, k: nat): (c: RuleConfig)
    requires 10 <= k < 15
    ensures c.ruleId == SyncedRuleIds[k] && c.enabled == SyncedFlags(q)[k]
  {
    match k
    case 10 => VertexColorSync(q)
    case 11 => TransformPivotSync(q)
    case 12 => ScalingSync(q)
    case 13 => LightmapResolutionSync(q)
    case _ => SocketNamingSync(q)
  }

  /** The config the sync writes k-th: its ID is the k-th synced ID, its flag the k-th quick setting. */
  function SyncConfigAt(q: QuickSettings, k: nat): (c: RuleConfig)
    requires k < 15
    ensures c.ruleId == SyncedRuleIds[k] && c.enabled == SyncedFlags(q)[k]
  {
    if k < 5 then FirstSyncs(q, k) else if k < 10 then MiddleSyncs(q, k) else LastSyncs(q, k)
  }

  /** The table after the first n synced configs are upserted, in order. */
  function UpsertFirst(rules: seq<RuleConfig>, q: QuickSettings, n: nat): seq<RuleConfig>
    requires n <= 15
  {
    if n == 0 then rules else Upserted(UpsertFirst(rules, q, n - 1), SyncConfigAt(q, n - 1))
  }

  /** The rule table after SyncQuickSettingsToProfile. */
  function SyncedRules(rules: seq<RuleConfig>, q: QuickSettings): seq<RuleConfig>
  {
    UpsertFirst(rules, q, 15)
  }

  /** The fifteen synced IDs are distinct, and SM_LODPolyReduction is not one of them. */
  lemma SyncedRuleIdsDistinct()
    ensures forall i, j :: 0 <= i < j < 15 ==> SyncedRuleIds[i] != SyncedRuleIds[j]
    ensures "SM_LODPolyReduction" !in SyncedRuleIds
  {
  }

  // ---------------------------------------------------------------------------
  // What the sync leaves in the table

  /** After the first n upserts, each of those n configs is what a lookup of its ID finds. */
  lemma {:induction false} UpsertFirstFinds(rules: seq<RuleConfig>, q: QuickSettings, n: nat)
    requires n <= 15
    ensures forall k :: 0 <= k < n ==> FindRuleConfig(UpsertFirst(rules, q, n), SyncedRuleIds[k]) == Some(SyncConfigAt(q, k))
  {
    if n > 0 {
      var before := UpsertFirst(rules, q, n - 1);
      var c := SyncConfigAt(q, n - 1);
      UpsertFirstFinds(rules, q, n - 1);
      UpsertedLookup(before, c);
      SyncedRuleIdsDistinct();
      forall k | 0 <= k < n - 1
        ensures FindRuleConfig(UpsertFirst(rules, q, n), SyncedRuleIds[k]) == Some(SyncConfigAt(q, k))
      {
        UpsertedOtherLookup(before, c, SyncedRuleIds[k]);
      }
    }
  }

  /** An ID the first n synced configs do not carry is looked up exactly as before. */
  lemma {:induction false} UpsertFirstKeepsOthers(rules: seq<RuleConfig>, q: QuickSettings, n: nat, id: string)
    requires n <= 15
    requires forall k :: 0 <= k < n ==> SyncedRuleIds[k] != id
    ensures FindRuleConfig(UpsertFirst(rules, q, n), id) == FindRuleConfig(rules, id)
  {
    if n > 0 {
      UpsertFirstKeepsOthers(rules, q, n - 1, id);
      UpsertedOtherLookup(UpsertFirst(rules, q, n - 1), SyncConfigAt(q, n - 1), id);
    }
  }

  /** Upserting a config the table already holds at its first match changes nothing. */
  lemma UpsertedPresent(rules: seq<RuleConfig>, c: RuleConfig)
    requires FindRuleConfig(rules, c.ruleId) == Some(c)
    ensures Upserted(rules, c) == rules
  {
    var f := FindIndex(rules, c.ruleId);
    assert f.Some?;
    assert rules[f.value] == c;
  }

  /** Upserting synced configs the table already holds, each found by its ID, changes nothing. */
  lemma {:induction false} UpsertFirstPresent(rules: seq<RuleConfig>, q: QuickSettings, n: nat)
    requires n <= 15
    requires forall k :: 0 <= k < n ==> FindRuleConfig(rules, SyncedRuleIds[k]) == Some(SyncConfigAt(q, k))
    ensures UpsertFirst(rules, q, n) == rules
  {
    if n > 0 {
      UpsertFirstPresent(rules, q, n - 1);
      UpsertedPresent(rules, SyncConfigAt(q, n - 1));
    }
  }

  /**
   * After a sync each of the fifteen IDs finds exactly the config the quick
   * settings describe, its enabled flag is the matching quick setting, and every
   * other rule (SM_LODPolyReduction among them) is found as before.
   */
  lemma SyncedLookup(rules: seq<RuleConfig>, q: QuickSettings, id: string)
    ensures forall k :: 0 <= k < 15 ==> FindRuleConfig(SyncedRules(rules, q), SyncedRuleIds[k]) == Some(SyncConfigAt(q, k))
    ensures forall k :: 0 <= k < 15 ==> IsRuleEnabled(SyncedRules(rules, q), SyncedRuleIds[k]) == SyncedFlags(q)[k]
    ensures id !in SyncedRuleIds ==> FindRuleConfig(SyncedRules(rules, q), id) == FindRuleConfig(rules, id)
  {
    UpsertFirstFinds(rules, q, 15);
    if id !in SyncedRuleIds {
      UpsertFirstKeepsOthers(rules, q, 15, id);
    }
  }

  /** Syncing twice leaves the table as one sync did. */
  lemma SyncIdempotent(rules: seq<RuleConfig>, q: QuickSettings)
    ensures SyncedRules(SyncedRules(rules, q), q) == SyncedRules(rules, q)
  {
    UpsertFirstFinds(rules, q, 15);
    UpsertFirstPresent(SyncedRules(rules, q), q, 15);
  }

  /** The synced LOD-count parameter parses back to the quick setting. */
  lemma SyncedMinLods(rules: seq<RuleConfig>, q: QuickSettings)
    ensures Atoi(GetRuleParameter(SyncedRules(rules, q), "SM_LODMissing", "MinLODs_SM", "3")) == q.minRequiredLods
  {
    UpsertFirstFinds(rules, q, 15);
    assert FindRuleConfig(SyncedRules(rules, q), SyncedRuleIds[1]) == Some(SyncConfigAt(q, 1));
    assert SyncConfigAt(q, 1) == LodMissingSync(q);
    AtoiOfIntToString(q.minRequiredLods);
  }

  /** The metadata and rules of a freshly constructed profile. */
  function DefaultProfileData(): (d: ProfileData)
    ensures d.rules == DefaultRules() && d.version == 1
  {
    ProfileData("Default Profile", "Default Pipeline Guardian profile", 1, DefaultRules())
  }

  /**
   * The settings object. A profile asset path is text ("" is the null path); the
   * assets that would load as profiles are given to each method as a map from path
   * to profile (a path outside the map does not load as a profile).
   */
  class SettingsStore {
    var quick: QuickSettings
    var activeProfilePath: string
    var availableProfiles: seq<string>
    var cachedActiveProfile: PipelineProfile?

    constructor ()
      ensures quick == DefaultQuickSettings()
      ensures activeProfilePath == "" && availableProfiles == [] && cachedActiveProfile == null
    {
      quick := DefaultQuickSettings();
      activeProfilePath := "";
      availableProfiles := [];
      cachedActiveProfile := null;
    }

    /** Upserts the fifteen synced configs, in order, into a profile. */
    method SyncInto(p: PipelineProfile)
      modifies p
      ensures p.ruleConfigs == SyncedRules(old(p.ruleConfigs), quick)
      ensures p.profileName == old(p.profileName) && p.description == old(p.description)
      ensures p.version == old(p.version)
    {
      ghost var start := p.ruleConfigs;
      var q := quick;
      p.SetRuleConfig(NamingSync(q));
      assert p.ruleConfigs == UpsertFirst(start, q, 1);
      p.SetRuleConfig(LodMissingSync(q));
      assert p.ruleConfigs == UpsertFirst(start, q, 2);
      p.SetRuleConfig(LightmapUvSync(q));
      assert p.ruleConfigs == UpsertFirst(start, q, 3);
      p.SetRuleConfig(UvOverlappingSync(q));
      assert p.ruleConfigs == UpsertFirst(start, q, 4);
      p.SetRuleConfig(TriangleCountSync(q));
      assert p.ruleConfigs == UpsertFirst(start, q, 5);
      p.SetRuleConfig(DegenerateFacesSync(q));
      assert p.ruleConfigs == UpsertFirst(start, q, 6);
      p.SetRuleConfig(CollisionMissingSync(q));
      assert p.ruleConfigs == UpsertFirst(start, q, 7);
      p.SetRuleConfig(CollisionComplexitySync(q));
      assert p.ruleConfigs == UpsertFirst(start, q, 8);
      p.SetRuleConfig(NaniteSync(q));
      assert p.ruleConfigs == UpsertFirst(start, q, 9);
      p.SetRuleConfig(MaterialSlotSync(q));
      assert p.ruleConfigs == UpsertFirst(start, q, 10);
      p.SetRuleConfig(VertexColorSync(q));
      assert p.ruleConfigs == UpsertFirst(start, q, 11);
      p.SetRuleConfig(TransformPivotSync(q));
      assert p.ruleConfigs == UpsertFirst(start, q, 12);
      p.SetRuleConfig(ScalingSync(q));
      assert p.ruleConfigs == UpsertFirst(start, q, 13);
      p.SetRuleConfig(LightmapResolutionSync(q));
      assert p.ruleConfigs == UpsertFirst(start, q, 14);
      p.SetRuleConfig(SocketNamingSync(q));
      assert p.ruleConfigs == UpsertFirst(start, q, 15);
    }

    /**
     * GetActiveProfile: the cached profile; else the profile at the active path,
     * which is cached; else a new transient profile, cached and synced.
     */
    method GetActiveProfile(loadable: map<string, PipelineProfile>) returns (p: PipelineProfile)
      modifies this
      ensures cachedActiveProfile == p
      ensures quick == old(quick) && activeProfilePath == old(activeProfilePath)
      ensures availableProfiles == old(availableProfiles)
      ensures old(cachedActiveProfile) != null ==> p == old(cachedActiveProfile)
      ensures old(cachedActiveProfile) == null && activeProfilePath != "" && activeProfilePath in loadable ==>
                p == loadable[activeProfilePath]
      ensures old(cachedActiveProfile) == null && !(activeProfilePath != "" && activeProfilePath in loadable) ==>
                (fresh(p) && p.Data() == DefaultProfileData().(rules := SyncedRules(DefaultRules(), quick)))
    {
      if cachedActiveProfile != null {
        return cachedActiveProfile;
      }
      if activeProfilePath != "" && activeProfilePath in loadable {
        p := loadable[activeProfilePath];
        cachedActiveProfile := p;
        return p;
      }
      p := new PipelineProfile();
      cachedActiveProfile := p;
      SyncInto(p);
    }

    /** SetActiveProfile: only a path that loads as a profile is taken. */
    method SetActiveProfile(path: string, loadable: map<string, PipelineProfile>) returns (ok: bool)
      modifies this
      ensures ok <==> path != "" && path in loadable
      ensures ok ==> (activeProfilePath == path && cachedActiveProfile == loadable[path] &&
                      availableProfiles == AddUnique(old(availableProfiles), path))
      ensures !ok ==> (activeProfilePath == old(activeProfilePath) && cachedActiveProfile == old(cachedActiveProfile) &&
                       availableProfiles == old(availableProfiles))
      ensures quick == old(quick)
    {
      if path != "" && path in loadable {
        activeProfilePath := path;
        cachedActiveProfile := loadable[path];
        availableProfiles := AddUnique(availableProfiles, path);
        return true;
      }
      return false;
    }

    /** CreateNewProfile: a constructed profile with the given name, made the cached one. */
    method CreateNewProfile(name: string, desc: string) returns (p: PipelineProfile)
      modifies this
      ensures fresh(p) && cachedActiveProfile == p
      ensures p.Data() == ProfileData(name, if desc == "" then "Profile: " + name else desc, 1, DefaultRules())
      ensures quick == old(quick) && activeProfilePath == old(activeProfilePath)
      ensures availableProfiles == old(availableProfiles)
    {
      p := new PipelineProfile();
      p.profileName := name;
      p.description := if desc == "" then "Profile: " + name else desc;
      p.version := 1;
      cachedActiveProfile := p;
    }

    /**
     * SyncQuickSettingsToProfile: the active profile (obtained as GetActiveProfile
     * does) receives the fifteen synced configs.
     */
    method SyncQuickSettingsToProfile(loadable: map<string, PipelineProfile>)
      modifies this, loadable.Values, cachedActiveProfile
      ensures quick == old(quick) && activeProfilePath == old(activeProfilePath)
      ensures availableProfiles == old(availableProfiles)
      ensures cachedActiveProfile != null
      ensures old(cachedActiveProfile) != null ==>
                (cachedActiveProfile == old(cachedActiveProfile) &&
                 cachedActiveProfile.ruleConfigs == SyncedRules(old(cachedActiveProfile.ruleConfigs), quick) &&
                 cachedActiveProfile.profileName == old(cachedActiveProfile.profileName) &&
                 cachedActiveProfile.description == old(cachedActiveProfile.description) &&
                 cachedActiveProfile.version == old(cachedActiveProfile.version))
      ensures old(cachedActiveProfile) == null && activeProfilePath != "" && activeProfilePath in loadable ==>
                (cachedActiveProfile == loadable[activeProfilePath] &&
                 cachedActiveProfile.ruleConfigs == SyncedRules(old(loadable[activeProfilePath].ruleConfigs), quick) &&
                 cachedActiveProfile.profileName == old(loadable[activeProfilePath].profileName) &&
                 cachedActiveProfile.description == old(loadable[activeProfilePath].description) &&
                 cachedActiveProfile.version == old(loadable[activeProfilePath].version))
      ensures forall q :: q in loadable.Values && q != cachedActiveProfile ==> unchanged(q)
      ensures old(cachedActiveProfile) == null && !(activeProfilePath != "" && activeProfilePath in loadable) ==>
                (fresh(cachedActiveProfile) &&
                 cachedActiveProfile.Data() == DefaultProfileData().(rules := SyncedRules(DefaultRules(), quick)))
    {
      var p := GetActiveProfile(loadable);
      ghost var before := p.ruleConfigs;
      SyncInto(p);
      if old(cachedActiveProfile) == null && !(activeProfilePath != "" && activeProfilePath in loadable) {
        SyncIdempotent(DefaultRules(), quick);
      }
    }

    /**
     * ImportProfileFromFile: `file` is the file's parsed text (None: the file did
     * not load; Some(None): the text is not JSON). A profile is returned only when
     * the root is an object; it is made the cached one on request.
     */
    method ImportProfileFromFile(file: Option<Option<Json>>, setAsActive: bool) returns (p: PipelineProfile?)
      modifies this
      ensures p != null <==> file.Some? && file.value.Some? && file.value.value.JObject?
      ensures p != null ==> fresh(p) && p.Data() == ImportedData(DefaultProfileData(), file.value.value.fields)
      ensures cachedActiveProfile == (if p != null && setAsActive then p else old(cachedActiveProfile))
      ensures quick == old(quick) && activeProfilePath == old(activeProfilePath)
      ensures availableProfiles == old(availableProfiles)
    {
      if file.None? {
        return null;
      }
      var created := new PipelineProfile();
      var ok := created.ImportFromJson(file.value);
      if !ok {
        return null;
      }
      if setAsActive {
        cachedActiveProfile := created;
      }
      return created;
    }

    /** ExportActiveProfileToFile: the document written is the active profile's export. */
    method ExportActiveProfile(loadable: map<string, PipelineProfile>) returns (doc: Json)
      modifies this
      ensures cachedActiveProfile != null && doc == ExportDocument(cachedActiveProfile.Data())
      ensures quick == old(quick) && activeProfilePath == old(activeProfilePath)
      ensures availableProfiles == old(availableProfiles)
    {
      var p := GetActiveProfile(loadable);
      doc := p.ExportToJson();
    }
  }

  /** A profile written out and read back is the profile written, whatever it is read over. */
  lemma ExportThenImport(d: ProfileData, prior: ProfileData)
    requires ValidNames(d.rules)
    ensures ImportedData(prior, ExportDocument(d).fields) == d
  {
    ExportImportRoundTrip(d, prior);
  }
}
