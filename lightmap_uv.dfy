/**
 * FStaticMeshLightmapUVMissingRule: a mesh that does not generate its lightmap UVs
 * must point its lightmap coordinate index at an existing, non-empty UV channel
 * other than 0. The fix turns lightmap UV generation on, writing into a channel
 * chosen by the configured strategy.
 */
module LightmapUv {
  import opened Wrappers
  import opened Numeric
  import opened Text
  import opened Results
  import opened Profile
  import opened Mesh
  import opened Rule
  import opened Settings

  const RuleId := "SM_LightmapUVMissing"

  /** The highest UV channel index the engine supports. */
  const MaxUvChannel := 7

  /** KINDA_SMALL_NUMBER, the tolerance of FVector2f::IsNearlyZero. */
  const KindaSmallNumber := 0.0001

  // ---------------------------------------------------------------------------
  // Parameters

  /**
   * The Severity parameter, compared without regard to case: "Error" and "Info"
   * select those severities and every other text selects Warning.
   */
  function ParseSeverity(s: string): (sev: Severity)
    ensures sev == Error <==> EqualsIgnoreCase(s, "Error")
    ensures sev == Info <==> !EqualsIgnoreCase(s, "Error") && EqualsIgnoreCase(s, "Info")
    ensures sev != Critical
  {
    if EqualsIgnoreCase(s, "Error") then Error
    else if EqualsIgnoreCase(s, "Info") then Info
    else Warning
  }

  /** The ChannelStrategy parameter, compared exactly; an unknown name means NextAvailable. */
  function ParseStrategy(s: string): (st: ChannelStrategy)
    ensures st == PreferredChannel <==> s == "PreferredChannel"
    ensures st == ForceChannel1 <==> s == "ForceChannel1"
  {
    if s == "PreferredChannel" then PreferredChannel
    else if s == "ForceChannel1" then ForceChannel1
    else NextAvailable
  }

  /** The four parameters Check reads, after parsing. */
  datatype Params = Params(severity: Severity, allowAutoGeneration: bool, strategy: ChannelStrategy, preferredChannel: int)

  function ReadParams(rules: seq<RuleConfig>): (p: Params)
    ensures p.severity == ParseSeverity(GetRuleParameter(rules, RuleId, "Severity", "Warning"))
    ensures p.allowAutoGeneration == ToBool(GetRuleParameter(rules, RuleId, "AllowAutoGeneration", "true"))
    ensures p.strategy == ParseStrategy(GetRuleParameter(rules, RuleId, "ChannelStrategy", "NextAvailable"))
    ensures p.preferredChannel == Atoi(GetRuleParameter(rules, RuleId, "PreferredChannel", "1"))
  {
    Params(
      ParseSeverity(GetRuleParameter(rules, RuleId, "Severity", "Warning")),
      ToBool(GetRuleParameter(rules, RuleId, "AllowAutoGeneration", "true")),
      ParseStrategy(GetRuleParameter(rules, RuleId, "ChannelStrategy", "NextAvailable")),
      Atoi(GetRuleParameter(rules, RuleId, "PreferredChannel", "1")))
  }

  /** Without a config for the rule, the defaults are Warning, NextAvailable and a fix. */
  lemma DefaultParams(rules: seq<RuleConfig>)
    requires FindRuleConfig(rules, RuleId).None?
    ensures ReadParams(rules).severity == Warning
    ensures ReadParams(rules).strategy == NextAvailable
    ensures ReadParams(rules).allowAutoGeneration
  {
    assert Lower("true") == "true";
  }

  /** Texts equal up to case select the same severity. */
  lemma ParseSeverityIgnoresCase(s: string, t: string)
    requires Lower(s) == Lower(t)
    ensures ParseSeverity(s) == ParseSeverity(t)
  {
  }

  /** The texts the quick-settings sync writes for a severity parse back to it; Critical reads as Warning. */
  lemma SeverityNameParses(s: Severity)
    ensures ParseSeverity(SeverityName(s)) == (if s == Critical then Warning else s)
  {
  }

  /**
   * After SyncQuickSettingsToProfile the rule reads back the severity, the
   * auto-generation flag, the strategy and the preferred channel of the quick
   * settings (a Critical severity reads back as Warning).
   */
  lemma SyncedParamsReadBack(rules: seq<RuleConfig>, q: QuickSettings)
    ensures ReadParams(SyncedRules(rules, q)) == SyncedParams(q)
  {
    UpsertFirstFinds(rules, q, 15);
    assert FindRuleConfig(SyncedRules(rules, q), SyncedRuleIds[2]) == Some(SyncConfigAt(q, 2));
    SyncedConfigReadBack(SyncedRules(rules, q), q);
  }

  /** What the rule should read from the quick settings the sync wrote. */
  function SyncedParams(q: QuickSettings): Params
  {
    Params(if q.lightmapUvSeverity == Critical then Warning else q.lightmapUvSeverity,
           q.allowLightmapUvAutoFix, q.lightmapUvChannelStrategy, q.preferredLightmapUvChannel)
  }

  /** The parameters of the config the sync writes parse back to the quick settings. */
  lemma SyncedConfigReadBack(rules: seq<RuleConfig>, q: QuickSettings)
    requires FindRuleConfig(rules, RuleId) == Some(LightmapUvSync(q))
    ensures ReadParams(rules) == SyncedParams(q)
  {
    SyncedConfigParameters(q);
    SeverityNameParses(q.lightmapUvSeverity);
    assert Lower("true") == "true" && Lower("false") == "false";
    AtoiOfIntToString(q.preferredLightmapUvChannel);
  }

  /** The four parameters the rule reads, as the sync writes them. */
  lemma SyncedConfigParameters(q: QuickSettings)
    ensures var p := LightmapUvSync(q).parameters;
            && "Severity" in p && p["Severity"] == SeverityName(q.lightmapUvSeverity)
            && "AllowAutoGeneration" in p && p["AllowAutoGeneration"] == BoolText(q.allowLightmapUvAutoFix)
            && "ChannelStrategy" in p && p["ChannelStrategy"] == StrategyName(q.lightmapUvChannelStrategy)
            && "PreferredChannel" in p && p["PreferredChannel"] == IntToString(q.preferredLightmapUvChannel)
  {
    var pairs := [
      ("Severity", SeverityName(q.lightmapUvSeverity)),
      ("RequireValidUVs", BoolText(q.requireValidLightmapUvs)),
      ("AllowAutoGeneration", BoolText(q.allowLightmapUvAutoFix)),
      ("ChannelStrategy", StrategyName(q.lightmapUvChannelStrategy)),
      ("PreferredChannel", IntToString(q.preferredLightmapUvChannel))];
    assert LightmapUvSync(q).parameters == ParamMap(pairs);
    ParamMapLookup(pairs, 0);
    ParamMapLookup(pairs, 2);
    ParamMapLookup(pairs, 3);
    ParamMapLookup(pairs, 4);
  }

  // ---------------------------------------------------------------------------
  // UV channel inspection

  function UvChannelCount(m: StaticMesh): (n: nat)
    ensures |m.lods| == 0 ==> n == 0
    ensures |m.lods| > 0 ==> n == m.lods[0].texCoordCount
  {
    if |m.lods| == 0 then 0 else m.lods[0].texCoordCount
  }

  predicate IsZeroUv(uv: Uv) { uv.u == 0.0 && uv.v == 0.0 }

  /** FVector2f::IsNearlyZero: both components within the tolerance of 0. */
  predicate IsNearlyZeroUv(uv: Uv, tolerance: real)
  {
    AbsReal(uv.u) <= tolerance && AbsReal(uv.v) <= tolerance
  }

  /**
   * IsUVChannelValid's verdict: the channel exists on LOD0, LOD0 has vertices, and
   * one of the first min(n, 100) vertices has a UV that is not exactly zero.
   */
  predicate ChannelHasUvs(m: StaticMesh, channel: nat)
  {
    |m.lods| > 0 && channel < m.lods[0].texCoordCount && m.lods[0].vertices > 0
    && exists v :: 0 <= v < MinInt(m.lods[0].vertices, 100) && !IsZeroUv(VertexUv(m, v, channel))
  }

  /** IsUVChannelValid: the sampling loop stops at the first non-zero UV. */
  method IsUvChannelValid(m: StaticMesh, channel: nat) returns (valid: bool)
    ensures valid == ChannelHasUvs(m, channel)
  {
    if |m.lods| == 0 || channel >= m.lods[0].texCoordCount || m.lods[0].vertices == 0 {
      return false;
    }
    var n := MinInt(m.lods[0].vertices, 100);
    valid := false;
    var i := 0;
    while i < n
      invariant 0 <= i <= n
      invariant forall v :: 0 <= v < i ==> IsZeroUv(VertexUv(m, v, channel))
    {
      if !IsZeroUv(VertexUv(m, i, channel)) {
        valid := true;
        break;
      }
      i := i + 1;
    }
  }

  /** The number of the first k vertices whose UV in the channel is not nearly zero. */
  function NonZeroCount(m: StaticMesh, channel: nat, k: nat): (c: nat)
    ensures c <= k
  {
    if k == 0 then 0
    else NonZeroCount(m, channel, k - 1) + (if IsNearlyZeroUv(VertexUv(m, k - 1, channel), KindaSmallNumber) then 0 else 1)
  }

  /** How many vertices HasValidUVData samples: at most 10. */
  function SampleSize(m: StaticMesh): (k: nat)
    requires |m.lods| > 0
    ensures k <= 10 && k <= m.lods[0].vertices
  {
    MinInt(10, m.lods[0].vertices)
  }

  /**
   * HasValidUVData's verdict, "the channel is occupied": a non-negative channel
   * present on LOD0 in which more than half of the sampled vertices (integer
   * division of the sample size by 2) have a UV that is not nearly zero.
   */
  predicate Occupied(m: StaticMesh, channel: int)
  {
    channel >= 0 && |m.lods| > 0 && channel < m.lods[0].texCoordCount
    && NonZeroCount(m, channel, SampleSize(m)) > SampleSize(m) / 2
  }

  /** HasValidUVData: counts the sampled vertices with a UV that is not nearly zero. */
  method HasValidUvData(m: StaticMesh, channel: int) returns (occupied: bool)
    ensures occupied == Occupied(m, channel)
  {
    if channel < 0 || |m.lods| == 0 || channel >= m.lods[0].texCoordCount {
      return false;
    }
    var k := MinInt(10, m.lods[0].vertices);
    var count := 0;
    var i := 0;
    while i < k
      invariant 0 <= i <= k
      invariant count == NonZeroCount(m, channel, i)
    {
      if !IsNearlyZeroUv(VertexUv(m, i, channel), KindaSmallNumber) {
        count := count + 1;
      }
      i := i + 1;
    }
    occupied := count > k / 2;
  }

  /**
   * An occupied channel is also valid for lightmapping: a UV that is not nearly
   * zero is not zero, and the ten sampled vertices lie among the hundred that
   * IsUVChannelValid samples. A channel whose LOD has no vertices is never occupied.
   */
  lemma OccupiedHasUvs(m: StaticMesh, channel: nat)
    requires Occupied(m, channel)
    ensures ChannelHasUvs(m, channel)
    ensures m.lods[0].vertices > 0
  {
    var v := SomeNonZero(m, channel, SampleSize(m));
    assert !IsZeroUv(VertexUv(m, v, channel));
  }

  /** A sampled vertex whose UV is not nearly zero, when the count is positive. */
  lemma {:induction false} SomeNonZero(m: StaticMesh, channel: nat, k: nat) returns (v: nat)
    requires NonZeroCount(m, channel, k) > 0
    ensures v < k && !IsNearlyZeroUv(VertexUv(m, v, channel), KindaSmallNumber)
  {
    if IsNearlyZeroUv(VertexUv(m, k - 1, channel), KindaSmallNumber) {
      v := SomeNonZero(m, channel, k - 1);
    } else {
      v := k - 1;
    }
  }

  // ---------------------------------------------------------------------------
  // Channel selection

  /**
   * FindNextAvailableUVChannel's answer from start: the first channel in
   * [start, 7] that is not occupied, or start itself when all of them are.
   */
  predicate FirstAvailable(m: StaticMesh, start: int, ch: int)
  {
    if exists c :: start <= c <= MaxUvChannel && !Occupied(m, c) then
      start <= ch <= MaxUvChannel && !Occupied(m, ch) && forall c :: start <= c < ch ==> Occupied(m, c)
    else
      ch == start
  }

  /** FindNextAvailableUVChannel: scan upward from start, stop at the first free channel. */
  method FindNextAvailableUvChannel(m: StaticMesh, start: int) returns (ch: int)
    ensures FirstAvailable(m, start, ch)
  {
    var c := start;
    while c <= MaxUvChannel
      invariant start <= c
      invariant forall x :: start <= x < c ==> Occupied(m, x)
      decreases MaxUvChannel + 1 - c
    {
      var occupied := HasValidUvData(m, c);
      if !occupied {
        return c;
      }
      c := c + 1;
    }
    return start;
  }

  /** The answer is unique: two channels both first available from start are equal. */
  lemma FirstAvailableUnique(m: StaticMesh, start: int, a: int, b: int)
    requires FirstAvailable(m, start, a) && FirstAvailable(m, start, b)
    ensures a == b
  {
  }

  /**
   * The channel DetermineOptimalLightmapUVChannel chooses: NextAvailable searches
   * from 1; PreferredChannel keeps the preferred channel when it is free and
   * otherwise searches from the channel after it; ForceChannel1 always answers 1.
   */
  predicate OptimalChannel(m: StaticMesh, strategy: ChannelStrategy, preferred: int, ch: int)
  {
    match strategy
    case NextAvailable => FirstAvailable(m, 1, ch)
    case PreferredChannel => if Occupied(m, preferred) then FirstAvailable(m, preferred + 1, ch) else ch == preferred
    case ForceChannel1 => ch == 1
  }

  /** Each strategy determines one channel. */
  lemma OptimalChannelUnique(m: StaticMesh, strategy: ChannelStrategy, preferred: int, a: int, b: int)
    requires OptimalChannel(m, strategy, preferred, a) && OptimalChannel(m, strategy, preferred, b)
    ensures a == b
  {
    match strategy
    case NextAvailable => FirstAvailableUnique(m, 1, a, b);
    case PreferredChannel =>
      if Occupied(m, preferred) {
        FirstAvailableUnique(m, preferred + 1, a, b);
      }
    case ForceChannel1 =>
  }

  /** DetermineOptimalLightmapUVChannel: the strategy's channel, searching with FindNextAvailableUVChannel. */
  method DetermineOptimalLightmapUvChannel(m: StaticMesh, strategy: ChannelStrategy, preferred: int) returns (ch: int)
    ensures OptimalChannel(m, strategy, preferred, ch)
    ensures strategy == NextAvailable ==> FirstAvailable(m, 1, ch)
    ensures strategy == PreferredChannel && !Occupied(m, preferred) ==> ch == preferred
    ensures strategy == PreferredChannel && Occupied(m, preferred) ==> FirstAvailable(m, preferred + 1, ch)
    ensures strategy == ForceChannel1 ==> ch == 1
  {
    match strategy
    case NextAvailable =>
      ch := FindNextAvailableUvChannel(m, 1);
    case PreferredChannel =>
      var occupied := HasValidUvData(m, preferred);
      if !occupied {
        ch := preferred;
      } else {
        ch := FindNextAvailableUvChannel(m, preferred + 1);
      }
    case ForceChannel1 =>
      ch := 1;
  }

  // ---------------------------------------------------------------------------
  // EnableGenerateLightmapUVs

  /**
   * EnableGenerateLightmapUVs on LOD0's build settings: generation on, minimum
   * resolution 64, source channel 0, destination the requested channel clamped
   * to [1, 7]; the mesh's lightmap coordinate index follows the destination.
   */
  function EnableGenerateLightmapUvs(m: StaticMesh, destination: int): (r: StaticMesh)
    requires |m.sourceModels| > 0
    ensures |r.sourceModels| == |m.sourceModels|
    ensures r.sourceModels[0].build == BuildSettings(true, m.sourceModels[0].build.recomputeNormals, 64, 0, ClampInt(destination, 1, MaxUvChannel))
    ensures r.sourceModels[0].reduction == m.sourceModels[0].reduction
    ensures forall i :: 1 <= i < |m.sourceModels| ==> r.sourceModels[i] == m.sourceModels[i]
    ensures r.lightmapCoordinateIndex == ClampInt(destination, 1, MaxUvChannel)
    ensures r == m.(sourceModels := r.sourceModels, lightmapCoordinateIndex := r.lightmapCoordinateIndex)
  {
    var d := ClampInt(destination, 1, MaxUvChannel);
    var b := m.sourceModels[0].build.(generateLightmapUvs := true, minLightmapResolution := 64,
                                      srcLightmapIndex := 0, dstLightmapIndex := d);
    m.(sourceModels := m.sourceModels[0 := m.sourceModels[0].(build := b)], lightmapCoordinateIndex := d)
  }

  /**
   * The fix: choose the destination channel by the strategy, then enable
   * generation there; `channel` is the chosen channel, before the clamp.
   */
  method ApplyFix(m: StaticMesh, strategy: ChannelStrategy, preferred: int) returns (r: StaticMesh, channel: int)
    requires |m.sourceModels| > 0
    ensures OptimalChannel(m, strategy, preferred, channel)
    ensures r == EnableGenerateLightmapUvs(m, channel)
    ensures 1 <= r.lightmapCoordinateIndex <= MaxUvChannel
    ensures strategy == ForceChannel1 ==> r.lightmapCoordinateIndex == 1
  {
    channel := DetermineOptimalLightmapUvChannel(m, strategy, preferred);
    r := EnableGenerateLightmapUvs(m, channel);
  }

  // ---------------------------------------------------------------------------
  // Check

  /** The three configurations Check reports, in the order it tests them. */
  datatype Problem = ChannelMissing | UsingChannel0 | ChannelInvalid

  /**
   * The first matching problem of a mesh that does not generate lightmap UVs:
   * the index points past the channels, the index is 0 while a channel exists, or
   * the index is positive and its channel holds no UVs.
   */
  function Diagnose(m: StaticMesh): Option<Problem>
  {
    var index := m.lightmapCoordinateIndex;
    var count := UvChannelCount(m);
    if Lod0Build(m).generateLightmapUvs then None
    else if index >= count then Some(ChannelMissing)
    else if index == 0 && count > 0 then Some(UsingChannel0)
    else if index > 0 && !ChannelHasUvs(m, index) then Some(ChannelInvalid)
    else None
  }

  /**
   * A mesh is fine exactly when it generates lightmap UVs, or its index names an
   * existing channel other than 0 that holds UVs, or its index is negative; the
   * channel-0 case is reported only when the index is 0 and some channel exists.
   */
  lemma DiagnoseCases(m: StaticMesh)
    ensures var index := m.lightmapCoordinateIndex;
            var count := UvChannelCount(m);
            var gen := Lod0Build(m).generateLightmapUvs;
            && (Diagnose(m).None? <==> gen || index < 0 || (0 < index < count && ChannelHasUvs(m, index)))
            && (Diagnose(m) == Some(ChannelMissing) <==> !gen && index >= count)
            && (Diagnose(m) == Some(UsingChannel0) <==> !gen && index == 0 && count > 0)
            && (Diagnose(m) == Some(ChannelInvalid) <==> !gen && 0 < index < count && !ChannelHasUvs(m, index))
  {
  }

  function Description(m: StaticMesh, p: Problem): string
  {
    match p
    case ChannelMissing =>
      "Static Mesh '" + m.name + "' has bGenerateLightmapUVs disabled but lightmap coordinate index ("
      + IntToString(m.lightmapCoordinateIndex) + ") points to non-existent UV channel. Available UV channels: "
      + IntToString(UvChannelCount(m))
    case UsingChannel0 =>
      "Static Mesh '" + m.name + "' has bGenerateLightmapUVs disabled and is using UV channel 0 for lightmapping. "
      + "This can cause lighting artifacts. Consider enabling Generate Lightmap UVs or using a dedicated lightmap UV channel."
    case ChannelInvalid =>
      "Static Mesh '" + m.name + "' has bGenerateLightmapUVs disabled but UV channel "
      + IntToString(m.lightmapCoordinateIndex) + " (used for lightmapping) contains invalid or all-zero UVs"
  }

  function FixFor(p: Params): Option<FixCommand>
  {
    if p.allowAutoGeneration then Some(EnableLightmapUvGeneration(p.strategy, p.preferredChannel)) else None
  }

  /**
   * The outcome Check specifies: nothing without a mesh or profile or for a
   * disabled rule; otherwise one result for the first problem found, with the
   * configured severity and the generation fix when auto-generation is allowed.
   */
  function Evaluate(asset: Option<StaticMesh>, profile: Option<ProfileData>): Outcome
  {
    if asset.None? || profile.None? || !IsRuleEnabled(profile.value.rules, RuleId) then NoIssue
    else
      var m := asset.value;
      var p := ReadParams(profile.value.rules);
      match Diagnose(m)
      case None => NoIssue
      case Some(problem) => Outcome(true, [MeshIssue(m, p.severity, RuleId, Description(m, problem), FixFor(p))])
  }

  /** Check: the guards, the generation flag, then the three tests in order. */
  method Check(asset: Option<StaticMesh>, profile: Option<ProfileData>) returns (o: Outcome)
    ensures o == Evaluate(asset, profile)
  {
    hide Description, ReadParams, ChannelHasUvs, UvChannelCount, Lod0Build, IsRuleEnabled, MeshIssue, FixFor;
    if asset.None? || profile.None? || !IsRuleEnabled(profile.value.rules, RuleId) {
      return NoIssue;
    }
    var m := asset.value;
    var p := ReadParams(profile.value.rules);
    if Lod0Build(m).generateLightmapUvs {
      return NoIssue;
    }
    var index := m.lightmapCoordinateIndex;
    var count := UvChannelCount(m);
    var problem: Option<Problem> := None;
    if index >= count {
      problem := Some(ChannelMissing);
    } else if index == 0 && count > 0 {
      problem := Some(UsingChannel0);
    } else if index > 0 {
      var valid := IsUvChannelValid(m, index);
      if !valid {
        problem := Some(ChannelInvalid);
      }
    }
    assert problem == Diagnose(m);
    if problem.None? {
      return NoIssue;
    }
    o := Outcome(true, [MeshIssue(m, p.severity, RuleId, Description(m, problem.value), FixFor(p))]);
  }

  /**
   * With the rule enabled, Check reports exactly when Diagnose finds a problem, and
   * then appends one result with the parsed severity whose fix is bound exactly
   * when AllowAutoGeneration reads true.
   */
  lemma EvaluateReports(m: StaticMesh, profile: ProfileData)
    requires IsRuleEnabled(profile.rules, RuleId)
    ensures var o := Evaluate(Some(m), Some(profile));
            var p := ReadParams(profile.rules);
            && (o.found <==> Diagnose(m).Some?)
            && |o.results| == (if o.found then 1 else 0)
            && (o.found ==> o.results[0].severity == p.severity && o.results[0].ruleId == RuleId
                            && o.results[0].asset == AssetOf(m)
                            && (o.results[0].fix.Some? <==> p.allowAutoGeneration)
                            && (o.results[0].fix.Some? ==>
                                  o.results[0].fix.value == EnableLightmapUvGeneration(p.strategy, p.preferredChannel)))
  {
    hide Description;
  }

  /** Nothing is reported without a mesh or profile, for a disabled rule, or when generation is on. */
  lemma EvaluateQuiet(asset: Option<StaticMesh>, profile: Option<ProfileData>)
    requires asset.None? || profile.None? || !IsRuleEnabled(profile.value.rules, RuleId)
             || Lod0Build(asset.value).generateLightmapUvs
    ensures Evaluate(asset, profile) == NoIssue
  {
  }

  /** After the fix the mesh generates lightmap UVs, so a second check finds nothing. */
  lemma FixResolves(m: StaticMesh, destination: int, profile: Option<ProfileData>)
    requires |m.sourceModels| > 0
    ensures Diagnose(EnableGenerateLightmapUvs(m, destination)).None?
    ensures Evaluate(Some(EnableGenerateLightmapUvs(m, destination)), profile) == NoIssue
  {
  }
}
