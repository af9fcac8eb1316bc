/**
 * FStaticMeshVertexColorMissingRule: three independent checks on the colour
 * attribute of LOD0's mesh description — colours missing on a mesh with enough
 * triangles, a colour attribute that is unused (all zero or all alike), and
 * required channels that cannot be present because there is no attribute.
 */
module VertexColor {
  import opened Wrappers
  import opened Text
  import opened Results
  import opened Mesh
  import opened Rule
  import opened Settings

  const RuleId := "SM_VertexColorMissing"
  const UnusedChannelsRuleId := "SM_VertexColorUnusedChannels"
  const MissingChannelsRuleId := "SM_VertexColorMissingChannels"

  /** Meshes above this many LOD0 triangles do not get colours generated. */
  const MaxAutoFixTriangles := 100000

  /** Two colours differ when their squared distance exceeds this. */
  const VariationTolerance := 0.0001

  /** LOD0's mesh description exists and its vertex-instance colour attribute is valid. */
  predicate HasColorAttribute(m: StaticMesh)
  {
    m.description.Some? && m.description.value.colors.Some?
  }

  // ---------------------------------------------------------------------------
  // Missing colours

  /** Render data exists, LOD0 reaches the threshold, and there is no colour attribute. */
  predicate HasMissingVertexColors(m: StaticMesh, threshold: int)
  {
    |m.lods| > 0 && m.lods[0].triangles >= threshold && !HasColorAttribute(m)
  }

  function MissingDescription(m: StaticMesh, triangles: int, threshold: int): string
  {
    "Static mesh " + m.name + " (" + IntToString(triangles) + " triangles) is missing vertex colors. Required for meshes with "
    + IntToString(threshold) + "+ triangles. Vertex colors improve visual quality and support advanced shading."
  }

  /** Render data exists, LOD0 has at most 100,000 triangles, and LOD0 has a mesh description. */
  predicate CanSafelyGenerateVertexColors(m: StaticMesh)
  {
    |m.lods| > 0 && m.lods[0].triangles <= MaxAutoFixTriangles && m.description.Some?
  }

  /**
   * Whether GenerateVertexColors succeeds: it gives up without a mesh description
   * and, since it cannot register the attribute, also without a colour attribute.
   */
  function GenerateVertexColorsSucceeds(m: StaticMesh): (ok: bool)
    ensures ok <==> HasColorAttribute(m)
  {
    if m.description.None? then false
    else m.description.value.colors.Some?
  }

  // ---------------------------------------------------------------------------
  // Unused channels

  predicate Positive(c: Color)
  {
    c.r > 0.0 || c.g > 0.0 || c.b > 0.0 || c.a > 0.0
  }

  /** (a - b).SizeSquared() over the four components. */
  function ColorDistSquared(a: Color, b: Color): (d: real)
    ensures d >= 0.0
  {
    (a.r - b.r) * (a.r - b.r) + (a.g - b.g) * (a.g - b.g) + (a.b - b.b) * (a.b - b.b) + (a.a - b.a) * (a.a - b.a)
  }

  predicate Differs(first: Color, c: Color)
  {
    ColorDistSquared(first, c) > VariationTolerance
  }

  /**
   * The unused channels HasUnusedVertexColorChannels reports for a list of
   * colours: "All" when no colour has a positive component, else "Variation"
   * when no colour differs from the first, else none.
   */
  function UnusedForColors(cs: seq<Color>): (r: seq<string>)
    ensures |r| <= 1
    ensures r == ["All"] <==> forall k :: 0 <= k < |cs| ==> !Positive(cs[k])
    ensures r == ["Variation"] <==>
              (exists k :: 0 <= k < |cs| && Positive(cs[k])) && forall k :: 1 <= k < |cs| ==> !Differs(cs[0], cs[k])
  {
    if forall k :: 0 <= k < |cs| ==> !Positive(cs[k]) then ["All"]
    else if forall k :: 1 <= k < |cs| ==> !Differs(cs[0], cs[k]) then ["Variation"]
    else []
  }

  /** The unused channels of a mesh: none without render data or without a colour attribute. */
  function UnusedChannels(m: StaticMesh): seq<string>
  {
    if |m.lods| == 0 || !HasColorAttribute(m) then [] else UnusedForColors(m.description.value.colors.value)
  }

  /** HasUnusedVertexColorChannels: one pass over the colours, tracking a positive component and a variation. */
  method HasUnusedVertexColorChannels(m: StaticMesh) returns (unused: bool, channels: seq<string>)
    ensures channels == UnusedChannels(m)
    ensures unused <==> |channels| > 0
  {
    channels := [];
    if |m.lods| == 0 || !HasColorAttribute(m) {
      return false, channels;
    }
    var cs := m.description.value.colors.value;
    var hasNonZero := false;
    var hasVarying := false;
    var first := Color(0.0, 0.0, 0.0, 0.0);
    var firstSet := false;
    var i := 0;
    while i < |cs|
      invariant 0 <= i <= |cs|
      invariant firstSet <==> i > 0
      invariant firstSet ==> first == cs[0]
      invariant hasNonZero <==> exists k :: 0 <= k < i && Positive(cs[k])
      invariant hasVarying <==> exists k :: 1 <= k < i && Differs(cs[0], cs[k])
    {
      var c := cs[i];
      if c.r > 0.0 || c.g > 0.0 || c.b > 0.0 || c.a > 0.0 {
        hasNonZero := true;
      }
      if !firstSet {
        first := c;
        firstSet := true;
      } else if ColorDistSquared(first, c) > VariationTolerance {
        hasVarying := true;
      }
      i := i + 1;
    }
    if !hasNonZero {
      channels := ["All"];
    } else if !hasVarying {
      channels := ["Variation"];
    }
    unused := |channels| > 0;
  }

  // ---------------------------------------------------------------------------
  // Missing required channels

  /**
   * HasMissingRequiredChannels: nothing for an empty list; otherwise, without a
   * colour attribute, every channel of the comma-separated list is missing.
   */
  function MissingChannels(m: StaticMesh, required: string): (r: (bool, seq<string>))
    ensures !r.0 ==> r.1 == []
    ensures r.0 <==> required != "" && !HasColorAttribute(m)
  {
    if required == "" || HasColorAttribute(m) then (false, [])
    else (true, SplitCulled(required, ','))
  }

  /** The channels reported missing are the non-empty, comma-free pieces of the list, in order. */
  lemma MissingChannelsAreListed(m: StaticMesh, required: string)
    requires MissingChannels(m, required).0
    ensures var names := MissingChannels(m, required).1;
            && (forall k :: 0 <= k < |names| ==> names[k] != "" && ',' !in names[k])
            && Join(names, "") == Without(required, ',')
  {
    SplitCulledPieces(required, ',');
  }

  // ---------------------------------------------------------------------------
  // Descriptions

  function UnusedDescription(m: StaticMesh, joined: string): string
  {
    "Static mesh " + m.name + " has unused vertex color channels: " + joined + ". This bloats data and should be optimized."
  }

  function MissingChannelDescription(m: StaticMesh, joined: string): string
  {
    "Static mesh " + m.name + " is missing required vertex color channels: " + joined + ". These channels are needed for proper shading."
  }

  /** GenerateUnusedChannelDescription: the channels joined by ", ". */
  method GenerateUnusedChannelDescription(m: StaticMesh, channels: seq<string>) returns (d: string)
    ensures d == UnusedDescription(m, Join(channels, ", "))
  {
    var joined := JoinParts(channels, ", ");
    d := UnusedDescription(m, joined);
  }

  /** GenerateMissingChannelDescription: the channels joined by ", ". */
  method GenerateMissingChannelDescription(m: StaticMesh, channels: seq<string>) returns (d: string)
    ensures d == MissingChannelDescription(m, Join(channels, ", "))
  {
    var joined := JoinParts(channels, ", ");
    d := MissingChannelDescription(m, joined);
  }

  // ---------------------------------------------------------------------------
  // Check

  /** The first result, when colours are missing; the fix when allowed and safe. */
  function MissingResults(m: StaticMesh, q: QuickSettings): seq<AnalysisResult>
  {
    if q.enableVertexColorMissing && HasMissingVertexColors(m, q.vertexColorRequiredThreshold) then
      var fix := if q.allowVertexColorMissingAutoFix && CanSafelyGenerateVertexColors(m) then Some(GenerateVertexColors) else None;
      [UnlocatedIssue(m, q.vertexColorMissingSeverity, RuleId,
                 MissingDescription(m, LodTriangles(m, 0), q.vertexColorRequiredThreshold), fix)]
    else []
  }

  /** The second result, when the colour attribute is unused; never with a fix. */
  function UnusedResults(m: StaticMesh, q: QuickSettings): seq<AnalysisResult>
  {
    var channels := UnusedChannels(m);
    if q.enableVertexColorUnusedChannel && |channels| > 0 then
      [UnlocatedIssue(m, q.vertexColorUnusedChannelSeverity, UnusedChannelsRuleId, UnusedDescription(m, Join(channels, ", ")), None)]
    else []
  }

  /** The third result, when required channels are missing; never with a fix. */
  function MissingChannelResults(m: StaticMesh, q: QuickSettings): seq<AnalysisResult>
  {
    var missing := MissingChannels(m, q.requiredVertexColorChannels);
    if q.enableVertexColorChannelValidation && q.requiredVertexColorChannels != "" && missing.0 then
      [UnlocatedIssue(m, q.vertexColorMissingSeverity, MissingChannelsRuleId, MissingChannelDescription(m, Join(missing.1, ", ")), None)]
    else []
  }

  /** The outcome Check specifies: the three results in order, and true exactly when any was appended. */
  function Evaluate(asset: Option<StaticMesh>, q: QuickSettings): Outcome
  {
    if asset.None? then NoIssue
    else
      var m := asset.value;
      var results := MissingResults(m, q) + UnusedResults(m, q) + MissingChannelResults(m, q);
      Outcome(|results| > 0, results)
  }

  method Check(asset: Option<StaticMesh>, q: QuickSettings) returns (o: Outcome)
    ensures o == Evaluate(asset, q)
  {
    hide MissingDescription, UnusedDescription, MissingChannelDescription;
    if asset.None? {
      return NoIssue;
    }
    var m := asset.value;
    var results: seq<AnalysisResult> := [];
    var hasIssues := false;
    if q.enableVertexColorMissing {
      var triangles := LodTriangles(m, 0);
      if HasMissingVertexColors(m, q.vertexColorRequiredThreshold) {
        var fix := None;
        if q.allowVertexColorMissingAutoFix && CanSafelyGenerateVertexColors(m) {
          fix := Some(GenerateVertexColors);
        }
        var description := MissingDescription(m, triangles, q.vertexColorRequiredThreshold);
        results := results + [UnlocatedIssue(m, q.vertexColorMissingSeverity, RuleId, description, fix)];
        hasIssues := true;
      }
    }
    if q.enableVertexColorUnusedChannel {
      var unused, channels := HasUnusedVertexColorChannels(m);
      if unused {
        var description := GenerateUnusedChannelDescription(m, channels);
        results := results + [UnlocatedIssue(m, q.vertexColorUnusedChannelSeverity, UnusedChannelsRuleId, description, None)];
        hasIssues := true;
      }
    }
    if q.enableVertexColorChannelValidation && q.requiredVertexColorChannels != "" {
      var missing := MissingChannels(m, q.requiredVertexColorChannels);
      if missing.0 {
        var description := GenerateMissingChannelDescription(m, missing.1);
        results := results + [UnlocatedIssue(m, q.vertexColorMissingSeverity, MissingChannelsRuleId, description, None)];
        hasIssues := true;
      }
    }
    return Outcome(hasIssues, results);
  }

  /**
   * Check appends up to three results, each raised by its own setting: colours
   * missing, an unused attribute, missing required channels. It returns true
   * exactly when it appended something, and only the first kind can carry a fix.
   */
  lemma EvaluateReports(m: StaticMesh, q: QuickSettings)
    ensures var o := Evaluate(Some(m), q);
            var missing := q.enableVertexColorMissing && |m.lods| > 0
                           && m.lods[0].triangles >= q.vertexColorRequiredThreshold && !HasColorAttribute(m);
            var unused := q.enableVertexColorUnusedChannel && |m.lods| > 0 && HasColorAttribute(m)
                          && |UnusedForColors(m.description.value.colors.value)| > 0;
            var channels := q.enableVertexColorChannelValidation && q.requiredVertexColorChannels != "" && !HasColorAttribute(m);
            && (o.found <==> missing || unused || channels)
            && |o.results| == (if missing then 1 else 0) + (if unused then 1 else 0) + (if channels then 1 else 0)
            && (forall k :: 0 <= k < |o.results| ==> o.results[k].asset == AssetOf(m) && o.results[k].filePath == "")
            && (forall k :: 1 <= k < |o.results| ==> o.results[k].fix.None?)
            && (missing ==> && o.results[0].ruleId == RuleId && o.results[0].severity == q.vertexColorMissingSeverity
                            && (o.results[0].fix.Some? <==>
                                  q.allowVertexColorMissingAutoFix && m.lods[0].triangles <= MaxAutoFixTriangles && m.description.Some?))
            && (channels ==> && o.results[|o.results| - 1].ruleId == MissingChannelsRuleId
                             && o.results[|o.results| - 1].severity == q.vertexColorMissingSeverity)
  {
    hide MissingDescription, UnusedDescription, MissingChannelDescription;
  }

  /** An unused attribute and missing colours exclude each other: one needs the attribute, the other its absence. */
  lemma MissingExcludesUnused(m: StaticMesh, q: QuickSettings)
    ensures |MissingResults(m, q)| == 0 || |UnusedResults(m, q)| == 0
    ensures |MissingChannelResults(m, q)| == 0 || |UnusedResults(m, q)| == 0
  {
    hide MissingDescription, UnusedDescription, MissingChannelDescription;
  }

  /**
   * The fix offered for missing colours can never succeed: it is offered only
   * when the colour attribute is absent, and GenerateVertexColors then gives up.
   */
  lemma OfferedFixFails(m: StaticMesh, q: QuickSettings)
    requires |MissingResults(m, q)| > 0 && MissingResults(m, q)[0].fix.Some?
    ensures MissingResults(m, q)[0].fix.value == GenerateVertexColors
    ensures !GenerateVertexColorsSucceeds(m)
  {
    hide MissingDescription;
  }

  /** Nothing is reported without a mesh or with all three checks switched off. */
  lemma EvaluateQuiet(asset: Option<StaticMesh>, q: QuickSettings)
    requires asset.None? || (!q.enableVertexColorMissing && !q.enableVertexColorUnusedChannel && !q.enableVertexColorChannelValidation)
    ensures Evaluate(asset, q) == NoIssue
  {
  }
}
