/**
 * UPipelineGuardianProfile: an ordered table of rule configurations keyed by
 * rule ID, seeded with five defaults, updated by upsert, and exported to and
 * imported from a structured JSON document.
 */
module Profile {
  import opened Wrappers
  import opened Text
  import opened Json

  /** FPipelineGuardianRuleConfig. */
  datatype RuleConfig = RuleConfig(ruleId: string, enabled: bool, parameters: map<string, string>)

  /** A value snapshot of a profile: what the rules read and what export/import carry. */
  datatype ProfileData = ProfileData(name: string, description: string, version: int, rules: seq<RuleConfig>)

  /** The default constructor of a rule config: NAME_None, enabled, no parameters. */
  function DefaultRuleConfig(): (c: RuleConfig)
    ensures c.ruleId == NameNone && c.enabled && c.parameters == map[]
  {
    RuleConfig(NameNone, true, map[])
  }

  /** The two-argument constructor; the enabled flag defaults to true. */
  function NewRuleConfig(id: string, enabled: bool := true): (c: RuleConfig)
    ensures c.ruleId == id && c.enabled == enabled && c.parameters == map[]
  {
    RuleConfig(id, enabled, map[])
  }

  /** Every rule ID occurs at most once. */
  ghost predicate UniqueIds(rules: seq<RuleConfig>)
  {
    forall i, j :: 0 <= i < j < |rules| ==> rules[i].ruleId != rules[j].ruleId
  }

  /** FName never has empty text (FName("") is NAME_None). */
  ghost predicate ValidNames(rules: seq<RuleConfig>)
  {
    forall i :: 0 <= i < |rules| ==> rules[i].ruleId != ""
  }

  /** The position FindByPredicate stops at: the first config with the ID. */
  function FindIndex(rules: seq<RuleConfig>, id: string): (r: Option<nat>)
    ensures r.Some? ==> r.value < |rules| && rules[r.value].ruleId == id
    ensures r.Some? ==> forall j :: 0 <= j < r.value ==> rules[j].ruleId != id
    ensures r.None? <==> forall j :: 0 <= j < |rules| ==> rules[j].ruleId != id
  {
    if |rules| == 0 then None
    else if rules[0].ruleId == id then Some(0)
    else match FindIndex(rules[1..], id)
      case None => None
      case Some(k) => Some(k + 1)
  }

  /** GetRuleConfigPtr: the first config whose ID matches, or none. */
  function FindRuleConfig(rules: seq<RuleConfig>, id: string): (r: Option<RuleConfig>)
    ensures r.None? <==> forall j :: 0 <= j < |rules| ==> rules[j].ruleId != id
    ensures r.Some? ==> r.value.ruleId == id
    ensures r.Some? ==> exists j :: 0 <= j < |rules| && rules[j] == r.value &&
                                    forall k :: 0 <= k < j ==> rules[k].ruleId != id
  {
    match FindIndex(rules, id)
    case None => None
    case Some(i) => Some(rules[i])
  }

  /** GetRuleConfig: a copy of the config, or the default config when the ID is absent. */
  function GetRuleConfig(rules: seq<RuleConfig>, id: string): (c: RuleConfig)
    ensures FindRuleConfig(rules, id).Some? ==> c == FindRuleConfig(rules, id).value
    ensures (forall j :: 0 <= j < |rules| ==> rules[j].ruleId != id) ==>
              c.ruleId == NameNone && c.enabled && c.parameters == map[]
  {
    FindRuleConfig(rules, id).GetOr(DefaultRuleConfig())
  }

  /** IsRuleEnabled: the flag of the first matching config, false when there is none. */
  function IsRuleEnabled(rules: seq<RuleConfig>, id: string): (b: bool)
    ensures b <==> exists j :: 0 <= j < |rules| && rules[j].ruleId == id && rules[j].enabled &&
                              forall k :: 0 <= k < j ==> rules[k].ruleId != id
  {
    var c := FindRuleConfig(rules, id);
    c.Some? && c.value.enabled
  }

  /**
   * GetRuleParameter: the stored value when the rule and the key both exist,
   * otherwise the supplied default (which itself defaults to "").
   */
  function GetRuleParameter(rules: seq<RuleConfig>, id: string, key: string, default: string := ""): (v: string)
    ensures FindRuleConfig(rules, id).Some? && key in FindRuleConfig(rules, id).value.parameters ==>
              v == FindRuleConfig(rules, id).value.parameters[key]
    ensures FindRuleConfig(rules, id).None? || key !in FindRuleConfig(rules, id).value.parameters ==>
              v == default
  {
    var c := FindRuleConfig(rules, id);
    if c.Some? && key in c.value.parameters then c.value.parameters[key] else default
  }

  /** SetRuleConfig's effect on the list: overwrite the first config with the same ID, or append. */
  function Upserted(rules: seq<RuleConfig>, c: RuleConfig): (r: seq<RuleConfig>)
    ensures FindIndex(rules, c.ruleId).Some? ==>
              |r| == |rules| && r[FindIndex(rules, c.ruleId).value] == c
    ensures FindIndex(rules, c.ruleId).None? ==> r == rules + [c]
    ensures forall j :: 0 <= j < |rules| && FindIndex(rules, c.ruleId) != Some(j) ==> r[j] == rules[j]
  {
    match FindIndex(rules, c.ruleId)
    case Some(i) => rules[i := c]
    case None => rules + [c]
  }

  /** After an upsert, looking the ID up yields exactly the stored config. */
  lemma UpsertedLookup(rules: seq<RuleConfig>, c: RuleConfig)
    ensures FindRuleConfig(Upserted(rules, c), c.ruleId) == Some(c)
  {
    var r := Upserted(rules, c);
    var n := if FindIndex(rules, c.ruleId).Some? then FindIndex(rules, c.ruleId).value else |rules|;
    assert n < |r| && r[n] == c;
    assert forall j :: 0 <= j < n ==> r[j] == rules[j];
    assert forall j :: 0 <= j < n ==> r[j].ruleId != c.ruleId;
  }

  /** An upsert does not change what any other ID looks up to. */
  lemma UpsertedOtherLookup(rules: seq<RuleConfig>, c: RuleConfig, id: string)
    requires id != c.ruleId
    ensures FindRuleConfig(Upserted(rules, c), id) == FindRuleConfig(rules, id)
  {
    var r := Upserted(rules, c);
    assert forall j :: 0 <= j < |rules| && r[j].ruleId == id ==> r[j] == rules[j];
    assert forall j :: 0 <= j < |rules| && rules[j].ruleId == id ==> r[j] == rules[j];
    assert forall j :: |rules| <= j < |r| ==> r[j].ruleId != id;
  }

  /** Upserting keeps rule IDs unique. */
  lemma UpsertedKeepsUnique(rules: seq<RuleConfig>, c: RuleConfig)
    requires UniqueIds(rules)
    ensures UniqueIds(Upserted(rules, c))
  {
    var r := Upserted(rules, c);
    forall i, j | 0 <= i < j < |r|
      ensures r[i].ruleId != r[j].ruleId
    {
      var f := FindIndex(rules, c.ruleId);
      if f.None? {
        if j == |rules| {
          assert r[i] == rules[i];
        } else {
          assert r[i] == rules[i] && r[j] == rules[j];
        }
      } else if i == f.value {
        assert r[j] == rules[j];
      } else if j == f.value {
        assert r[i] == rules[i];
      } else {
        assert r[i] == rules[i] && r[j] == rules[j];
      }
    }
  }

  /** With unique IDs, every stored config is found by its own ID. */
  lemma UniqueLookup(rules: seq<RuleConfig>, j: nat)
    requires UniqueIds(rules) && j < |rules|
    ensures FindRuleConfig(rules, rules[j].ruleId) == Some(rules[j])
  {
    assert forall m :: 0 <= m < j ==> rules[m].ruleId != rules[j].ruleId;
  }

  // The five configs the constructor seeds, in seeding order.

  const SeededRuleIds: seq<string> :=
    ["SM_Naming", "SM_LODMissing", "SM_LODPolyReduction", "SM_UVOverlapping", "SM_TriangleCount"]

  lemma SeededRuleIdsDistinct()
    ensures forall i, j :: 0 <= i < j < 5 ==> SeededRuleIds[i] != SeededRuleIds[j]
    ensures forall i :: 0 <= i < 5 ==> SeededRuleIds[i] != ""
  {
  }

  function NamingDefault(): (c: RuleConfig)
    ensures c.ruleId == SeededRuleIds[0] && c.enabled
  {
    RuleConfig("SM_Naming", true, map["NamingPattern" := "SM_*"])
  }

  function LodMissingDefault(): (c: RuleConfig)
    ensures c.ruleId == SeededRuleIds[1] && c.enabled
  {
    RuleConfig("SM_LODMissing", true, map[])
  }

  function LodPolyReductionDefault(): (c: RuleConfig)
    ensures c.ruleId == SeededRuleIds[2] && c.enabled
  {
    RuleConfig("SM_LODPolyReduction", true,
      map["MinReductionPercentage" := "30.0", "WarningThreshold" := "20.0", "ErrorThreshold" := "10.0"])
  }

  function UvOverlappingDefault(): (c: RuleConfig)
    ensures c.ruleId == SeededRuleIds[3] && c.enabled
  {
    RuleConfig("SM_UVOverlapping", true,
      map["Severity" := "Warning",
          "CheckUVChannel0" := "true", "CheckUVChannel1" := "true",
          "CheckUVChannel2" := "false", "CheckUVChannel3" := "false",
          "TextureUVTolerance" := "0.001", "LightmapUVTolerance" := "0.0005",
          "TextureWarningThreshold" := "5.0", "TextureErrorThreshold" := "15.0",
          "LightmapWarningThreshold" := "2.0", "LightmapErrorThreshold" := "8.0",
          "AllowAutoFix" := "true"])
  }

  function TriangleCountDefault(): (c: RuleConfig)
    ensures c.ruleId == SeededRuleIds[4] && c.enabled
  {
    RuleConfig("SM_TriangleCount", true,
      map["Severity" := "Warning", "WarningThreshold" := "50000", "ErrorThreshold" := "100000",
          "AllowAutoFix" := "true", "PerformanceLODReductionTarget" := "60.0"])
  }

  function DefaultRules(): (r: seq<RuleConfig>)
    ensures |r| == 5
    ensures forall i :: 0 <= i < 5 ==> r[i].ruleId == SeededRuleIds[i] && r[i].enabled
  {
    [NamingDefault(), LodMissingDefault(), LodPolyReductionDefault(), UvOverlappingDefault(), TriangleCountDefault()]
  }

  /** Seeding the five defaults into an empty table appends them in order. */
  lemma SeedIntoEmpty()
    ensures Upserted(Upserted(Upserted(Upserted(Upserted([],
              NamingDefault()), LodMissingDefault()), LodPolyReductionDefault()),
              UvOverlappingDefault()), TriangleCountDefault()) == DefaultRules()
  {
    var d := DefaultRules();
    SeededRuleIdsDistinct();
    var r1 := Upserted([], d[0]);
    assert r1 == d[..1];
    var r2 := Upserted(r1, d[1]);
    assert FindIndex(r1, d[1].ruleId).None?;
    assert r2 == d[..2];
    var r3 := Upserted(r2, d[2]);
    assert FindIndex(r2, d[2].ruleId).None?;
    assert r3 == d[..3];
    var r4 := Upserted(r3, d[3]);
    assert FindIndex(r3, d[3].ruleId).None?;
    assert r4 == d[..4];
    assert FindIndex(r4, d[4].ruleId).None?;
    assert Upserted(r4, d[4]) == d[..5] == d;
  }

  /** The seeded table: five enabled configs with distinct, valid IDs. */
  lemma DefaultRulesUnique()
    ensures |DefaultRules()| == 5 && UniqueIds(DefaultRules()) && ValidNames(DefaultRules())
    ensures forall i :: 0 <= i < 5 ==> DefaultRules()[i].enabled
  {
    var d := DefaultRules();
    SeededRuleIdsDistinct();
    forall i, j | 0 <= i < j < 5
      ensures d[i].ruleId != d[j].ruleId
    {
      assert d[i].ruleId == SeededRuleIds[i] && d[j].ruleId == SeededRuleIds[j];
    }
  }

  /** Each seeded config is what a lookup of its ID finds. */
  lemma DefaultRulesLookup()
    ensures forall i :: 0 <= i < 5 ==> FindRuleConfig(DefaultRules(), SeededRuleIds[i]) == Some(DefaultRules()[i])
  {
    var d := DefaultRules();
    DefaultRulesUnique();
    forall i | 0 <= i < 5
      ensures FindRuleConfig(d, SeededRuleIds[i]) == Some(d[i])
    {
      UniqueLookup(d, i);
    }
  }

  // ---------------------------------------------------------------------------
  // Export and import through the JSON document

  function ExportParameters(p: map<string, string>): (r: map<string, Json>)
    ensures r.Keys == p.Keys
    ensures forall k :: k in p ==> r[k] == JString(p[k])
  {
    map k | k in p :: JString(p[k])
  }

  /** One rule object: "RuleID", "Enabled" and a "Parameters" object of strings. */
  function ExportRule(c: RuleConfig): Json
  {
    JObject(map["RuleID" := JString(c.ruleId), "Enabled" := JBool(c.enabled),
                "Parameters" := JObject(ExportParameters(c.parameters))])
  }

  function ExportRules(rules: seq<RuleConfig>): (r: seq<Json>)
    ensures |r| == |rules|
    ensures forall i :: 0 <= i < |rules| ==> r[i] == ExportRule(rules[i])
  {
    seq(|rules|, i requires 0 <= i < |rules| => ExportRule(rules[i]))
  }

  /** The root object ExportToJSON serializes. */
  function ExportDocument(d: ProfileData): Json
  {
    JObject(map["ProfileName" := JString(d.name), "Description" := JString(d.description),
                "Version" := JNumber(d.version), "Rules" := JArray(ExportRules(d.rules))])
  }

  /** FName(*String): empty text names NAME_None. */
  function NameFromText(s: string): (n: string)
    ensures n != ""
    ensures s != "" ==> n == s
  {
    if s == "" then NameNone else s
  }

  /** The string-valued entries of a "Parameters" object; other values are skipped. */
  function StringParameters(p: map<string, Json>): (r: map<string, string>)
    ensures forall k :: k in r <==> k in p && p[k].JString?
    ensures forall k :: k in r ==> p[k] == JString(r[k])
  {
    map k | k in p && p[k].JString? :: p[k].s
  }

  /**
   * One entry of the "Rules" array: an object yields one config (missing RuleID is
   * NAME_None, missing or non-boolean Enabled keeps true, missing Parameters is
   * empty); any other value is skipped.
   */
  function ImportRule(entry: Json): (r: seq<RuleConfig>)
    ensures |r| == (if entry.JObject? then 1 else 0)
    ensures entry.JObject? ==> r[0].ruleId != ""
    ensures entry.JObject? && TryGetBool(entry.fields, "Enabled").None? ==> r[0].enabled
    ensures entry.JObject? && TryGetObject(entry.fields, "Parameters").None? ==> r[0].parameters == map[]
  {
    match entry
    case JObject(f) =>
      var id := match TryGetString(f, "RuleID")
        case Some(s) => NameFromText(s)
        case None => NameNone;
      var params := match TryGetObject(f, "Parameters")
        case Some(p) => StringParameters(p)
        case None => map[];
      [RuleConfig(id, TryGetBool(f, "Enabled").GetOr(true), params)]
    case _ => []
  }

  /** The rule list rebuilt from the "Rules" array, in array order. */
  function ImportRules(entries: seq<Json>): (r: seq<RuleConfig>)
    ensures |r| <= |entries|
    ensures ValidNames(r)
  {
    if |entries| == 0 then []
    else ImportRules(entries[..|entries| - 1]) + ImportRule(entries[|entries| - 1])
  }

  /**
   * The profile after a successful import of a root object: present metadata fields
   * overwrite, absent ones keep the prior value, and the rule list is always replaced
   * (empty when "Rules" is absent or not an array).
   */
  function ImportedData(prior: ProfileData, root: map<string, Json>): (d: ProfileData)
    ensures "ProfileName" !in root ==> d.name == prior.name
    ensures "Description" !in root ==> d.description == prior.description
    ensures "Version" !in root ==> d.version == prior.version
    ensures TryGetArray(root, "Rules").None? ==> d.rules == []
    ensures ValidNames(d.rules)
  {
    ProfileData(
      if "ProfileName" in root then GetStringField(root, "ProfileName") else prior.name,
      if "Description" in root then GetStringField(root, "Description") else prior.description,
      if "Version" in root then GetIntegerField(root, "Version") else prior.version,
      match TryGetArray(root, "Rules")
      case Some(items) => ImportRules(items)
      case None => [])
  }

  lemma ImportOfExportedRule(c: RuleConfig)
    requires c.ruleId != ""
    ensures ImportRule(ExportRule(c)) == [c]
  {
    var f := ExportRule(c).fields;
    assert TryGetObject(f, "Parameters") == Some(ExportParameters(c.parameters));
    assert StringParameters(ExportParameters(c.parameters)) == c.parameters;
  }

  lemma {:induction false} ImportOfExportedRules(rules: seq<RuleConfig>)
    requires ValidNames(rules)
    ensures ImportRules(ExportRules(rules)) == rules
    decreases |rules|
  {
    if |rules| > 0 {
      var n := |rules| - 1;
      var e := ExportRules(rules);
      assert e[..n] == ExportRules(rules[..n]);
      ImportOfExportedRules(rules[..n]);
      ImportOfExportedRule(rules[n]);
      assert rules == rules[..n] + [rules[n]];
    }
  }

  /**
   * Export then import reproduces name, description, version and the ordered rule
   * list, whatever the importing profile held before.
   */
  lemma ExportImportRoundTrip(d: ProfileData, prior: ProfileData)
    requires ValidNames(d.rules)
    ensures ExportDocument(d).JObject?
    ensures ImportedData(prior, ExportDocument(d).fields) == d
  {
    ImportOfExportedRules(d.rules);
  }

  /** UPipelineGuardianProfile. */
  class PipelineProfile {
    var profileName: string
    var description: string
    var version: int
    var ruleConfigs: seq<RuleConfig>

    function Data(): ProfileData
      reads this
    {
      ProfileData(profileName, description, version, ruleConfigs)
    }

    /** The constructor: default metadata, then the five seeded rules. */
    constructor ()
      ensures profileName == "Default Profile" && description == "Default Pipeline Guardian profile"
      ensures version == 1
      ensures ruleConfigs == DefaultRules()
    {
      profileName := "Default Profile";
      description := "Default Pipeline Guardian profile";
      version := 1;
      ruleConfigs := [];
      new;
      InitializeDefaultRules();
      SeedIntoEmpty();
    }

    /** Upserts the five default configs, in order, into the current table. */
    method InitializeDefaultRules()
      modifies this
      ensures ruleConfigs == Upserted(Upserted(Upserted(Upserted(Upserted(old(ruleConfigs),
                NamingDefault()), LodMissingDefault()), LodPolyReductionDefault()),
                UvOverlappingDefault()), TriangleCountDefault())
      ensures profileName == old(profileName) && description == old(description) && version == old(version)
    {
      SetRuleConfig(NamingDefault());
      SetRuleConfig(LodMissingDefault());
      SetRuleConfig(LodPolyReductionDefault());
      SetRuleConfig(UvOverlappingDefault());
      SetRuleConfig(TriangleCountDefault());
    }

    /** Overwrites the first config with the same ID in place, or appends a new one. */
    method SetRuleConfig(c: RuleConfig)
      modifies this
      ensures ruleConfigs == Upserted(old(ruleConfigs), c)
      ensures profileName == old(profileName) && description == old(description) && version == old(version)
    {
      var existing := FindIndex(ruleConfigs, c.ruleId);
      if existing.Some? {
        ruleConfigs := ruleConfigs[existing.value := c];
      } else {
        ruleConfigs := ruleConfigs + [c];
      }
    }

    /** Builds the root object, one rule object per config in table order. */
    method ExportToJson() returns (doc: Json)
      ensures doc == ExportDocument(Data())
    {
      var ruleArray: seq<Json> := [];
      var i := 0;
      while i < |ruleConfigs|
        invariant 0 <= i <= |ruleConfigs|
        invariant |ruleArray| == i
        invariant forall k :: 0 <= k < i ==> ruleArray[k] == ExportRule(ruleConfigs[k])
      {
        var c := ruleConfigs[i];
        var ruleObject := map["RuleID" := JString(c.ruleId), "Enabled" := JBool(c.enabled),
                              "Parameters" := JObject(ExportParameters(c.parameters))];
        ruleArray := ruleArray + [JObject(ruleObject)];
        i := i + 1;
      }
      assert ruleArray == ExportRules(ruleConfigs);
      doc := JObject(map["ProfileName" := JString(profileName), "Description" := JString(description),
                         "Version" := JNumber(version), "Rules" := JArray(ruleArray)]);
    }

    /**
     * Imports a parsed document (None: the text did not parse). A failed parse or a
     * non-object root returns false and changes nothing.
     */
    method ImportFromJson(parsed: Option<Json>) returns (ok: bool)
      modifies this
      ensures ok <==> parsed.Some? && parsed.value.JObject?
      ensures !ok ==> Data() == old(Data())
      ensures ok ==> Data() == ImportedData(old(Data()), parsed.value.fields)
    {
      if parsed.None? || !parsed.value.JObject? {
        return false;
      }
      var root := parsed.value.fields;
      if "ProfileName" in root {
        profileName := GetStringField(root, "ProfileName");
      }
      if "Description" in root {
        description := GetStringField(root, "Description");
      }
      if "Version" in root {
        version := GetIntegerField(root, "Version");
      }
      var rules: seq<RuleConfig> := [];
      var ruleArray := TryGetArray(root, "Rules");
      if ruleArray.Some? {
        var items := ruleArray.value;
        var i := 0;
        while i < |items|
          invariant 0 <= i <= |items|
          invariant rules == ImportRules(items[..i])
        {
          assert items[..i + 1][..i] == items[..i];
          var entry := items[i];
          if entry.JObject? {
            var ruleObject := entry.fields;
            var config := DefaultRuleConfig();
            var idText := TryGetString(ruleObject, "RuleID");
            if idText.Some? {
              config := config.(ruleId := NameFromText(idText.value));
            }
            var enabled := TryGetBool(ruleObject, "Enabled");
            if enabled.Some? {
              config := config.(enabled := enabled.value);
            }
            var parameters := TryGetObject(ruleObject, "Parameters");
            if parameters.Some? {
              config := config.(parameters := StringParameters(parameters.value));
            }
            rules := rules + [config];
          }
          i := i + 1;
        }
        assert items[..i] == items;
      }
      ruleConfigs := rules;
      return true;
    }
  }
}
