# PipelineGuardian asset inspection engine in Dafny

This project models the rule-based asset inspection engine of the PipelineGuardian
Unreal Editor plugin, with the host engine abstracted away, and proves properties
of the model.

- **Profile store** (`profile.dfy`, `json.dfy`). A profile holds an ordered table of rule
  configurations keyed by rule ID: seeded defaults, upsert, lookup with a default, and
  export to and import from a structured JSON document. Export followed by import
  gives back the same table.
- **Results, dispatch and orchestration.**
  - `results.dfy` holds the result record and the severity order.
  - `scanner.dfy` holds the class-to-analyzer registry and the superclass walk.
  - `mesh_analyzer.dfy` holds the fixed pipeline of sixteen static-mesh rules.
  - `scan_task.dfy` holds the background task's decision by scan mode.
  - `settings.dfy` holds the quick settings, the cached active profile, and the
    sync that copies the quick settings into the profile.
  - `window.dfy` and `report_view.dfy` hold the window and report view without
    their widgets: the in-progress guard, the cancellable analysis loop, refresh
    by last mode, the severity filter, the selection map, the select-all
    tri-state and the two fix batches.
- **The sixteen static-mesh rules.** Each rule has one file (`naming.dfy` …
  `socket_naming.dfy`), with `rule.dfy` and `mesh.dfy` as their shared vocabulary.
  - Each rule's `Check` is a function `Evaluate` from the mesh facts and settings
    to an `Outcome`: Check's boolean and the results it appends.
  - Where the source works step by step, the model is a method with a loop that is
    proved equal to the specification function. Examples: collecting empty
    material slots, building UV bounds, appending issue messages, the reverse
    slot removal.
  - The fixes are functions from a mesh value to a new mesh value.
- **Shared helpers.** `text.dfy`, `numeric.dfy`, `seqs.dfy` and `wrappers.dfy` hold
  the engine's string and math helpers over `seq<char>` and exact `real`.

Classes stand for the objects whose fields the source updates in place:
`Profile.PipelineProfile`, `Settings.SettingsStore`, `Scanner.AssetScanner`,
`StaticMeshAnalyzer.MeshAnalyzer`, `ScanTask.AssetScanTask`, `Report.ReportView`
and `Window.PipelineWindow`.

The host enters as parameters:
- the asset registry's answers and the Content Browser selection;
- the loaded asset and its class chain;
- the open level's candidate assets;
- the user's Yes/No and cancel answers;
- the engine's cooking and reduction results.

## Model

| member | source | states |
|---|---|---|
| Results.Ordinal | Source/PipelineGuardian/Public/Analysis/FAssetAnalysisResult.h:11-18 | the severities' ordinals are Critical 0, Error 1, Warning 2 and Info 3, each severity alone at its value, so the source's < and > order them from most to least severe |
| Results.DefaultResult | Source/PipelineGuardian/Public/Analysis/FAssetAnalysisResult.h:44-48 | the default result has severity Info, rule NAME_None, an invalid asset, empty texts and no fix |
| Rule.UnlocatedIssue | Source/PipelineGuardian/Public/Analysis/FAssetAnalysisResult.h:44-48 | a rule result that never sets FilePath keeps the default empty path, with the given asset, severity, rule, description and fix |
| Results.NewResult | Source/PipelineGuardian/Public/Analysis/FAssetAnalysisResult.h:50-60 | the four-argument result keeps its arguments, has no fix, and its file path is the package name only when the asset is valid |
| Profile.DefaultRuleConfig | Source/PipelineGuardian/Public/Analysis/FPipelineGuardianProfile.h:30-34 | a default rule config is NAME_None, enabled, with no parameters |
| Profile.NewRuleConfig | Source/PipelineGuardian/Public/Analysis/FPipelineGuardianProfile.h:36-40 | a rule config built from an ID keeps the ID and flag and has no parameters |
| Profile.FindIndex | Source/PipelineGuardian/Private/Analysis/FPipelineGuardianProfile.cpp:64-70 | the position found holds the ID and no earlier config has it; none is found exactly when no config has the ID |
| Profile.FindRuleConfig | Source/PipelineGuardian/Private/Analysis/FPipelineGuardianProfile.cpp:64-70 | GetRuleConfigPtr finds nothing exactly when no config has the ID, and otherwise the first config with the ID |
| Profile.GetRuleConfig | Source/PipelineGuardian/Private/Analysis/FPipelineGuardianProfile.cpp:72-82 | a found config is returned as is; an absent ID yields NAME_None, enabled, no parameters |
| Profile.IsRuleEnabled | Source/PipelineGuardian/Private/Analysis/FPipelineGuardianProfile.cpp:102-106 | true exactly when the first config with the ID exists and is enabled |
| Profile.GetRuleParameter | Source/PipelineGuardian/Private/Analysis/FPipelineGuardianProfile.cpp:108-116 | the stored value when the rule exists and has the key, the supplied default otherwise |
| Profile.Upserted | Source/PipelineGuardian/Private/Analysis/FPipelineGuardianProfile.cpp:84-100 | SetRuleConfig overwrites the first config with the same ID in place or appends; every other position keeps its config |
| Profile.UpsertedLookup | Source/PipelineGuardian/Private/Analysis/FPipelineGuardianProfile.cpp:84-100 | after SetRuleConfig, looking the ID up finds exactly the stored config |
| Profile.UpsertedOtherLookup | Source/PipelineGuardian/Private/Analysis/FPipelineGuardianProfile.cpp:84-100 | SetRuleConfig does not change what any other ID looks up to |
| Profile.UpsertedKeepsUnique | Source/PipelineGuardian/Private/Analysis/FPipelineGuardianProfile.cpp:84-100 | SetRuleConfig keeps rule IDs unique |
| Profile.UniqueLookup | Source/PipelineGuardian/Private/Analysis/FPipelineGuardianProfile.cpp:64-70 | with unique IDs every stored config is found by its own ID |
| Profile.SeededRuleIdsDistinct | Source/PipelineGuardian/Private/Analysis/FPipelineGuardianProfile.cpp:21-53 | the five seeded rule IDs are distinct and non-empty |
| Profile.NamingDefault | Source/PipelineGuardian/Private/Analysis/FPipelineGuardianProfile.cpp:20-23 | the seeded naming config is SM_Naming, enabled |
| Profile.LodMissingDefault | Source/PipelineGuardian/Private/Analysis/FPipelineGuardianProfile.cpp:25-27 | the seeded LOD-missing config is SM_LODMissing, enabled |
| Profile.LodPolyReductionDefault | Source/PipelineGuardian/Private/Analysis/FPipelineGuardianProfile.cpp:29-34 | the seeded LOD poly-reduction config is SM_LODPolyReduction, enabled |
| Profile.UvOverlappingDefault | Source/PipelineGuardian/Private/Analysis/FPipelineGuardianProfile.cpp:36-50 | the seeded UV-overlap config is SM_UVOverlapping, enabled |
| Profile.TriangleCountDefault | Source/PipelineGuardian/Private/Analysis/FPipelineGuardianProfile.cpp:52-59 | the seeded triangle-count config is SM_TriangleCount, enabled |
| Profile.DefaultRules | Source/PipelineGuardian/Private/Analysis/FPipelineGuardianProfile.cpp:18-62 | the seeded table has five enabled configs with the seeded IDs in order |
| Profile.SeedIntoEmpty | Source/PipelineGuardian/Private/Analysis/FPipelineGuardianProfile.cpp:18-62 | seeding the five defaults into an empty table appends them in order |
| Profile.DefaultRulesUnique | Source/PipelineGuardian/Private/Analysis/FPipelineGuardianProfile.cpp:18-62 | the seeded table has five enabled configs with distinct, non-empty IDs |
| Profile.DefaultRulesLookup | Source/PipelineGuardian/Private/Analysis/FPipelineGuardianProfile.cpp:64-70 | each seeded config is what a lookup of its ID finds |
| Profile.ExportParameters | Source/PipelineGuardian/Private/Analysis/FPipelineGuardianProfile.cpp:136-141 | the exported parameters object has the same keys, each holding its value as a JSON string |
| Profile.ExportRules | Source/PipelineGuardian/Private/Analysis/FPipelineGuardianProfile.cpp:128-145 | one exported rule object per config, in table order |
| Profile.NameFromText | Source/PipelineGuardian/Private/Analysis/FPipelineGuardianProfile.cpp:194-198 | FName of text: empty text names NAME_None, other text names itself |
| Profile.StringParameters | Source/PipelineGuardian/Private/Analysis/FPipelineGuardianProfile.cpp:202-214 | exactly the string-valued parameter entries are imported, with their values |
| Profile.ImportRule | Source/PipelineGuardian/Private/Analysis/FPipelineGuardianProfile.cpp:187-217 | an array entry yields one config exactly when it is an object; missing Enabled keeps true, missing Parameters is empty, the ID is never empty |
| Profile.ImportRules | Source/PipelineGuardian/Private/Analysis/FPipelineGuardianProfile.cpp:182-219 | the imported list is no longer than the array and has no empty ID |
| Profile.ImportedData | Source/PipelineGuardian/Private/Analysis/FPipelineGuardianProfile.cpp:166-219 | absent metadata fields keep their prior values; an absent or non-array Rules empties the rule list |
| Profile.ImportOfExportedRule | Source/PipelineGuardian/Private/Analysis/FPipelineGuardianProfile.cpp:129-144 | importing an exported rule object gives back the same config |
| Profile.ImportOfExportedRules | Source/PipelineGuardian/Private/Analysis/FPipelineGuardianProfile.cpp:128-145 | importing the exported rule array gives back the same ordered rule list |
| Profile.ExportImportRoundTrip | Source/PipelineGuardian/Private/Analysis/FPipelineGuardianProfile.cpp:118-223 | export then import reproduces name, description, version and rules, whatever the importing profile held before |
| Profile.PipelineProfile.constructor | Source/PipelineGuardian/Private/Analysis/FPipelineGuardianProfile.cpp:10-16 | a new profile is "Default Profile", version 1, holding the five seeded rules |
| Profile.PipelineProfile.InitializeDefaultRules | Source/PipelineGuardian/Private/Analysis/FPipelineGuardianProfile.cpp:18-62 | the five defaults are upserted in order into the current table; metadata unchanged |
| Profile.PipelineProfile.SetRuleConfig | Source/PipelineGuardian/Private/Analysis/FPipelineGuardianProfile.cpp:84-100 | the table becomes the upsert of the config; metadata unchanged |
| Profile.PipelineProfile.ExportToJson | Source/PipelineGuardian/Private/Analysis/FPipelineGuardianProfile.cpp:118-153 | the document is the export of the profile's data |
| Profile.PipelineProfile.ImportFromJson | Source/PipelineGuardian/Private/Analysis/FPipelineGuardianProfile.cpp:155-223 | false and nothing changes exactly when the text did not parse to an object; otherwise the data becomes the import over the prior data |
| Settings.DefaultQuickSettings | Source/PipelineGuardian/Private/Core/FPipelineGuardianSettings.cpp:11-114 | the constructor's defaults: master switch and naming on, pattern SM_*, three LODs at 30/50/70 %, collision-missing Error, lightmap-UV Warning, UV channels 2 and 3 off |
| Settings.BoolText | Source/PipelineGuardian/Private/Core/FPipelineGuardianSettings.cpp:237-238 | a flag is written as "true" or "false" and parses back to itself |
| Settings.SeverityName | Source/PipelineGuardian/Private/Core/FPipelineGuardianSettings.cpp:227-236 | Error and Info are written by name; Warning and Critical are both written "Warning" |
| Settings.SeverityOrdinalTextParses | Source/PipelineGuardian/Private/Core/FPipelineGuardianSettings.cpp:284 | a severity written as FromInt of its ordinal parses back to the ordinal |
| Settings.NamingSync | Source/PipelineGuardian/Private/Core/FPipelineGuardianSettings.cpp:215-218 | the synced naming config has ID SM_Naming and the naming quick flag |
| Settings.LodMissingSync | Source/PipelineGuardian/Private/Core/FPipelineGuardianSettings.cpp:220-223 | the synced LOD config has ID SM_LODMissing and the LOD quick flag |
| Settings.LightmapUvSync | Source/PipelineGuardian/Private/Core/FPipelineGuardianSettings.cpp:225-260 | the synced lightmap-UV config has its ID and quick flag |
| Settings.UvOverlappingSync | Source/PipelineGuardian/Private/Core/FPipelineGuardianSettings.cpp:262-278 | the synced UV-overlap config has its ID and quick flag |
| Settings.TriangleCountSync | Source/PipelineGuardian/Private/Core/FPipelineGuardianSettings.cpp:280-290 | the synced triangle-count config has its ID and quick flag |
| Settings.DegenerateFacesSync | Source/PipelineGuardian/Private/Core/FPipelineGuardianSettings.cpp:292-301 | the synced degenerate-faces config has its ID and quick flag |
| Settings.CollisionMissingSync | Source/PipelineGuardian/Private/Core/FPipelineGuardianSettings.cpp:303-310 | the synced collision-missing config has its ID and quick flag |
| Settings.CollisionComplexitySync | Source/PipelineGuardian/Private/Core/FPipelineGuardianSettings.cpp:312-322 | the synced collision-complexity config has its ID and quick flag |
| Settings.NaniteSync | Source/PipelineGuardian/Private/Core/FPipelineGuardianSettings.cpp:324-332 | the synced Nanite config has its ID and quick flag |
| Settings.MaterialSlotSync | Source/PipelineGuardian/Private/Core/FPipelineGuardianSettings.cpp:334-342 | the synced material-slot config has its ID and quick flag |
| Settings.VertexColorSync | Source/PipelineGuardian/Private/Core/FPipelineGuardianSettings.cpp:344-351 | the synced vertex-colour config has its ID and quick flag |
| Settings.TransformPivotSync | Source/PipelineGuardian/Private/Core/FPipelineGuardianSettings.cpp:353-361 | the synced pivot config has its ID and quick flag |
| Settings.ScalingSync | Source/PipelineGuardian/Private/Core/FPipelineGuardianSettings.cpp:363-372 | the synced scaling config has its ID and quick flag |
| Settings.LightmapResolutionSync | Source/PipelineGuardian/Private/Core/FPipelineGuardianSettings.cpp:374-382 | the synced lightmap-resolution config has its ID and quick flag |
| Settings.SocketNamingSync | Source/PipelineGuardian/Private/Core/FPipelineGuardianSettings.cpp:384-392 | the synced socket-naming config has its ID and quick flag |
| Settings.SyncConfigAt | Source/PipelineGuardian/Private/Core/FPipelineGuardianSettings.cpp:206-395 | the k-th config written by the sync carries the k-th synced ID and the k-th quick flag |
| Settings.SyncedRuleIdsDistinct | Source/PipelineGuardian/Private/Core/FPipelineGuardianSettings.cpp:206-395 | the fifteen synced IDs are distinct and SM_LODPolyReduction is not among them |
| Settings.UpsertFirstFinds | Source/PipelineGuardian/Private/Core/FPipelineGuardianSettings.cpp:206-395 | after the first n syncs, each of those n configs is what a lookup of its ID finds |
| Settings.UpsertFirstKeepsOthers | Source/PipelineGuardian/Private/Core/FPipelineGuardianSettings.cpp:206-395 | an ID the first n synced configs do not carry looks up exactly as before |
| Settings.UpsertedPresent | Source/PipelineGuardian/Private/Analysis/FPipelineGuardianProfile.cpp:84-100 | upserting a config the table already finds for its ID changes nothing |
| Settings.UpsertFirstPresent | Source/PipelineGuardian/Private/Core/FPipelineGuardianSettings.cpp:206-395 | upserting synced configs the table already holds changes nothing |
| Settings.SyncedLookup | Source/PipelineGuardian/Private/Core/FPipelineGuardianSettings.cpp:206-395 | after a sync each synced ID finds exactly its config and is enabled as its quick flag says; every other rule, SM_LODPolyReduction among them, looks up as before |
| Settings.SyncIdempotent | Source/PipelineGuardian/Private/Core/FPipelineGuardianSettings.cpp:206-395 | syncing twice leaves the rule table as one sync did |
| Settings.SyncedMinLods | Source/PipelineGuardian/Private/Core/FPipelineGuardianSettings.cpp:220-223 | the synced MinLODs_SM parameter parses back to the quick LOD count |
| Settings.DefaultProfileData | Source/PipelineGuardian/Private/Analysis/FPipelineGuardianProfile.cpp:10-16 | a fresh profile has version 1 and the five seeded rules |
| Settings.SettingsStore.constructor | Source/PipelineGuardian/Private/Core/FPipelineGuardianSettings.cpp:11-114 | the quick settings are the defaults, no active path, no known profiles, no cached profile |
| Settings.SettingsStore.SyncInto | Source/PipelineGuardian/Private/Core/FPipelineGuardianSettings.cpp:214-392 | the profile's rule table becomes the sync of the quick settings into it; metadata unchanged |
| Settings.SettingsStore.GetActiveProfile | Source/PipelineGuardian/Private/Core/FPipelineGuardianSettings.cpp:122-159 | the cached profile if any; else the profile loaded from a non-empty active path, now cached; else a fresh default profile, synced and cached; settings otherwise unchanged |
| Settings.SettingsStore.SetActiveProfile | Source/PipelineGuardian/Private/Core/FPipelineGuardianSettings.cpp:161-182 | true exactly when the path is non-empty and loads as a profile; then it becomes the active, cached and listed profile, otherwise nothing changes |
| Settings.SettingsStore.CreateNewProfile | Source/PipelineGuardian/Private/Core/FPipelineGuardianSettings.cpp:184-204 | a fresh profile named as given, described as given or "Profile: name", version 1, seeded rules, made the cached profile |
| Settings.SettingsStore.SyncQuickSettingsToProfile | Source/PipelineGuardian/Private/Core/FPipelineGuardianSettings.cpp:206-395 | the active profile, obtained as GetActiveProfile does, receives the fifteen synced configs and keeps its name, description and version; every other loadable profile is unchanged, as are the quick settings, the active path and the profile list |
| Settings.SettingsStore.ImportProfileFromFile | Source/PipelineGuardian/Private/Core/FPipelineGuardianSettings.cpp:417-444 | a profile is returned exactly when the file loads and parses to an object; it holds the import over a fresh profile and is cached only on request |
| Settings.SettingsStore.ExportActiveProfile | Source/PipelineGuardian/Private/Core/FPipelineGuardianSettings.cpp:397-415 | the written document is the export of the active profile |
| Settings.ExportThenImport | Source/PipelineGuardian/Private/Core/FPipelineGuardianSettings.cpp:397-444 | a profile exported and imported again is the profile exported, whatever it is imported over |
| LodPolyReduction.ReductionPercentage | Source/PipelineGuardian/Private/Analysis/Rules/StaticMesh/FStaticMeshLODPolyReductionRule.cpp:207-217 | the reduction is 0 when the higher LOD is empty, negative exactly when the lower LOD has more triangles, zero exactly when they are equal |
| LodPolyReduction.ReductionBelowMinimum | Source/PipelineGuardian/Private/Analysis/Rules/StaticMesh/FStaticMeshLODPolyReductionRule.cpp:85-99 | a pair is short of the minimum exactly when the lower LOD keeps more than (100 - min) % of the higher one's triangles |
| LodPolyReduction.SeverityForReduction | Source/PipelineGuardian/Private/Analysis/Rules/StaticMesh/FStaticMeshLODPolyReductionRule.cpp:246-266 | Error below the error threshold, Info in the band from the warning threshold up to the minimum, Warning otherwise, never Critical |
| LodPolyReduction.ProblematicLodsExact | Source/PipelineGuardian/Private/Analysis/Rules/StaticMesh/FStaticMeshLODPolyReductionRule.cpp:76-106 | the reported LODs are exactly the indices after LOD0 whose pair is short of the minimum, each once, ascending |
| LodPolyReduction.AppendSegment | Source/PipelineGuardian/Private/Analysis/Rules/StaticMesh/FStaticMeshLODPolyReductionRule.cpp:126-131 | appending a segment with "; " only after a non-empty description extends the "; "-join of the segments |
| LodPolyReduction.VisitPair | Source/PipelineGuardian/Private/Analysis/Rules/StaticMesh/FStaticMeshLODPolyReductionRule.cpp:76-134 | one pass of the pair loop keeps the collected LODs and description in step with the problematic prefix, and replaces the tracked WorstSeverity only by a pair severity with a larger ordinal, as written |
| LodPolyReduction.CollectReductionIssues | Source/PipelineGuardian/Private/Analysis/Rules/StaticMesh/FStaticMeshLODPolyReductionRule.cpp:69-140 | the pair loop collects exactly the problematic LODs, joins their segments with "; ", and ends with WorstSeverity as written, which is Info |
| LodPolyReduction.ReadThresholds | Source/PipelineGuardian/Private/Analysis/Rules/StaticMesh/FStaticMeshLODPolyReductionRule.cpp:44-46 | without a config the thresholds are the parsed defaults 30, 20 and 10 |
| LodPolyReduction.Check | Source/PipelineGuardian/Private/Analysis/Rules/StaticMesh/FStaticMeshLODPolyReductionRule.cpp:21-179 | the rule's Check, step by step, returns what Evaluate specifies, severity as written |
| LodPolyReduction.EvaluateReports | Source/PipelineGuardian/Private/Analysis/Rules/StaticMesh/FStaticMeshLODPolyReductionRule.cpp:48-178 | with the rule enabled and two LODs, an issue is found exactly when some pair is short of the minimum; then one result at Info, on the asset with the package name as path, lists the problematic LODs and has the fix-all command exactly when the mesh can be reduced |
| LodPolyReduction.EvaluateQuiet | Source/PipelineGuardian/Private/Analysis/Rules/StaticMesh/FStaticMeshLODPolyReductionRule.cpp:23-53 | nothing is reported without a mesh or profile, for a disabled rule, or below two LODs |
| LodPolyReduction.TargetTriangles | Source/PipelineGuardian/Private/Analysis/Rules/StaticMesh/FStaticMeshLODPolyReductionRule.cpp:450-456 | an LOD's target is at least 4 and at least the reduced previous target |
| LodPolyReduction.TargetFraction | Source/PipelineGuardian/Private/Analysis/Rules/StaticMesh/FStaticMeshLODPolyReductionRule.cpp:458-460 | the target fraction of LOD0 is clamped to [0.01, 1.0] |
| LodPolyReduction.TargetNotAbovePrevious | Source/PipelineGuardian/Private/Analysis/Rules/StaticMesh/FStaticMeshLODPolyReductionRule.cpp:450-456 | for a reduction between 0 and 100 the target never exceeds the previous target |
| LodPolyReduction.PlannedReduction | Source/PipelineGuardian/Private/Analysis/Rules/StaticMesh/FStaticMeshLODPolyReductionRule.cpp:466-477 | both percentages are the target fraction and the reduction starts from LOD0 |
| LodPolyReduction.FixAllLodReductionSettings | Source/PipelineGuardian/Private/Analysis/Rules/StaticMesh/FStaticMeshLODPolyReductionRule.cpp:398-495 | an empty problem list or no reduction interface leaves the mesh as it is; otherwise each LOD after LOD0 with a source model gets the planned settings and nothing else changes |
| LodPolyReduction.VerifyReductions | Source/PipelineGuardian/Private/Analysis/Rules/StaticMesh/FStaticMeshLODPolyReductionRule.cpp:500-522 | success exactly when every rebuilt LOD is within 5 % of the target reduction from its predecessor; one reduction per LOD after LOD0 |
| LodPolyReduction.WorstSeverityAsWrittenIsInfo | Source/PipelineGuardian/Private/Analysis/Rules/StaticMesh/FStaticMeshLODPolyReductionRule.cpp:72-113 | as written, the tracked severity is Info whatever the pairs |
| LodPolyReduction.ErrorBandReportedAsInfo | Source/PipelineGuardian/Private/Analysis/Rules/StaticMesh/FStaticMeshLODPolyReductionRule.cpp:72-113 | two 100-triangle LODs under the default thresholds lie in the error band but are reported as Info |
| LodPolyReduction.MostSevereExact | Source/PipelineGuardian/Private/Analysis/Rules/StaticMesh/FStaticMeshLODPolyReductionRule.cpp:108-113 | the corrected severity is at least as severe as every problematic pair's and is one of them, Info when there is none |
| LodPolyReduction.EvaluateCorrectedReports | Source/PipelineGuardian/Private/Analysis/Rules/StaticMesh/FStaticMeshLODPolyReductionRule.cpp:72-113 | the corrected outcome is Check's outcome with only the severity changed, to one at least as severe as every problematic pair's and equal to one of them |
| UvOverlapping.OverlapLength | Source/PipelineGuardian/Private/Analysis/Rules/StaticMesh/FStaticMeshUVOverlappingRule.cpp:304-316 | the overlap of two intervals is never negative |
| UvOverlapping.OverlapsSymmetric | Source/PipelineGuardian/Private/Analysis/Rules/StaticMesh/FStaticMeshUVOverlappingRule.cpp:304-316 | whether two boxes overlap does not depend on which one asks |
| UvOverlapping.SeparatedNeverOverlap | Source/PipelineGuardian/Private/Analysis/Rules/StaticMesh/FStaticMeshUVOverlappingRule.cpp:304-316 | boxes apart on one axis never overlap, whatever the non-negative tolerance |
| UvOverlapping.CornerBoundsContain | Source/PipelineGuardian/Private/Analysis/Rules/StaticMesh/FStaticMeshUVOverlappingRule.cpp:252-277 | every corner visited so far lies inside the box being widened |
| UvOverlapping.TriangleBoundsContainCorners | Source/PipelineGuardian/Private/Analysis/Rules/StaticMesh/FStaticMeshUVOverlappingRule.cpp:236-278 | a triangle's box contains the UVs of all its corners and names the triangle |
| UvOverlapping.GetTriangleUvBounds | Source/PipelineGuardian/Private/Analysis/Rules/StaticMesh/FStaticMeshUVOverlappingRule.cpp:236-278 | the vertex-instance walk from (MAX_flt, MAX_flt)-(-MAX_flt, -MAX_flt) yields the triangle's box |
| UvOverlapping.KeptBoundsSound | Source/PipelineGuardian/Private/Analysis/Rules/StaticMesh/FStaticMeshUVOverlappingRule.cpp:222-231 | every kept box is its own triangle's box and has a positive area |
| UvOverlapping.KeptBoundsAscending | Source/PipelineGuardian/Private/Analysis/Rules/StaticMesh/FStaticMeshUVOverlappingRule.cpp:222-231 | the kept boxes are in strictly ascending triangle order |
| UvOverlapping.KeptBoundsComplete | Source/PipelineGuardian/Private/Analysis/Rules/StaticMesh/FStaticMeshUVOverlappingRule.cpp:222-231 | every triangle whose box has a positive area is kept |
| UvOverlapping.BuildTriangleUvBounds | Source/PipelineGuardian/Private/Analysis/Rules/StaticMesh/FStaticMeshUVOverlappingRule.cpp:203-234 | the loop builds exactly the kept boxes of the channel |
| UvOverlapping.VisitOverlapPair | Source/PipelineGuardian/Private/Analysis/Rules/StaticMesh/FStaticMeshUVOverlappingRule.cpp:289-300 | one inner step adds box i's triangle on its first overlap and box j's on every overlap, each only once |
| UvOverlapping.DetectRow | Source/PipelineGuardian/Private/Analysis/Rules/StaticMesh/FStaticMeshUVOverlappingRule.cpp:285-301 | after row i every box overlapping box i has added its triangle, and box i's too, without duplicates |
| UvOverlapping.DetectOverlappingTriangles | Source/PipelineGuardian/Private/Analysis/Rules/StaticMesh/FStaticMeshUVOverlappingRule.cpp:280-302 | the list holds, once each, exactly the triangles whose box overlaps some other box |
| UvOverlapping.OverlappingAreaBounded | Source/PipelineGuardian/Private/Analysis/Rules/StaticMesh/FStaticMeshUVOverlappingRule.cpp:318-344 | with no negative box the listed area lies between 0 and the total area |
| UvOverlapping.OverlapPercentageInRange | Source/PipelineGuardian/Private/Analysis/Rules/StaticMesh/FStaticMeshUVOverlappingRule.cpp:318-344 | for boxes of non-negative area the percentage lies in [0, 100] |
| UvOverlapping.CalculateOverlapPercentage | Source/PipelineGuardian/Private/Analysis/Rules/StaticMesh/FStaticMeshUVOverlappingRule.cpp:318-344 | the two summing loops give the listed share of the total area, 0 when the total is not positive |
| UvOverlapping.SimilarCount | Source/PipelineGuardian/Private/Analysis/Rules/StaticMesh/FStaticMeshUVOverlappingRule.cpp:176-183 | box 0 is never counted as similar to itself, so at most N - 1 boxes are counted |
| UvOverlapping.CountSimilarBounds | Source/PipelineGuardian/Private/Analysis/Rules/StaticMesh/FStaticMeshUVOverlappingRule.cpp:171-183 | the loop counts the boxes after the first with nearly the first one's size |
| UvOverlapping.SimilarityRatio | Source/PipelineGuardian/Private/Analysis/Rules/StaticMesh/FStaticMeshUVOverlappingRule.cpp:186 | the similarity ratio lies in [0, 1) |
| UvOverlapping.FlaggedNeedsSix | Source/PipelineGuardian/Private/Analysis/Rules/StaticMesh/FStaticMeshUVOverlappingRule.cpp:171-187 | a channel is flagged exactly when it has more than four boxes and five times the similar count exceeds four times the box count; so at least six boxes |
| UvOverlapping.ShouldCheckUvChannel | Source/PipelineGuardian/Private/Analysis/Rules/StaticMesh/FStaticMeshUVOverlappingRule.cpp:529-546 | without a profile channels 0 and 1; with one, the CheckUVChannel parameters; never a channel above 3 |
| UvOverlapping.DefaultChannels | Source/PipelineGuardian/Private/Analysis/Rules/StaticMesh/FStaticMeshUVOverlappingRule.cpp:538-545 | a profile without parameters for the rule checks channels 0 and 1 only |
| UvOverlapping.ToleranceForChannel | Source/PipelineGuardian/Private/Analysis/Rules/StaticMesh/FStaticMeshUVOverlappingRule.cpp:510-527 | with a profile the tolerance is clamped to [0.0001, 0.01]; without one it is 0.001, 0.0005 or 0.002 by channel |
| UvOverlapping.SeverityForPercentage | Source/PipelineGuardian/Private/Analysis/Rules/StaticMesh/FStaticMeshUVOverlappingRule.cpp:573-584 | Error above the error threshold, Warning above the warning threshold, Info otherwise, both strict |
| UvOverlapping.DetermineOverlapSeverity | Source/PipelineGuardian/Private/Analysis/Rules/StaticMesh/FStaticMeshUVOverlappingRule.cpp:383-394 | Warning without a profile; otherwise the texture bands, never the lightmap ones |
| UvOverlapping.ChannelOverlapBounds | Source/PipelineGuardian/Private/Analysis/Rules/StaticMesh/FStaticMeshUVOverlappingRule.cpp:137-201 | a channel is reported exactly when the heuristic flags it; it then names the channel, at least five triangles and a percentage strictly between 80 and 100 |
| UvOverlapping.CheckSimilarity | Source/PipelineGuardian/Private/Analysis/Rules/StaticMesh/FStaticMeshUVOverlappingRule.cpp:171-198 | the heuristic's loop and ratio produce the specified overlap info |
| UvOverlapping.AnalyzeUvChannelOverlaps | Source/PipelineGuardian/Private/Analysis/Rules/StaticMesh/FStaticMeshUVOverlappingRule.cpp:137-201 | builds the boxes, runs the pairwise detection (used only for a log line) and returns what the heuristic reports |
| UvOverlapping.ChannelOverlapsChannels | Source/PipelineGuardian/Private/Analysis/Rules/StaticMesh/FStaticMeshUVOverlappingRule.cpp:111-132 | every reported channel is one of 0..3, selected by the profile, present in the mesh, and carries its channel's overlap info |
| UvOverlapping.AnalyzeMeshUvOverlaps | Source/PipelineGuardian/Private/Analysis/Rules/StaticMesh/FStaticMeshUVOverlappingRule.cpp:95-135 | channels 0..7 are visited, skipping unselected and absent channels |
| UvOverlapping.Check | Source/PipelineGuardian/Private/Analysis/Rules/StaticMesh/FStaticMeshUVOverlappingRule.cpp:27-83 | the rule's Check, step by step, returns what Evaluate specifies |
| UvOverlapping.OverlapResultsShape | Source/PipelineGuardian/Private/Analysis/Rules/StaticMesh/FStaticMeshUVOverlappingRule.cpp:60-76 | one result per reported channel with overlapping triangles, none with a fix, each graded with the texture bands |
| UvOverlapping.EvaluateVerdicts | Source/PipelineGuardian/Private/Analysis/Rules/StaticMesh/FStaticMeshUVOverlappingRule.cpp:27-83 | success with no results for a disabled rule, failure without a profile, mesh or mesh description, and no result ever carries a fix |
| LightmapUv.ParseSeverity | Source/PipelineGuardian/Private/Analysis/Rules/StaticMesh/FStaticMeshLightmapUVMissingRule.cpp:46-54 | "Error" and "Info" in any case select those severities; every other text selects Warning, never Critical |
| LightmapUv.ParseStrategy | Source/PipelineGuardian/Private/Analysis/Rules/StaticMesh/FStaticMeshLightmapUVMissingRule.cpp:59-67 | "PreferredChannel" and "ForceChannel1", compared exactly, select those strategies; anything else is NextAvailable |
| LightmapUv.ReadParams | Source/PipelineGuardian/Private/Analysis/Rules/StaticMesh/FStaticMeshLightmapUVMissingRule.cpp:42-57 | the four parameters are read with defaults Warning, true, NextAvailable and 1 and parsed |
| LightmapUv.DefaultParams | Source/PipelineGuardian/Private/Analysis/Rules/StaticMesh/FStaticMeshLightmapUVMissingRule.cpp:42-57 | without a config the rule uses Warning, NextAvailable and allows the fix |
| LightmapUv.ParseSeverityIgnoresCase | Source/PipelineGuardian/Private/Analysis/Rules/StaticMesh/FStaticMeshLightmapUVMissingRule.cpp:46-54 | texts equal up to case select the same severity |
| LightmapUv.SeverityNameParses | Source/PipelineGuardian/Private/Analysis/Rules/StaticMesh/FStaticMeshLightmapUVMissingRule.cpp:46-54 | the severity text the sync writes parses back to the severity, Critical reading as Warning |
| LightmapUv.SyncedParamsReadBack | Source/PipelineGuardian/Private/Analysis/Rules/StaticMesh/FStaticMeshLightmapUVMissingRule.cpp:42-67 | after the quick-settings sync the rule reads back the quick severity, fix flag, strategy and preferred channel |
| LightmapUv.SyncedConfigReadBack | Source/PipelineGuardian/Private/Analysis/Rules/StaticMesh/FStaticMeshLightmapUVMissingRule.cpp:42-67 | the synced config's parameters parse back to the quick settings |
| LightmapUv.SyncedConfigParameters | Source/PipelineGuardian/Private/Core/FPipelineGuardianSettings.cpp:225-260 | the sync writes the four parameters the rule reads |
| LightmapUv.UvChannelCount | Source/PipelineGuardian/Private/Analysis/Rules/StaticMesh/FStaticMeshLightmapUVMissingRule.cpp:184-193 | no render data means no channels; otherwise LOD0's texture-coordinate count |
| LightmapUv.IsUvChannelValid | Source/PipelineGuardian/Private/Analysis/Rules/StaticMesh/FStaticMeshLightmapUVMissingRule.cpp:195-232 | the sampling loop over at most 100 vertices finds a non-zero UV exactly when the channel has UVs |
| LightmapUv.HasValidUvData | Source/PipelineGuardian/Private/Analysis/Rules/StaticMesh/FStaticMeshLightmapUVMissingRule.cpp:351-398 | the sampling loop over at most 10 vertices reports the channel occupied exactly when more than half have a UV that is not nearly zero |
| LightmapUv.OccupiedHasUvs | Source/PipelineGuardian/Private/Analysis/Rules/StaticMesh/FStaticMeshLightmapUVMissingRule.cpp:195-232 | an occupied channel also counts as holding UVs, and its LOD has vertices |
| LightmapUv.FindNextAvailableUvChannel | Source/PipelineGuardian/Private/Analysis/Rules/StaticMesh/FStaticMeshLightmapUVMissingRule.cpp:329-349 | the scan answers the first free channel from the start, or the start itself when none up to 7 is free |
| LightmapUv.FirstAvailableUnique | Source/PipelineGuardian/Private/Analysis/Rules/StaticMesh/FStaticMeshLightmapUVMissingRule.cpp:329-349 | the scan's answer is unique |
| LightmapUv.DetermineOptimalLightmapUvChannel | Source/PipelineGuardian/Private/Analysis/Rules/StaticMesh/FStaticMeshLightmapUVMissingRule.cpp:287-327 | the answer is the strategy's channel: NextAvailable searches from 1; PreferredChannel keeps a free preferred channel and otherwise searches from the next; ForceChannel1 answers 1 |
| LightmapUv.OptimalChannelUnique | Source/PipelineGuardian/Private/Analysis/Rules/StaticMesh/FStaticMeshLightmapUVMissingRule.cpp:287-327 | each strategy determines a single channel |
| LightmapUv.EnableGenerateLightmapUvs | Source/PipelineGuardian/Private/Analysis/Rules/StaticMesh/FStaticMeshLightmapUVMissingRule.cpp:246-285 | LOD0 generates lightmap UVs at resolution 64 from channel 0 into the destination clamped to [1, 7], and the coordinate index follows; nothing else changes |
| LightmapUv.ApplyFix | Source/PipelineGuardian/Private/Analysis/Rules/StaticMesh/FStaticMeshLightmapUVMissingRule.cpp:137-144 | the fix enables generation into the channel the strategy chooses (clamped to [1, 7]) and returns that channel; channel 1 under ForceChannel1 |
| LightmapUv.DiagnoseCases | Source/PipelineGuardian/Private/Analysis/Rules/StaticMesh/FStaticMeshLightmapUVMissingRule.cpp:75-122 | a mesh is fine exactly when it generates UVs, its index is negative, or it names an existing non-zero channel with UVs; each of the three problems is characterised |
| LightmapUv.Check | Source/PipelineGuardian/Private/Analysis/Rules/StaticMesh/FStaticMeshLightmapUVMissingRule.cpp:19-158 | the rule's Check, step by step, returns what Evaluate specifies |
| LightmapUv.EvaluateReports | Source/PipelineGuardian/Private/Analysis/Rules/StaticMesh/FStaticMeshLightmapUVMissingRule.cpp:42-158 | with the rule enabled an issue is found exactly when Diagnose finds a problem; one result with the parsed severity, its fix bound exactly when auto generation is allowed |
| LightmapUv.EvaluateQuiet | Source/PipelineGuardian/Private/Analysis/Rules/StaticMesh/FStaticMeshLightmapUVMissingRule.cpp:21-82 | nothing is reported without a mesh or profile, for a disabled rule, or when generation is on |
| LightmapUv.FixResolves | Source/PipelineGuardian/Private/Analysis/Rules/StaticMesh/FStaticMeshLightmapUVMissingRule.cpp:246-285 | after the fix the mesh generates lightmap UVs, so a second check finds nothing |
| LodMissing.SeverityFor | Source/PipelineGuardian/Private/Analysis/Rules/StaticMesh/FStaticMeshLODMissingRule.cpp:53-64 | Error exactly when only the base LOD exists or fewer than half (rounded down) of the required LODs exist; Warning otherwise |
| LodMissing.EvaluateReports | Source/PipelineGuardian/Private/Analysis/Rules/StaticMesh/FStaticMeshLODMissingRule.cpp:46-99 | with the rule enabled an issue is found exactly when the LOD count is below the minimum; one result whose fix, bound exactly when LODs can be generated, generates up to the minimum |
| LodMissing.EvaluateQuiet | Source/PipelineGuardian/Private/Analysis/Rules/StaticMesh/FStaticMeshLODMissingRule.cpp:25-45 | nothing is reported without a mesh or profile or for a disabled rule |
| LodMissing.MinimumSources | Source/PipelineGuardian/Private/Analysis/Rules/StaticMesh/FStaticMeshLODMissingRule.cpp:48 | three LODs are required without a config, and the quick setting after a sync |
| LodMissing.LodReduction | Source/PipelineGuardian/Private/Analysis/Rules/StaticMesh/FStaticMeshLODMissingRule.cpp:205-215 | the reduction from the previous LOD is the configured one where it exists, the minimum otherwise |
| LodMissing.QualityTarget | Source/PipelineGuardian/Private/Analysis/Rules/StaticMesh/FStaticMeshLODMissingRule.cpp:217-239 | in quality mode an LOD's target is at least 4 and at least the reduced previous count |
| LodMissing.PlannedFraction | Source/PipelineGuardian/Private/Analysis/Rules/StaticMesh/FStaticMeshLODMissingRule.cpp:241-257 | the fraction of LOD0 written for an LOD always lies in [0.01, 1.0] |
| LodMissing.PlannedModel | Source/PipelineGuardian/Private/Analysis/Rules/StaticMesh/FStaticMeshLODMissingRule.cpp:259-274 | a new source model reduces from LOD0 with equal triangle and vertex fractions, under default build settings |
| LodMissing.PlannedModelsAt | Source/PipelineGuardian/Private/Analysis/Rules/StaticMesh/FStaticMeshLODMissingRule.cpp:198-280 | the k-th appended source model is the one planned for LOD start + k |
| LodMissing.ChainFromBase | Source/PipelineGuardian/Private/Analysis/Rules/StaticMesh/FStaticMeshLODMissingRule.cpp:224-234 | the previous-LOD loop for a missing LOD computes the chained expectation from LOD0 |
| LodMissing.TargetPercentage | Source/PipelineGuardian/Private/Analysis/Rules/StaticMesh/FStaticMeshLODMissingRule.cpp:200-257 | the loop body computes the planned fraction of the LOD |
| LodMissing.GenerateLods | Source/PipelineGuardian/Private/Analysis/Rules/StaticMesh/FStaticMeshLODMissingRule.cpp:149-280 | nothing changes at or above the target or without a reduction interface; otherwise exactly min(target - current, 3) planned source models are appended in LOD order |
| LodMissing.GeneratedModels | Source/PipelineGuardian/Private/Analysis/Rules/StaticMesh/FStaticMeshLODMissingRule.cpp:192-280 | a fix adds between one and three source models, each reducing from LOD0 with equal fractions in [0.01, 1.0], after the existing ones |
| LodMissing.HalfPowerFloor | Source/PipelineGuardian/Private/Analysis/Rules/StaticMesh/FStaticMeshLODMissingRule.cpp:250 | 0.5 to the power n is at least 1/64 up to n = 6 |
| LodMissing.HalfPowerCeiling | Source/PipelineGuardian/Private/Analysis/Rules/StaticMesh/FStaticMeshLODMissingRule.cpp:250 | 0.5 to the power n is at most 1/128 from n = 7 on |
| LodMissing.StandardModeHalves | Source/PipelineGuardian/Private/Analysis/Rules/StaticMesh/FStaticMeshLODMissingRule.cpp:247-257 | in standard mode each generated LOD has half the previous fraction up to LOD6; from LOD7 on the clamp holds it at 1 % |
| LodMissing.QualityTargetNotAbovePrevious | Source/PipelineGuardian/Private/Analysis/Rules/StaticMesh/FStaticMeshLODMissingRule.cpp:237-239 | in quality mode a reduction between 0 and 100 never plans more triangles than the previous LOD has |
| Naming.ReplaceChar | Source/PipelineGuardian/Private/Analysis/Rules/StaticMesh/FStaticMeshNamingRule.cpp:109-123 | replacing a character that does not occur leaves the text alone |
| Naming.ReplaceCharConcat | Source/PipelineGuardian/Private/Analysis/Rules/StaticMesh/FStaticMeshNamingRule.cpp:109-123 | replacement works piecewise over a concatenation |
| Naming.ConvertPatternToRegex | Source/PipelineGuardian/Private/Analysis/Rules/StaticMesh/FStaticMeshNamingRule.cpp:104-129 | the converted pattern is anchored by ^ and $ |
| Naming.TranslateChar | Source/PipelineGuardian/Private/Analysis/Rules/StaticMesh/FStaticMeshNamingRule.cpp:109-123 | one pattern character translates to a non-empty text not starting with '*' |
| Naming.EscapeEachChar | Source/PipelineGuardian/Private/Analysis/Rules/StaticMesh/FStaticMeshNamingRule.cpp:109-119 | a character is escaped exactly when it is one of the escaped characters |
| Naming.EscapeCharsShape | Source/PipelineGuardian/Private/Analysis/Rules/StaticMesh/FStaticMeshNamingRule.cpp:109-119 | the escaped characters are distinct and include neither the backslash nor a wildcard |
| Naming.WildcardsToRegexChar | Source/PipelineGuardian/Private/Analysis/Rules/StaticMesh/FStaticMeshNamingRule.cpp:109-123 | one character passes through the chain of replacements as the translation says |
| Naming.WildcardsToRegexIsTranslate | Source/PipelineGuardian/Private/Analysis/Rules/StaticMesh/FStaticMeshNamingRule.cpp:109-123 | the chain of replacements equals the character-by-character translation |
| Naming.TranslateMatches | Source/PipelineGuardian/Private/Analysis/Rules/StaticMesh/FStaticMeshNamingRule.cpp:92-129 | the translation of a backslash-free pattern matches exactly what the pattern matches |
| Naming.MatchIsWildcard | Source/PipelineGuardian/Private/Analysis/Rules/StaticMesh/FStaticMeshNamingRule.cpp:92-102 | for a backslash-free pattern the regular expression accepts a name exactly when the wildcard pattern matches it |
| Naming.FirstIndex | Source/PipelineGuardian/Private/Analysis/Rules/StaticMesh/FStaticMeshNamingRule.cpp:139 | Find answers the first occurrence of the character, none exactly when it is absent |
| Naming.Prefix | Source/PipelineGuardian/Private/Analysis/Rules/StaticMesh/FStaticMeshNamingRule.cpp:139 | the text before the first '*' is a prefix of the pattern without '*' |
| Naming.GenerateSuggestedName | Source/PipelineGuardian/Private/Analysis/Rules/StaticMesh/FStaticMeshNamingRule.cpp:131-152 | without '*' the pattern itself; a name already starting with the prefix is kept; otherwise every '*' is replaced by the name |
| Naming.ReplacedMatches | Source/PipelineGuardian/Private/Analysis/Rules/StaticMesh/FStaticMeshNamingRule.cpp:146 | replacing every '*' of a pattern by any text gives a name the pattern matches |
| Naming.SuggestionMatches | Source/PipelineGuardian/Private/Analysis/Rules/StaticMesh/FStaticMeshNamingRule.cpp:131-152 | a suggestion built by replacement, or a '*'-free pattern, matches the pattern |
| Naming.CaseOnlySuggestionFails | Source/PipelineGuardian/Private/Analysis/Rules/StaticMesh/FStaticMeshNamingRule.cpp:139-142 | "sm_Rock" under "SM_*" is suggested unchanged and still fails the pattern |
| Naming.EvaluateReports | Source/PipelineGuardian/Private/Analysis/Rules/StaticMesh/FStaticMeshNamingRule.cpp:41-79 | with the rule enabled and a backslash-free pattern, an issue is found exactly when the name fails the pattern; one Warning with the rename to the suggested name |
| Naming.EvaluateQuiet | Source/PipelineGuardian/Private/Analysis/Rules/StaticMesh/FStaticMeshNamingRule.cpp:20-40 | nothing is reported without a mesh or profile or for a disabled rule |
| Naming.RenameTarget | Source/PipelineGuardian/Private/Analysis/Rules/StaticMesh/FStaticMeshNamingRule.cpp:176-182 | the rename target lies in the package's directory |
| Naming.RenameKeepsDirectory | Source/PipelineGuardian/Private/Analysis/Rules/StaticMesh/FStaticMeshNamingRule.cpp:176-182 | a rename to a name without '/' keeps the asset's directory |
| MaterialSlot.EmptySlotsExact | Source/PipelineGuardian/Private/Analysis/Rules/StaticMesh/FStaticMeshMaterialSlotRule.cpp:118-137 | the collected indices are ascending, in range, and list a slot exactly when it has no material; the list is non-empty exactly when some slot is empty |
| MaterialSlot.HasEmptyMaterialSlots | Source/PipelineGuardian/Private/Analysis/Rules/StaticMesh/FStaticMeshMaterialSlotRule.cpp:118-137 | the loop's result is the list of empty slot positions, and the flag is set exactly when that list is non-empty |
| MaterialSlot.IndexTexts | Source/PipelineGuardian/Private/Analysis/Rules/StaticMesh/FStaticMeshMaterialSlotRule.cpp:153-161 | one decimal text per listed index, in order |
| MaterialSlot.GenerateMaterialSlotDescription | Source/PipelineGuardian/Private/Analysis/Rules/StaticMesh/FStaticMeshMaterialSlotRule.cpp:139-182 | the text built step by step is the description of the count and empty-slot clauses |
| MaterialSlot.DescriptionHeader | Source/PipelineGuardian/Private/Analysis/Rules/StaticMesh/FStaticMeshMaterialSlotRule.cpp:139-182 | with a count or empty-slot issue the description starts with the mesh name and slot count; otherwise it is the fallback text |
| MaterialSlot.Check | Source/PipelineGuardian/Private/Analysis/Rules/StaticMesh/FStaticMeshMaterialSlotRule.cpp:14-95 | the method's outcome is the rule's evaluation of the asset, whose results leave the path empty as the results built at lines 67 do |
| MaterialSlot.EvaluateReports | Source/PipelineGuardian/Private/Analysis/Rules/StaticMesh/FStaticMeshMaterialSlotRule.cpp:14-95 | an issue is found exactly when the slot count reaches the warning threshold or some slot is empty; Error from the error threshold on, Warning between thresholds, empty slots alone raise Info to Warning; the fix is bound exactly when allowed, the mesh has geometry and there are empty slots, and removes those slots |
| MaterialSlot.EvaluateQuiet | Source/PipelineGuardian/Private/Analysis/Rules/StaticMesh/FStaticMeshMaterialSlotRule.cpp:16-26 | nothing is reported without a mesh or with the rule switched off |
| MaterialSlot.RemovedStep | Source/PipelineGuardian/Private/Analysis/Rules/StaticMesh/FStaticMeshMaterialSlotRule.cpp:197-205 | one step of the reverse loop removes the entry at the current index before the earlier ones |
| MaterialSlot.RemoveListedSlots | Source/PipelineGuardian/Private/Analysis/Rules/StaticMesh/FStaticMeshMaterialSlotRule.cpp:197-205 | the loop from the last listed index down to the first, skipping out-of-range ones, yields the reverse removal |
| MaterialSlot.OptimizeMaterialSlots | Source/PipelineGuardian/Private/Analysis/Rules/StaticMesh/FStaticMeshMaterialSlotRule.cpp:184-217 | fails for an empty index list; otherwise the mesh's slot list is replaced by the list with the listed slots removed, and nothing else changes |
| MaterialSlot.RemovedIsSurvivors | Source/PipelineGuardian/Private/Analysis/Rules/StaticMesh/FStaticMeshMaterialSlotRule.cpp:196-205 | removing ascending in-range indices from the highest down leaves exactly the slots at unlisted positions, in their original order (why the source removes in reverse) |
| MaterialSlot.SurvivorsFilled | Source/PipelineGuardian/Private/Analysis/Rules/StaticMesh/FStaticMeshMaterialSlotRule.cpp:196-205 | when every empty slot is listed, every remaining slot holds a material |
| MaterialSlot.FixResolves | Source/PipelineGuardian/Private/Analysis/Rules/StaticMesh/FStaticMeshMaterialSlotRule.cpp:68-84 | applying the bound fix leaves the slots that held materials, in order, no empty slot remains, and the rule then reports only for the slot count |
| TriangleCount.Threshold | Source/PipelineGuardian/Private/Analysis/Rules/StaticMesh/FStaticMeshTriangleCountRule.cpp:65-66 | the threshold is the base raised by the percentage of itself, rounded to the nearest whole triangle |
| TriangleCount.SeverityMonotone | Source/PipelineGuardian/Private/Analysis/Rules/StaticMesh/FStaticMeshTriangleCountRule.cpp:117-129 | a larger triangle count never gets a less severe verdict |
| TriangleCount.ThresholdsOrdered | Source/PipelineGuardian/Private/Analysis/Rules/StaticMesh/FStaticMeshTriangleCountRule.cpp:65-66 | with a non-negative base, a smaller warning percentage gives a warning threshold no higher than the error threshold |
| TriangleCount.EvaluateReports | Source/PipelineGuardian/Private/Analysis/Rules/StaticMesh/FStaticMeshTriangleCountRule.cpp:27-92 | with the rule enabled in profile and settings, an issue is found exactly when LOD0 has triangles and reaches a threshold; one result, Error exactly from the error threshold on, Warning otherwise, never with a fix |
| TriangleCount.EvaluateQuiet | Source/PipelineGuardian/Private/Analysis/Rules/StaticMesh/FStaticMeshTriangleCountRule.cpp:29-57 | nothing is reported without a mesh or profile, with the rule disabled in either place, or for an empty LOD0 |
| Nanite.EvaluateReports | Source/PipelineGuardian/Private/Analysis/Rules/StaticMesh/FStaticMeshNaniteSuitabilityRule.cpp:14-85 | an issue is found exactly when Nanite is off on a mesh at or above the suitability threshold (Warning) or on for a mesh at or below the disable threshold (Info); the fix is bound exactly when allowed and LOD0 has at most one million triangles, and sets Nanite to the recommendation |
| Nanite.EvaluateQuiet | Source/PipelineGuardian/Private/Analysis/Rules/StaticMesh/FStaticMeshNaniteSuitabilityRule.cpp:14-40 | nothing is reported without a mesh, with the rule switched off, or without render data |
| Nanite.OptimizeNaniteSettings | Source/PipelineGuardian/Private/Analysis/Rules/StaticMesh/FStaticMeshNaniteSuitabilityRule.cpp:136-163 | the enabled flag becomes the recommendation; enabling also turns on area preservation and off explicit tangents; nothing else in the mesh changes |
| Nanite.FixOutcome | Source/PipelineGuardian/Private/Analysis/Rules/StaticMesh/FStaticMeshNaniteSuitabilityRule.cpp:136-163 | after the fix the rule reports again exactly when the mesh lies at both the suitability and the disable threshold |
| Nanite.FixResolves | Source/PipelineGuardian/Private/Analysis/Rules/StaticMesh/FStaticMeshNaniteSuitabilityRule.cpp:136-163 | with the disable threshold below the suitability threshold the fix resolves the issue |
| CollisionComplexity.EvaluateReports | Source/PipelineGuardian/Private/Analysis/Rules/StaticMesh/FStaticMeshCollisionComplexityRule.cpp:16-98 | an issue is found exactly when a body setup with more than ten primitives reaches a threshold, so counts from 11 up to the warning threshold raise nothing; Error exactly from the error threshold on, Warning otherwise; the simplification fix is bound exactly when allowed and the mesh has geometry |
| CollisionComplexity.EvaluateQuiet | Source/PipelineGuardian/Private/Analysis/Rules/StaticMesh/FStaticMeshCollisionComplexityRule.cpp:16-35 | nothing is reported without a mesh, with the rule switched off, or with at most ten primitives |
| CollisionMissing.DescriptionSeverity | Source/PipelineGuardian/Private/Analysis/Rules/StaticMesh/FStaticMeshCollisionMissingRule.cpp:129-140 | the description opens with CRITICAL exactly for Error and with WARNING otherwise |
| CollisionMissing.EvaluateReports | Source/PipelineGuardian/Private/Analysis/Rules/StaticMesh/FStaticMeshCollisionMissingRule.cpp:16-88 | an issue is found exactly when the body setup is absent, has no elements or uses the NoCollision profile; the severity is the configured one; the fix is bound exactly when allowed and LOD0 has at most 50,000 triangles, and otherwise the description ends with the auto-fix-disabled note |
| CollisionMissing.EvaluateQuiet | Source/PipelineGuardian/Private/Analysis/Rules/StaticMesh/FStaticMeshCollisionMissingRule.cpp:16-30 | nothing is reported without a mesh, with the rule switched off, or with collision present |
| CollisionMissing.ApplyGenerateCollision | Source/PipelineGuardian/Private/Analysis/Rules/StaticMesh/FStaticMeshCollisionMissingRule.cpp:142-210 | the body setup, created when absent, gets the BlockAll profile; it holds the cooked primitives, or else one bounding box when LOD data exists; generation succeeds exactly when it leaves a primitive; nothing else in the mesh changes |
| CollisionMissing.FixResolves | Source/PipelineGuardian/Private/Analysis/Rules/StaticMesh/FStaticMeshCollisionMissingRule.cpp:56-64 | whenever the fix is bound, generation succeeds whatever cooking produces, collision is no longer missing and the rule reports nothing |
| DegenerateFaces.EstimatedDegenerateFaces | Source/PipelineGuardian/Private/Analysis/Rules/StaticMesh/FStaticMeshDegenerateFacesRule.cpp:104-145 | the estimate is positive exactly when LOD0 has triangles and vertices and fewer than half as many triangles as vertices; it never exceeds the triangle count and is at most a tenth of it from ten triangles on |
| DegenerateFaces.RatioBelowHalf | Source/PipelineGuardian/Private/Analysis/Rules/StaticMesh/FStaticMeshDegenerateFacesRule.cpp:130-136 | for positive counts the ratio test below one half is the integer test twice the triangles below the vertices |
| DegenerateFaces.PercentageOfEstimate | Source/PipelineGuardian/Private/Analysis/Rules/StaticMesh/FStaticMeshDegenerateFacesRule.cpp:130-145 | the estimated percentage lies in (0, 100], is at most 10 from ten triangles on and above 10 below ten triangles, so thresholds above 10 % can flag only meshes with fewer than ten triangles |
| DegenerateFaces.EvaluateReports | Source/PipelineGuardian/Private/Analysis/Rules/StaticMesh/FStaticMeshDegenerateFacesRule.cpp:15-92 | an issue is found exactly when the estimate is positive and its percentage reaches a threshold; Error exactly from the error threshold on, Warning otherwise, never with a fix |
| DegenerateFaces.EvaluateQuiet | Source/PipelineGuardian/Private/Analysis/Rules/StaticMesh/FStaticMeshDegenerateFacesRule.cpp:15-40 | nothing is reported without a mesh, with the rule switched off, or without LOD data |
| LightmapResolution.RaisedResolution | Source/PipelineGuardian/Private/Analysis/Rules/StaticMesh/FStaticMeshLightmapResolutionRule.cpp:171-196 | the unclamped choice never drops below the minimum and is raised to 8 above 10,000 triangles or area, to 10 above 50,000 triangles or 100,000 area, to 12 above 100,000 triangles, and takes no other value |
| LightmapResolution.CalculateOptimalLightmapResolution | Source/PipelineGuardian/Private/Analysis/Rules/StaticMesh/FStaticMeshLightmapResolutionRule.cpp:158-200 | the result is the minimum without render data and otherwise lies in [min, max] while honouring each raise up to the maximum |
| LightmapResolution.SetOptimalLightmapResolution | Source/PipelineGuardian/Private/Analysis/Rules/StaticMesh/FStaticMeshLightmapResolutionRule.cpp:105-127 | only the lightmap resolution changes, to the computed optimum |
| LightmapResolution.EvaluateReports | Source/PipelineGuardian/Private/Analysis/Rules/StaticMesh/FStaticMeshLightmapResolutionRule.cpp:14-62 | an issue is found exactly when the resolution lies outside [min, max], with the configured severity; the fix is bound exactly when allowed and LOD0 has at most a million triangles |
| LightmapResolution.EvaluateQuiet | Source/PipelineGuardian/Private/Analysis/Rules/StaticMesh/FStaticMeshLightmapResolutionRule.cpp:14-30 | nothing is reported without a mesh, with the rule switched off, or within the range |
| LightmapResolution.DescriptionDirection | Source/PipelineGuardian/Private/Analysis/Rules/StaticMesh/FStaticMeshLightmapResolutionRule.cpp:89-103 | the description says low below the minimum and high above the maximum |
| LightmapResolution.FixResolves | Source/PipelineGuardian/Private/Analysis/Rules/StaticMesh/FStaticMeshLightmapResolutionRule.cpp:105-127 | with min at most max, the fix leaves a resolution in range and the rule reports nothing |
| SocketNaming.MisnamedUpToExact | Source/PipelineGuardian/Private/Analysis/Rules/StaticMesh/FStaticMeshSocketNamingRule.cpp:88-113 | the collected names are those of the sockets lacking the prefix, and the list is empty exactly when every socket has it |
| SocketNaming.MisplacedUpToExact | Source/PipelineGuardian/Private/Analysis/Rules/StaticMesh/FStaticMeshSocketNamingRule.cpp:115-146 | the collected names are those of the sockets farther from the bounds origin than the radius plus the warning distance, and the list is empty exactly when none is |
| SocketNaming.HasInvalidSocketNaming | Source/PipelineGuardian/Private/Analysis/Rules/StaticMesh/FStaticMeshSocketNamingRule.cpp:88-113 | nothing is collected for an empty prefix; otherwise the loop's list is the misnamed sockets, and the flag is set exactly when it is non-empty |
| SocketNaming.HasInvalidSocketTransforms | Source/PipelineGuardian/Private/Analysis/Rules/StaticMesh/FStaticMeshSocketNamingRule.cpp:115-146 | the loop's list is the misplaced sockets, and the flag is set exactly when it is non-empty |
| SocketNaming.GenerateSocketNamingDescription | Source/PipelineGuardian/Private/Analysis/Rules/StaticMesh/FStaticMeshSocketNamingRule.cpp:148-192 | the text built step by step is the description of the naming and transform clauses |
| SocketNaming.Check | Source/PipelineGuardian/Private/Analysis/Rules/StaticMesh/FStaticMeshSocketNamingRule.cpp:15-76 | the method's outcome is the rule's evaluation of the asset, whose results leave the path empty as the results built at lines 49 do |
| SocketNaming.EvaluateReports | Source/PipelineGuardian/Private/Analysis/Rules/StaticMesh/FStaticMeshSocketNamingRule.cpp:15-76 | an issue is found exactly when, with a non-empty prefix, some socket lacks it, or some socket lies too far out; the configured severity; the fix is bound exactly when allowed and the mesh has geometry |
| SocketNaming.EvaluateQuiet | Source/PipelineGuardian/Private/Analysis/Rules/StaticMesh/FStaticMeshSocketNamingRule.cpp:15-35 | nothing is reported without a mesh, with the rule switched off, or without sockets |
| SocketNaming.RenameSockets | Source/PipelineGuardian/Private/Analysis/Rules/StaticMesh/FStaticMeshSocketNamingRule.cpp:206-218 | each socket lacking the prefix gets it prepended, in place and in order |
| SocketNaming.FixSocketIssues | Source/PipelineGuardian/Private/Analysis/Rules/StaticMesh/FStaticMeshSocketNamingRule.cpp:194-253 | the sockets are renamed one by one, nothing else changes, and success is reported |
| SocketNaming.RenamedConforms | Source/PipelineGuardian/Private/Analysis/Rules/StaticMesh/FStaticMeshSocketNamingRule.cpp:206-218 | after renaming every socket name starts with the prefix, conforming names and all locations are kept, and no naming violation is left |
| VertexColor.GenerateVertexColorsSucceeds | Source/PipelineGuardian/Private/Analysis/Rules/StaticMesh/FStaticMeshVertexColorMissingRule.cpp:177-236 | generation succeeds exactly when the mesh description has a colour attribute, since it gives up without a description and cannot register a missing attribute |
| VertexColor.ColorDistSquared | Source/PipelineGuardian/Private/Analysis/Rules/StaticMesh/FStaticMeshVertexColorMissingRule.cpp:313 | the squared distance of two colours is never negative |
| VertexColor.UnusedForColors | Source/PipelineGuardian/Private/Analysis/Rules/StaticMesh/FStaticMeshVertexColorMissingRule.cpp:274-334 | at most one channel is reported: All exactly when no colour has a positive component, Variation exactly when some colour is positive and none differs from the first |
| VertexColor.HasUnusedVertexColorChannels | Source/PipelineGuardian/Private/Analysis/Rules/StaticMesh/FStaticMeshVertexColorMissingRule.cpp:274-334 | the loop's channel list is the specified unused channels of the mesh, and the flag is set exactly when it is non-empty |
| VertexColor.MissingChannels | Source/PipelineGuardian/Private/Analysis/Rules/StaticMesh/FStaticMeshVertexColorMissingRule.cpp:336-369 | channels are reported missing exactly when the required list is non-empty and there is no colour attribute; otherwise none are listed |
| VertexColor.MissingChannelsAreListed | Source/PipelineGuardian/Private/Analysis/Rules/StaticMesh/FStaticMeshVertexColorMissingRule.cpp:345-365 | the channels reported missing are the non-empty, comma-free pieces of the required list, which together spell the list without its commas |
| VertexColor.GenerateUnusedChannelDescription | Source/PipelineGuardian/Private/Analysis/Rules/StaticMesh/FStaticMeshVertexColorMissingRule.cpp:371-382 | the description joins the unused channels with a comma and a space |
| VertexColor.GenerateMissingChannelDescription | Source/PipelineGuardian/Private/Analysis/Rules/StaticMesh/FStaticMeshVertexColorMissingRule.cpp:384-395 | the description joins the missing channels with a comma and a space |
| VertexColor.Check | Source/PipelineGuardian/Private/Analysis/Rules/StaticMesh/FStaticMeshVertexColorMissingRule.cpp:16-127 | the method's outcome is the rule's evaluation of the asset, whose results leave the path empty as the results built at lines 48, 83 and 115 do |
| VertexColor.EvaluateReports | Source/PipelineGuardian/Private/Analysis/Rules/StaticMesh/FStaticMeshVertexColorMissingRule.cpp:16-127 | up to three results, one for each enabled check that fires (missing colours on a large enough LOD0, an unused attribute, missing required channels), in that order; an issue is found exactly when one fires; only the missing-colour result can carry a fix, bound exactly when allowed, LOD0 is small enough and a mesh description exists |
| VertexColor.MissingExcludesUnused | Source/PipelineGuardian/Private/Analysis/Rules/StaticMesh/FStaticMeshVertexColorMissingRule.cpp:139-169 | missing colours and an unused attribute never both fire, nor missing channels and an unused attribute |
| VertexColor.OfferedFixFails | Source/PipelineGuardian/Private/Analysis/Rules/StaticMesh/FStaticMeshVertexColorMissingRule.cpp:194-202 | the fix offered for missing colours is generation, and it can never succeed on a mesh it is offered for |
| VertexColor.EvaluateQuiet | Source/PipelineGuardian/Private/Analysis/Rules/StaticMesh/FStaticMeshVertexColorMissingRule.cpp:16-35 | nothing is reported without a mesh or with all three checks switched off |
| Scaling.NonUniformMeansSideRatio | Source/PipelineGuardian/Private/Analysis/Rules/StaticMesh/FStaticMeshScalingRule.cpp:108-141 | without recomputed normals the scale is non-uniform exactly when every side of the bounding box is positive and some side exceeds the warning ratio times another |
| Scaling.SideExceedsIffExtremes | Source/PipelineGuardian/Private/Analysis/Rules/StaticMesh/FStaticMeshScalingRule.cpp:120-136 | with all sides positive, some side exceeds the ratio times another exactly when the longest exceeds the ratio times the shortest |
| Scaling.HasZeroScale | Source/PipelineGuardian/Private/Analysis/Rules/StaticMesh/FStaticMeshScalingRule.cpp:143-175 | the axes appended one by one are the specified zero-scale axes, and the flag is set exactly when there is one |
| Scaling.ZeroScaleAxesExact | Source/PipelineGuardian/Private/Analysis/Rules/StaticMesh/FStaticMeshScalingRule.cpp:143-175 | an axis is listed exactly when its side is below the threshold, each at most once, in X, Y, Z order |
| Scaling.ZeroScaleWithoutRenderData | Source/PipelineGuardian/Private/Analysis/Rules/StaticMesh/FStaticMeshScalingRule.cpp:227-239 | a mesh without render data and an empty box is reported for zero scale on all three axes, so the unguarded read of LOD0 in the fix-safety test is reachable |
| Scaling.CanSafelyFixScalingAgrees | Source/PipelineGuardian/Private/Analysis/Rules/StaticMesh/FStaticMeshScalingRule.cpp:227-239 | the guarded fix-safety test agrees with the written one wherever that one is defined and declines a mesh without LODs |
| Scaling.FixZeroScaleSucceeds | Source/PipelineGuardian/Private/Analysis/Rules/StaticMesh/FStaticMeshScalingRule.cpp:241-254 | the zero-scale fix always reports failure |
| Scaling.HasExtremeScaleValues | Source/PipelineGuardian/Private/Analysis/Rules/StaticMesh/FStaticMeshScalingRule.cpp:177-205 | the messages appended one by one are the specified extreme-scale messages, and the flag is set exactly when there is one |
| Scaling.ExtremeIssuesExact | Source/PipelineGuardian/Private/Analysis/Rules/StaticMesh/FStaticMeshScalingRule.cpp:177-205 | the large-side message appears exactly when some side exceeds 1000 and the small-side one exactly when some side is below 0.001, large first; a box with sides in [0.001, 1000] has none |
| Scaling.Check | Source/PipelineGuardian/Private/Analysis/Rules/StaticMesh/FStaticMeshScalingRule.cpp:11-96 | the method's outcome is the rule's evaluation of the asset, whose results leave the path empty as the results built at lines 35, 52 and 85 do |
| Scaling.EvaluateReports | Source/PipelineGuardian/Private/Analysis/Rules/StaticMesh/FStaticMeshScalingRule.cpp:11-96 | up to three results in the order non-uniform, zero scale, extreme scale, one for each enabled test that fires, each with its own rule ID and configured severity and an empty path; an issue is found exactly when one fires; only the zero-scale result can carry a fix, bound exactly when LOD0 exists within the triangle limit, which targets the zero axes |
| Scaling.EvaluateQuiet | Source/PipelineGuardian/Private/Analysis/Rules/StaticMesh/FStaticMeshScalingRule.cpp:11-30 | nothing is reported without a mesh or a profile, or with all three tests switched off |
| Transform.PivotMeansDistance | Source/PipelineGuardian/Private/Analysis/Rules/StaticMesh/FStaticMeshTransformRule.cpp:81-109 | measured by the distance of the box centre from the origin, the pivot is problematic exactly when that distance exceeds the warning or the error distance |
| Transform.HasUnappliedDccTransformations | Source/PipelineGuardian/Private/Analysis/Rules/StaticMesh/FStaticMeshTransformRule.cpp:111-148 | the messages appended one by one are the specified DCC messages, and the flag is set exactly when there is one |
| Transform.DccIssuesExact | Source/PipelineGuardian/Private/Analysis/Rules/StaticMesh/FStaticMeshTransformRule.cpp:111-148 | each DCC message appears exactly when its test fails (centre farther than 1000, a side above 1000, a side below 0.001), at most once, in that order |
| Transform.FixTransformPivotSucceeds | Source/PipelineGuardian/Private/Analysis/Rules/StaticMesh/FStaticMeshTransformRule.cpp:181-194 | the pivot fix always reports failure |
| Transform.Check | Source/PipelineGuardian/Private/Analysis/Rules/StaticMesh/FStaticMeshTransformRule.cpp:11-69 | the method's outcome is the rule's evaluation of the asset, whose results leave the path empty as the results built at lines 38 and 58 do |
| Transform.EvaluateReports | Source/PipelineGuardian/Private/Analysis/Rules/StaticMesh/FStaticMeshTransformRule.cpp:11-69 | the pivot result appears exactly when the pivot test is on and the distance exceeds a threshold, the DCC result exactly when its test is on and a DCC test fails; both carry the configured severity and no fix |
| Transform.EvaluateQuiet | Source/PipelineGuardian/Private/Analysis/Rules/StaticMesh/FStaticMeshTransformRule.cpp:11-30 | nothing is reported without a mesh or profile, or with both tests switched off |
| Scanner.FirstRegisteredExact | Source/PipelineGuardian/Private/Core/FAssetScanner.cpp:65-80 | the superclass walk finds an analyzer exactly when some class of the chain is registered, and then it is the analyzer of the first such class |
| Scanner.SingleAssetCallsOneAnalyzer | Source/PipelineGuardian/Private/Core/FAssetScanner.cpp:37-100 | at most one analyzer runs, once, on the asset and the active profile; nothing is appended for an invalid or unloadable asset, a missing profile or an unregistered chain |
| Scanner.AssetScanner.constructor | Source/PipelineGuardian/Private/Core/FAssetScanner.cpp:14-17 | a new scanner has no analyzers registered |
| Scanner.AssetScanner.RegisterAssetAnalyzer | Source/PipelineGuardian/Private/Core/FAssetScanner.cpp:24-35 | with a class and a valid analyzer the class maps to it, replacing an earlier entry; otherwise the registry is unchanged |
| Scanner.AssetScanner.UnregisterAllAnalyzers | Source/PipelineGuardian/Private/Core/FAssetScanner.cpp:128-139 | the registry is empty afterwards |
| Scanner.AssetScanner.FindAnalyzer | Source/PipelineGuardian/Private/Core/FAssetScanner.cpp:65-80 | the loop over the superclass chain returns the specified first registered analyzer |
| Scanner.AssetScanner.AnalyzeSingleAsset | Source/PipelineGuardian/Private/Core/FAssetScanner.cpp:37-100 | the output list keeps its entries as a prefix and gains exactly what the one dispatched analyzer appends |
| Scanner.AssetScanner.ScanAssetsInPath | Source/PipelineGuardian/Private/Core/FAssetScanner.cpp:102-116 | the by-reference output list, emptied first, holds exactly the asset registry's answer for the path and recursion flag |
| Scanner.AssetScanner.ScanSelectedAssets | Source/PipelineGuardian/Private/Core/FAssetScanner.cpp:118-126 | the output list, emptied first, becomes the Content Browser selection |
| StaticMeshAnalyzer.RunAllAppend | Source/PipelineGuardian/Private/Analysis/AssetTypeAnalyzers/FStaticMeshAnalyzer.cpp:93-105 | running two rule lists one after the other appends their results one after the other |
| StaticMeshAnalyzer.RunAllInOrder | Source/PipelineGuardian/Private/Analysis/AssetTypeAnalyzers/FStaticMeshAnalyzer.cpp:93-105 | each rule runs exactly once, in list order: the results of the rules before it, then its own, then those after it |
| StaticMeshAnalyzer.LoadFailure | Source/PipelineGuardian/Private/Analysis/AssetTypeAnalyzers/FStaticMeshAnalyzer.cpp:75-88 | the load-failure result is an Error on the asset under SM_AssetLoading, with the package path and no fix |
| StaticMeshAnalyzer.LoadOutcomes | Source/PipelineGuardian/Private/Analysis/AssetTypeAnalyzers/FStaticMeshAnalyzer.cpp:59-107 | an invalid asset or a missing profile appends nothing; an asset that does not load as a static mesh appends exactly one SM_AssetLoading Error and no rule runs |
| StaticMeshAnalyzer.MeshAnalyzer.constructor | Source/PipelineGuardian/Private/Analysis/AssetTypeAnalyzers/FStaticMeshAnalyzer.cpp:29-57 | the analyzer holds the sixteen rules in registration order, Naming first and SocketNaming last |
| StaticMeshAnalyzer.MeshAnalyzer.AnalyzeAsset | Source/PipelineGuardian/Private/Analysis/AssetTypeAnalyzers/FStaticMeshAnalyzer.cpp:59-107 | the output list keeps its entries as a prefix and gains the specified analysis results |
| ScanTask.PassedAssetsByMode | Source/PipelineGuardian/Private/Core/FAssetScanTask.cpp:31-89 | only the SelectedAssets and OpenLevel modes pass assets on, exactly the pre-discovered ones; Project and SelectedFolders, a lost scanner or missing settings pass nothing |
| ScanTask.AssetScanTask.constructor | Source/PipelineGuardian/Private/Core/FAssetScanTask.cpp:12-29 | the task stores its mode, parameters and pre-discovered assets, with nothing to pass and no message yet |
| ScanTask.AssetScanTask.DoWork | Source/PipelineGuardian/Private/Core/FAssetScanTask.cpp:31-89 | the assets to pass and the message are set as specified, and the completion delegate is executed at most once, exactly when bound, with the task's own mode and parameters |
| Report.SeverityToText | Source/PipelineGuardian/Private/UI/SPipelineGuardianReportView.cpp:412-423 | every severity's name is one of the filter options and never All |
| Report.SeverityToTextInjective | Source/PipelineGuardian/Private/UI/SPipelineGuardianReportView.cpp:412-423 | distinct severities have distinct names, so a severity filter admits exactly one severity |
| Report.ShownExact | Source/PipelineGuardian/Private/UI/SPipelineGuardianReportView.cpp:355-385 | the displayed list holds exactly the valid results that pass the filter (all of them under All or no filter, else those whose severity's name is the filter), in their original order |
| Report.PickMembers | Source/PipelineGuardian/Private/UI/SPipelineGuardianReportView.cpp:166-212 | a batch holds exactly the displayed results meeting its test |
| Report.PickLength | Source/PipelineGuardian/Private/UI/SPipelineGuardianReportView.cpp:258-280 | a batch is the whole displayed list exactly when every displayed result meets its test, and empty exactly when none does |
| Report.PickIncreasing | Source/PipelineGuardian/Private/UI/SPipelineGuardianReportView.cpp:166-212 | a batch keeps displayed order |
| Report.SelectedBatchWithinAllBatch | Source/PipelineGuardian/Private/UI/SPipelineGuardianReportView.cpp:166-212 | the fix-selected batch is exactly the checked part of the fix-all batch |
| Report.SelectAllStateMeaning | Source/PipelineGuardian/Private/UI/SPipelineGuardianReportView.cpp:308-336 | the select-all box is Checked exactly when something is shown and every shown result is checked, Unchecked exactly when no shown result is checked, Undetermined otherwise |
| Report.UniformSelectionState | Source/PipelineGuardian/Private/UI/SPipelineGuardianReportView.cpp:290-336 | when every shown result carries the same mark, the select-all box shows that mark, and Unchecked when nothing is shown |
| Report.BatchFixesAll | Source/PipelineGuardian/Private/UI/SPipelineGuardianReportView.cpp:214-256 | every result of a fix batch has a bound fix, so each one is invoked and the success count is the batch size |
| Report.UnselectedExact | Source/PipelineGuardian/Private/UI/SPipelineGuardianReportView.cpp:142-154 | the fresh selection map has a key for every result, each unchecked |
| Report.ReportView.constructor | Source/PipelineGuardian/Private/UI/SPipelineGuardianReportView.cpp:24-139 | a new view has no results, an empty selection and the All filter |
| Report.ReportView.BindRefresh | Source/PipelineGuardian/Private/UI/SPipelineGuardianWindow.cpp:128 | the refresh delegate becomes bound and nothing else changes |
| Report.ReportView.ApplyFilters | Source/PipelineGuardian/Private/UI/SPipelineGuardianReportView.cpp:355-385 | the displayed list is rebuilt from all results under the current filter; nothing else changes |
| Report.ReportView.SetResults | Source/PipelineGuardian/Private/UI/SPipelineGuardianReportView.cpp:142-154 | the new list replaces the old, every result starts unchecked, and the displayed list is rebuilt under the current filter |
| Report.ReportView.OnSeverityFilterChanged | Source/PipelineGuardian/Private/UI/SPipelineGuardianReportView.cpp:338-342 | the filter becomes the new selection and the displayed list is rebuilt under it |
| Report.ReportView.OnItemSelectionChanged | Source/PipelineGuardian/Private/UI/SPipelineGuardianReportView.cpp:282-288 | only a valid result already in the map changes its check mark; nothing else changes |
| Report.MarkShown | Source/PipelineGuardian/Private/UI/SPipelineGuardianReportView.cpp:296-305 | the select-all loop keeps the key set and gives the new mark exactly to the listed valid results that already had a mark |
| Report.MarkedShownState | Source/PipelineGuardian/Private/UI/SPipelineGuardianReportView.cpp:290-336 | once every shown result carries the new mark, the select-all box shows it (Unchecked when nothing is shown) |
| Report.ReportView.OnSelectAllChanged | Source/PipelineGuardian/Private/UI/SPipelineGuardianReportView.cpp:290-306 | every displayed result takes the new mark, hidden results keep theirs, and the select-all box then shows the new mark |
| Report.ReportView.GetSelectedItemCount | Source/PipelineGuardian/Private/UI/SPipelineGuardianReportView.cpp:387-398 | the count is the number of displayed results that are checked |
| Report.ReportView.GetSelectAllState | Source/PipelineGuardian/Private/UI/SPipelineGuardianReportView.cpp:308-336 | the counting loop returns the specified select-all state |
| Report.ReportView.CollectBatch | Source/PipelineGuardian/Private/UI/SPipelineGuardianReportView.cpp:166-212 | the loop collects the displayed results meeting the batch's test, in order |
| Report.ReportView.IsFixEnabled | Source/PipelineGuardian/Private/UI/SPipelineGuardianReportView.cpp:258-280 | the fix-selected and fix-all buttons are enabled exactly when their batch is non-empty |
| Report.ReportView.ExecuteFixesAndRefresh | Source/PipelineGuardian/Private/UI/SPipelineGuardianReportView.cpp:214-256 | after a Yes every item's bound fix is invoked once in batch order, the success count is their number, and a bound refresh is requested once; after a No nothing changes |
| Report.ReportView.OnFixClicked | Source/PipelineGuardian/Private/UI/SPipelineGuardianReportView.cpp:166-212 | an empty batch only shows a message; otherwise the batch's fixes are invoked in order after a Yes, and refresh is requested once when bound |
| Window.ScanAllAppend | Source/PipelineGuardian/Private/UI/SPipelineGuardianWindow.cpp:243-250 | scanning two lists of folders one after the other concatenates their assets |
| Window.LevelAssetsExact | Source/PipelineGuardian/Private/UI/SPipelineGuardianWindow.cpp:437-475 | the open level's asset list holds every valid candidate exactly once and nothing else |
| Window.CancelPoint | Source/PipelineGuardian/Private/UI/SPipelineGuardianWindow.cpp:275-300 | the number of assets analysed lies between the start and the list length |
| Window.CancelPointExact | Source/PipelineGuardian/Private/UI/SPipelineGuardianWindow.cpp:275-300 | cancellation is asked for before each asset: no cancellation came before the stop, and stopping early means it came there |
| Window.AnalyzedResultsPrefix | Source/PipelineGuardian/Private/UI/SPipelineGuardianWindow.cpp:275-300 | a cancelled run's results are a prefix of the full run's results |
| Window.WindowAnalysesStaticMeshes | Source/PipelineGuardian/Private/UI/SPipelineGuardianWindow.cpp:135-148 | with the one analyzer the window registers bound to the static-mesh analyzer, an asset whose class chain reaches StaticMesh is analysed as that analyzer specifies, any other class yields nothing |
| Window.PumpPointsExact | Source/PipelineGuardian/Private/UI/SPipelineGuardianWindow.cpp:290-296 | the UI is pumped after the k-th asset exactly when k is a multiple of 10, so k / 10 times in all |
| Window.Shared | Source/PipelineGuardian/Private/UI/SPipelineGuardianWindow.cpp:198-206 | one non-null shared result per result, in order |
| Window.PipelineWindow.constructor | Source/PipelineGuardian/Private/UI/SPipelineGuardianWindow.cpp:36-148 | the window starts idle with status Ready, a scanner whose only analyzer is the static-mesh analyzer for UStaticMesh, and an empty report whose refresh is bound |
| Window.PipelineWindow.IsAnalysisNotRunning | Source/PipelineGuardian/Private/UI/SPipelineGuardianWindow.cpp:167-170 | the entry points are enabled exactly while no analysis runs |
| Window.PipelineWindow.ClearReport | Source/PipelineGuardian/Private/UI/SPipelineGuardianWindow.cpp:154-165 | the report is emptied and the window is idle with the given status; the recorded mode and parameters stay |
| Window.PipelineWindow.OnAnalyzeProjectClicked | Source/PipelineGuardian/Private/UI/SPipelineGuardianWindow.cpp:316-352 | a no-op while an analysis runs; otherwise the mode is recorded first, then the master switch either clears the report or starts the project task with no parameters and no assets |
| Window.PipelineWindow.OnAnalyzeSelectedFolderClicked | Source/PipelineGuardian/Private/UI/SPipelineGuardianWindow.cpp:354-400 | a no-op while an analysis runs; with the switch off or no folder selected the report is cleared with the matching status and the recorded mode stays; otherwise the mode and folders are recorded and the folder task starts |
| Window.PipelineWindow.CollectLevelAssets | Source/PipelineGuardian/Private/UI/SPipelineGuardianWindow.cpp:437-475 | the AddUnique loop yields the specified level asset list |
| Window.PipelineWindow.OnAnalyzeOpenLevelAssetsClicked | Source/PipelineGuardian/Private/UI/SPipelineGuardianWindow.cpp:402-505 | a no-op while an analysis runs; otherwise the mode is recorded, and the report is cleared when the switch is off, there is no world or level, or the level holds no asset; else the open-level task starts with the level's assets |
| Window.PipelineWindow.OnAnalyzeSelectedAssetsClicked | Source/PipelineGuardian/Private/UI/SPipelineGuardianWindow.cpp:507-553 | a no-op while an analysis runs; otherwise the mode is recorded, and the report is cleared when the switch is off or nothing is selected; else the task starts with the Content Browser selection |
| Window.PipelineWindow.OnRefreshRequested | Source/PipelineGuardian/Private/UI/SPipelineGuardianWindow.cpp:172-196 | a no-op while an analysis runs; otherwise any task started runs the last recorded mode again, which stays recorded |
| Window.PipelineWindow.DiscoverAssets | Source/PipelineGuardian/Private/UI/SPipelineGuardianWindow.cpp:227-258 | the game-thread discovery loop builds the specified asset list for the task's mode |
| Window.PipelineWindow.AnalyzeAll | Source/PipelineGuardian/Private/UI/SPipelineGuardianWindow.cpp:270-300 | the assets before the first cancellation are analysed in order into the results, and the UI is pumped after every tenth |
| Window.PipelineWindow.OnAssetScanPhaseComplete | Source/PipelineGuardian/Private/UI/SPipelineGuardianWindow.cpp:208-314 | the report shows the results of the assets analysed before the first cancellation, the pumps are logged, and the window is idle with a status naming the task's message and the asset and issue counts |

## Left out

- Slate widget layout, throbber and status widgets, message dialogs, logging and Content Browser sync. The Yes/No confirmation and the cancel button are inputs.
- Asset registry and Content Browser queries, and the open level's actor and component walk. Their answers are given sequences. The IsUAsset test is folded into the candidates' validity.
- Asset loading, the class chain of a loaded asset and the editor world. They are parameters.
- Build, MarkPackageDirty, PostEditChange, Modify, SaveConfig, the mesh-reduction backend, physics cooking and the EditorAssetSubsystem rename. A fix is a value (`FixCommand`) or a function to a new mesh value, not an engine call.
- File I/O of profile export and import. The file content is a parameter, and the JSON document is a datatype without text serialization.
- JSON fields read through implicit type conversions (a number read as a string, and similar). The document's accessors accept exact kinds only.
- Threading: FAutoDeleteAsyncTask and AsyncTask to the game thread. The two phases run one after the other. PumpMessages is a log of the asset counts after which it runs.
- Floating point: float32 arithmetic is exact `real`. FString::SanitizeFloat, "%.2f" and FText::AsNumber digit grouping are approximated by fixed-point text.
- Case-insensitive FName, FString and TMap key comparison, apart from the prefix tests the rules make case-insensitive. IDs and keys compare exactly.
- int32 overflow of counts and thresholds. All integers are unbounded.
- Meshes, sockets and results are values. Results are identified by their position in the report view instead of by shared pointer, and aliasing between pointers is not modelled.
- Square roots and normalisation.
  - Socket relocation in FixSocketIssues (lines 221-242 of Source/PipelineGuardian/Private/Analysis/Rules/StaticMesh/FStaticMeshSocketNamingRule.cpp) is not modelled.
  - Position-based colour generation in GenerateVertexColors is not modelled. That fix is offered only when it cannot succeed.
  - The transform pivot's distance is supplied by the caller.
- Dead code and stubs, none reachable from Check:
  - RegenerateUVChannel, PerformAutoUnwrap, FixUVOverlaps and CanFixUVOverlaps;
  - HasValidUVCoordinates;
  - HasValidLightmapUVChannel and GenerateLightmapUVs;
  - OptimizeVertexColors;
  - CanSafelyFixTransform;
  - the single-LOD FixLODReduction, which Check never binds.
- SimplifyCollision is engine work on the body setup and is kept as the fix token only. The cooking in GenerateCollision is a parameter.
- The rebuilt LOD triangle counts that FixAllLODReductions and GenerateLODs inspect after Build. They are parameters of the verdicts.
- The constant reduction fields that GenerateLODs and FixAllLODReductions write beside the two percentages and the base LOD (MaxDeviation 0, PixelError 8, WeldingThreshold 0, HardAngleThreshold 80, Normal silhouette, texture and shading importance; FStaticMeshLODMissingRule.cpp lines 263-270 and FStaticMeshLODPolyReductionRule.cpp lines 334-341) are not fields of the modelled reduction settings, because no check reads them.
- Window internal-error branches (scanner, settings or report view missing), the unknown-scan-mode branch of FAssetScanTask and the null-rule branch of FStaticMeshAnalyzer. These states cannot be reached in the model.
- Module startup, menus, style, commands and the editor-metadata clamps of the settings.
- Window.PipelineWindow.OnRefreshRequested: states only the guard and that the last mode is re-run. The entry point it calls has its own contract; folder refresh reads the editor's current folder selection, as the source does.
- Window.PipelineWindow.OnAssetScanPhaseComplete: the cancellation summary the source computes is not part of the status, because the source does not show it.
- Naming.MatchIsWildcard: ICU regular expressions are modelled only on the fragment the wildcard conversion produces, in which a backslash makes the next character literal. ConvertPatternToRegex never escapes a backslash, so a backslash in a pattern keeps its ICU meaning, which the model does not follow: `\d`, `\w` and the other class escapes match one letter in the model but a character class in ICU, and `\*` becomes `\.*`, which ICU reads as any run of dots while the model matches nothing. Equivalence with wildcard matching is therefore proved for backslash-free patterns only.

## Findings

| source | as written | input that shows it | evidently intended | confidence | as-written member | corrected member |
|---|---|---|---|---|---|---|
| Source/PipelineGuardian/Private/Analysis/Rules/StaticMesh/FStaticMeshScalingRule.cpp:227-239 | CanSafelyFixScaling reads LODResources[0] without checking that render data or a LOD exists | a mesh without render data and an empty bounding box: the zero-scale test fires on X, Y and Z, and Check then asks CanSafelyFixScaling | decline the fix when there is no LOD, as the other rules' fix-safety tests do | not executed | Scaling.ZeroScaleWithoutRenderData | Scaling.CanSafelyFixScalingAgrees |
| Source/PipelineGuardian/Private/Analysis/Rules/StaticMesh/FStaticMeshLODPolyReductionRule.cpp:72-113 | WorstSeverity starts at Info, the largest ordinal, and takes a pair's severity only when it is greater, so it stays Info | two LODs of 100 triangles each under the default thresholds 30/20/10: the reduction of 0 % lies in the error band, yet the result is Info | the most severe severity among the problematic pairs (here Error) | not executed | LodPolyReduction.WorstSeverityAsWrittenIsInfo | LodPolyReduction.EvaluateCorrectedReports |
