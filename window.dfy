/**
 * SPipelineGuardianWindow without its widgets: the four analysis entry
 * points with their in-progress guard, the game-thread phase that assembles
 * the asset list and analyses it asset by asset until cancelled, and the
 * refresh that re-runs the last kind of analysis.
 *
 * The background task runs between an entry point and the game-thread phase:
 * an entry point returns the request it would start the task with, and the
 * phase receives the delegate call the task makes (see ScanTask).
 */
module Window {
  import opened Wrappers
  import opened Text
  import opened Results
  import opened Profile
  import opened Seqs
  import opened ScanTask
  import opened Scanner
  import opened Report
  import Mesh
  import Rule
  import Settings
  import StaticMeshAnalyzer

  /** The content root a project analysis scans, recursively. */
  const GameRoot := "/Game/"

  /** UStaticMesh::StaticClass(), under which the window registers its one analyzer. */
  const StaticMeshClass := "StaticMesh"
  const StaticMeshAnalyzerEntry := Analyzer("FStaticMeshAnalyzer", true)

  const ReadyStatus := "Ready."
  const DisabledStatus := "Analysis is globally disabled. Report cleared."

  /** The arguments an entry point starts FAssetScanTask with. */
  datatype TaskRequest = TaskRequest(mode: ScanMode, parameters: seq<string>, preDiscovered: seq<AssetData>)

  /**
   * The editor the game-thread phase consults: the asset registry's answer for
   * a path, an asset's class chain after loading (None when it fails to load),
   * the settings' active profile, and what each analyzer appends.
   */
  datatype Editor = Editor(
    query: (string, bool) -> seq<AssetData>,
    chainOf: AssetData -> Option<seq<ClassName>>,
    profile: Option<ProfileData>,
    analyze: AnalyzeFn)

  /** The current level as the open-level entry point finds it. */
  datatype Level =
    | NoEditorWorld
    | NoCurrentLevel
      /** The asset data the actor and component walk meets, in walk order. */
    | Found(candidates: seq<AssetData>)

  // ---------------------------------------------------------------------------
  // Which assets are analysed

  /** The recursive scans of the paths, concatenated in parameter order. */
  function ScanAll(paths: seq<string>, query: (string, bool) -> seq<AssetData>): seq<AssetData>
  {
    if |paths| == 0 then []
    else ScanAll(paths[..|paths| - 1], query) + query(paths[|paths| - 1], true)
  }

  /** Scanning two lists of folders one after the other concatenates their assets. */
  lemma {:induction false} ScanAllAppend(a: seq<string>, b: seq<string>, query: (string, bool) -> seq<AssetData>)
    ensures ScanAll(a + b, query) == ScanAll(a, query) + ScanAll(b, query)
    decreases |b|
  {
    if |b| == 0 {
      assert a + b == a;
    } else {
      assert (a + b)[..|a + b| - 1] == a + b[..|b| - 1];
      ScanAllAppend(a, b[..|b| - 1], query);
    }
  }

  /**
   * AssetsToActuallyAnalyze: the recursive scan of /Game/ for a project
   * analysis, the folder scans in parameter order for a folder analysis, and
   * the task's own list otherwise.
   */
  function AssetsToAnalyze(call: DelegateCall, query: (string, bool) -> seq<AssetData>): seq<AssetData>
  {
    match call.mode
    case Project => query(GameRoot, true)
    case SelectedFolders => ScanAll(call.parameters, query)
    case SelectedAssets => call.assets
    case OpenLevel => call.assets
  }

  /** The open level's assets: the valid candidates, each once, in the order first met. */
  function LevelAssets(candidates: seq<AssetData>): seq<AssetData>
  {
    if |candidates| == 0 then []
    else
      var c := candidates[|candidates| - 1];
      var prior := LevelAssets(candidates[..|candidates| - 1]);
      if c.valid then AddUnique(prior, c) else prior
  }

  /** The open level's list holds every valid candidate exactly once, and nothing else. */
  lemma {:induction false} LevelAssetsExact(candidates: seq<AssetData>)
    ensures Distinct(LevelAssets(candidates))
    ensures forall a :: a in LevelAssets(candidates) <==> a in candidates && a.valid
  {
    if |candidates| > 0 {
      var init := candidates[..|candidates| - 1];
      LevelAssetsExact(init);
      AddUniqueKeepsDistinct(LevelAssets(init), candidates[|candidates| - 1]);
      assert candidates == init + [candidates[|candidates| - 1]];
    }
  }

  // ---------------------------------------------------------------------------
  // The cancellable loop

  /** The number of assets analysed: the first k at which cancellation is asked for, or n. */
  function CancelPoint(n: nat, shouldCancel: nat -> bool, k: nat): (stop: nat)
    requires k <= n
    ensures k <= stop <= n
    decreases n - k
  {
    if k == n || shouldCancel(k) then k else CancelPoint(n, shouldCancel, k + 1)
  }

  /**
   * Cancellation is checked before each asset: no cancellation was asked for
   * before the stop, and stopping early means it was asked for there.
   */
  lemma {:induction false} CancelPointExact(n: nat, shouldCancel: nat -> bool, k: nat)
    requires k <= n
    ensures forall j :: k <= j < CancelPoint(n, shouldCancel, k) ==> !shouldCancel(j)
    ensures CancelPoint(n, shouldCancel, k) < n ==> shouldCancel(CancelPoint(n, shouldCancel, k))
    decreases n - k
  {
    if k < n && !shouldCancel(k) {
      CancelPointExact(n, shouldCancel, k + 1);
    }
  }

  /** What AnalyzeSingleAsset appends for each asset, in list order. */
  function AnalyzedResults(registry: map<ClassName, Analyzer>, assets: seq<AssetData>, editor: Editor): seq<AnalysisResult>
  {
    if |assets| == 0 then []
    else
      var a := assets[|assets| - 1];
      AnalyzedResults(registry, assets[..|assets| - 1], editor)
      + SingleAssetResults(registry, a, editor.chainOf(a), editor.profile, editor.analyze)
  }

  /**
   * The window registers one analyzer, under StaticMesh. With that analyzer
   * bound to FStaticMeshAnalyzer::AnalyzeAsset over the sixteen rules, an asset
   * whose class chain reaches StaticMesh is analysed as the static-mesh
   * analyzer specifies, and an asset of any other class yields nothing.
   */
  lemma WindowAnalysesStaticMeshes(a: AssetData, editor: Editor, loaded: Option<Mesh.StaticMesh>,
                                   q: Settings.QuickSettings, host: Rule.Host, pivotDistance: real)
    requires editor.profile.Some? ==>
               editor.analyze(StaticMeshAnalyzerEntry, a, editor.profile.value)
               == StaticMeshAnalyzer.AnalysisResults(StaticMeshAnalyzer.AllRules, a, editor.profile, loaded, q, host, pivotDistance)
    ensures var r := SingleAssetResults(map[StaticMeshClass := StaticMeshAnalyzerEntry], a, editor.chainOf(a), editor.profile, editor.analyze);
            && (editor.chainOf(a).Some? && StaticMeshClass in editor.chainOf(a).value ==>
                  r == StaticMeshAnalyzer.AnalysisResults(StaticMeshAnalyzer.AllRules, a, editor.profile, loaded, q, host, pivotDistance))
            && (editor.chainOf(a).Some? && StaticMeshClass !in editor.chainOf(a).value ==> r == [])
  {
    hide StaticMeshAnalyzer.AnalysisResults;
    StaticMeshAnalyzer.LoadOutcomes(StaticMeshAnalyzer.AllRules, a, editor.profile, loaded, q, host, pivotDistance);
    var registry := map[StaticMeshClass := StaticMeshAnalyzerEntry];
    if editor.chainOf(a).Some? {
      var chain := editor.chainOf(a).value;
      FirstRegisteredExact(registry, chain);
      if StaticMeshClass in chain {
        var k :| 0 <= k < |chain| && chain[k] == StaticMeshClass;
        assert Registered(registry, chain[k]);
        assert FirstRegistered(registry, chain) == Some(StaticMeshAnalyzerEntry);
      } else {
        assert forall i :: 0 <= i < |chain| ==> !Registered(registry, chain[i]);
      }
    }
  }

  /** Analysing more assets only extends the results: a cancelled run keeps a prefix of the full run's results. */
  lemma {:induction false} AnalyzedResultsPrefix(registry: map<ClassName, Analyzer>, assets: seq<AssetData>, k: nat, editor: Editor)
    requires k <= |assets|
    ensures AnalyzedResults(registry, assets[..k], editor) <= AnalyzedResults(registry, assets, editor)
    decreases |assets| - k
  {
    if k < |assets| {
      AnalyzedResultsPrefix(registry, assets[..|assets| - 1], k, editor);
      assert assets[..|assets| - 1][..k] == assets[..k];
    } else {
      assert assets[..k] == assets;
    }
  }

  /** The counts after which the UI is pumped while k assets are analysed. */
  function PumpPoints(k: nat): seq<nat>
  {
    if k == 0 then [] else PumpPoints(k - 1) + (if k % 10 == 0 then [k] else [])
  }

  /** The UI is pumped after the k-th asset exactly when k is a multiple of 10, so k / 10 times in all. */
  lemma {:induction false} PumpPointsExact(k: nat)
    ensures forall j :: j in PumpPoints(k) <==> 1 <= j <= k && j % 10 == 0
    ensures |PumpPoints(k)| == k / 10
  {
    if k > 0 {
      PumpPointsExact(k - 1);
    }
  }

  /** ConvertResultsToSharedPointers: one non-null shared result per result, in order. */
  function Shared(results: seq<AnalysisResult>): (r: seq<Option<AnalysisResult>>)
    ensures |r| == |results| && forall i :: 0 <= i < |r| ==> r[i] == Some(results[i])
  {
    seq(|results|, i requires 0 <= i < |results| => Some(results[i]))
  }

  /** The final status: the task's message, the size of the asset list and the number of results. */
  function CompletionStatus(taskMessage: string, assetCount: nat, issueCount: nat): string
  {
    taskMessage + " Analysis complete. Analyzed " + IntToString(assetCount) + " assets. "
    + IntToString(issueCount) + " issues found."
  }

  class PipelineWindow {
    var inProgress: bool
    var status: string
    var lastMode: ScanMode
    var lastParameters: seq<string>
    /** ProcessedCount at each PumpMessages, in order. */
    var pumps: seq<nat>
    const scanner: AssetScanner
    const report: ReportView

    ghost predicate Valid()
      reads this, scanner, report
    {
      scanner.Valid() && report.Valid()
    }

    /**
     * Construct: a scanner with the static-mesh analyzer registered for
     * UStaticMesh, an empty report bound to the refresh, and "Ready.".
     */
    constructor()
      ensures Valid() && fresh(scanner) && fresh(report)
      ensures scanner.analyzers == map[StaticMeshClass := StaticMeshAnalyzerEntry]
      ensures report.all == [] && report.refreshBound && report.invoked == [] && report.refreshRequests == 0
      ensures !inProgress && status == ReadyStatus && lastMode == Project && lastParameters == [] && pumps == []
    {
      var s := new AssetScanner();
      s.RegisterAssetAnalyzer(Some(StaticMeshClass), StaticMeshAnalyzerEntry);
      var r := new ReportView();
      r.BindRefresh();
      scanner := s;
      report := r;
      inProgress := false;
      status := ReadyStatus;
      lastMode := Project;
      lastParameters := [];
      pumps := [];
    }

    /** IsAnalysisNotRunning: the entry points are enabled only while no analysis runs. */
    function IsAnalysisNotRunning(): (enabled: bool)
      reads this
      ensures enabled <==> !inProgress
    {
      !inProgress
    }

    /** SetResults({}) on the report and an idle window with the given status. */
    method ClearReport(message: string)
      requires Valid()
      modifies this, report
      ensures Valid()
      ensures report.all == [] && report.displayed == [] && report.selection == map[]
      ensures report.filter == old(report.filter) && report.refreshBound == old(report.refreshBound)
      ensures report.invoked == old(report.invoked) && report.refreshRequests == old(report.refreshRequests)
      ensures !inProgress && status == message
      ensures lastMode == old(lastMode) && lastParameters == old(lastParameters) && pumps == old(pumps)
    {
      report.SetResults([]);
      inProgress := false;
      status := message;
    }

    /**
     * OnAnalyzeProjectClicked: a no-op while an analysis runs; otherwise the
     * mode is recorded first, then the master switch either clears the report
     * or the project task starts with no parameters and no assets.
     */
    method OnAnalyzeProjectClicked(masterSwitch: bool) returns (task: Option<TaskRequest>)
      requires Valid()
      modifies this, report
      ensures Valid()
      ensures old(inProgress) ==> task.None? && unchanged(this) && unchanged(report)
      ensures !old(inProgress) ==> lastMode == Project && lastParameters == []
      ensures !old(inProgress) && !masterSwitch ==> task.None? && !inProgress && report.all == [] && status == DisabledStatus
      ensures !old(inProgress) && masterSwitch ==>
                task == Some(TaskRequest(Project, [], [])) && inProgress && unchanged(report)
    {
      if inProgress {
        return None;
      }
      lastMode := Project;
      lastParameters := [];
      inProgress := true;
      status := "Starting project analysis: Initializing async task...";
      if !masterSwitch {
        ClearReport(DisabledStatus);
        return None;
      }
      task := Some(TaskRequest(Project, [], []));
    }

    /**
     * OnAnalyzeSelectedFolderClicked: a no-op while an analysis runs. With the
     * switch off or no folder selected the report is cleared and the last mode
     * is left alone; otherwise the mode and the folders are recorded and the
     * folder task starts with them.
     */
    method OnAnalyzeSelectedFolderClicked(masterSwitch: bool, selectedPaths: seq<string>) returns (task: Option<TaskRequest>)
      requires Valid()
      modifies this, report
      ensures Valid()
      ensures old(inProgress) ==> task.None? && unchanged(this) && unchanged(report)
      ensures !old(inProgress) && (!masterSwitch || |selectedPaths| == 0) ==>
                && task.None? && !inProgress && report.all == []
                && lastMode == old(lastMode) && lastParameters == old(lastParameters)
                && status == (if !masterSwitch then DisabledStatus else "No folder selected. Report cleared.")
      ensures !old(inProgress) && masterSwitch && |selectedPaths| > 0 ==>
                && task == Some(TaskRequest(SelectedFolders, selectedPaths, [])) && inProgress && unchanged(report)
                && lastMode == SelectedFolders && lastParameters == selectedPaths
    {
      if inProgress {
        return None;
      }
      inProgress := true;
      status := "Starting selected folder analysis: Initializing async task...";
      if !masterSwitch {
        ClearReport(DisabledStatus);
        return None;
      }
      if |selectedPaths| == 0 {
        ClearReport("No folder selected. Report cleared.");
        return None;
      }
      lastMode := SelectedFolders;
      lastParameters := selectedPaths;
      task := Some(TaskRequest(SelectedFolders, selectedPaths, []));
    }

    /** The AddUnique loop of the open-level walk over the candidates it meets. */
    method CollectLevelAssets(candidates: seq<AssetData>) returns (assets: seq<AssetData>)
      ensures assets == LevelAssets(candidates)
    {
      assets := [];
      var i := 0;
      while i < |candidates|
        invariant 0 <= i <= |candidates|
        invariant assets == LevelAssets(candidates[..i])
      {
        assert candidates[..i + 1][..i] == candidates[..i];
        if candidates[i].valid {
          assets := AddUnique(assets, candidates[i]);
        }
        i := i + 1;
      }
      assert candidates[..i] == candidates;
    }

    /**
     * OnAnalyzeOpenLevelAssetsClicked: a no-op while an analysis runs;
     * otherwise the mode is recorded, and unless the switch is off, there is
     * no world or level, or the level holds no asset, the open-level task
     * starts with the level's assets.
     */
    method OnAnalyzeOpenLevelAssetsClicked(masterSwitch: bool, level: Level) returns (task: Option<TaskRequest>)
      requires Valid()
      modifies this, report
      ensures Valid()
      ensures old(inProgress) ==> task.None? && unchanged(this) && unchanged(report)
      ensures !old(inProgress) ==> lastMode == OpenLevel && lastParameters == []
      ensures !old(inProgress) && !masterSwitch ==> task.None? && !inProgress && report.all == [] && status == DisabledStatus
      ensures !old(inProgress) && masterSwitch && (level.Found? ==> |LevelAssets(level.candidates)| == 0) ==>
                task.None? && !inProgress && report.all == []
      ensures !old(inProgress) && masterSwitch && level.Found? && |LevelAssets(level.candidates)| > 0 ==>
                task == Some(TaskRequest(OpenLevel, [], LevelAssets(level.candidates))) && inProgress && unchanged(report)
    {
      if inProgress {
        return None;
      }
      lastMode := OpenLevel;
      lastParameters := [];
      inProgress := true;
      status := "Starting open level analysis: Discovering assets (GT) & initializing task...";
      if !masterSwitch {
        ClearReport(DisabledStatus);
        return None;
      }
      match level {
        case NoEditorWorld =>
          ClearReport("No active editor world. Report cleared.");
          return None;
        case NoCurrentLevel =>
          ClearReport("No current level in world. Report cleared.");
          return None;
        case Found(candidates) =>
          var assets := CollectLevelAssets(candidates);
          if |assets| == 0 {
            ClearReport("No scannable assets in open level. Report cleared.");
            return None;
          }
          task := Some(TaskRequest(OpenLevel, [], assets));
      }
    }

    /**
     * OnAnalyzeSelectedAssetsClicked: a no-op while an analysis runs;
     * otherwise the mode is recorded, and unless the switch is off or nothing
     * is selected, the task starts with the Content Browser selection.
     */
    method OnAnalyzeSelectedAssetsClicked(masterSwitch: bool, selection: seq<AssetData>) returns (task: Option<TaskRequest>)
      requires Valid()
      modifies this, report
      ensures Valid()
      ensures old(inProgress) ==> task.None? && unchanged(this) && unchanged(report)
      ensures !old(inProgress) ==> lastMode == SelectedAssets && lastParameters == []
      ensures !old(inProgress) && (!masterSwitch || |selection| == 0) ==> task.None? && !inProgress && report.all == []
      ensures !old(inProgress) && masterSwitch && |selection| > 0 ==>
                task == Some(TaskRequest(SelectedAssets, [], selection)) && inProgress && unchanged(report)
    {
      if inProgress {
        return None;
      }
      lastMode := SelectedAssets;
      lastParameters := [];
      inProgress := true;
      status := "Starting selected assets analysis: Discovering assets (GT) & initializing task...";
      if !masterSwitch {
        ClearReport(DisabledStatus);
        return None;
      }
      var selected := scanner.ScanSelectedAssets(selection);
      if |selected| == 0 {
        ClearReport("No assets selected. Report cleared.");
        return None;
      }
      task := Some(TaskRequest(SelectedAssets, [], selected));
    }

    /**
     * OnRefreshRequested: the entry point of the last recorded mode runs
     * again, with the editor's current selections, not the recorded
     * parameters.
     */
    method OnRefreshRequested(masterSwitch: bool, selectedPaths: seq<string>, level: Level, selection: seq<AssetData>)
      returns (task: Option<TaskRequest>)
      requires Valid()
      modifies this, report
      ensures Valid()
      ensures old(inProgress) ==> task.None? && unchanged(this) && unchanged(report)
      ensures task.Some? ==> task.value.mode == old(lastMode) && lastMode == old(lastMode)
    {
      match lastMode {
        case Project => task := OnAnalyzeProjectClicked(masterSwitch);
        case SelectedFolders => task := OnAnalyzeSelectedFolderClicked(masterSwitch, selectedPaths);
        case SelectedAssets => task := OnAnalyzeSelectedAssetsClicked(masterSwitch, selection);
        case OpenLevel => task := OnAnalyzeOpenLevelAssetsClicked(masterSwitch, level);
      }
    }

    /** The game-thread discovery: the list AssetsToAnalyze describes, built scan by scan. */
    method DiscoverAssets(call: DelegateCall, query: (string, bool) -> seq<AssetData>) returns (assets: seq<AssetData>)
      ensures assets == AssetsToAnalyze(call, query)
    {
      match call.mode {
        case Project =>
          assets := scanner.ScanAssetsInPath(GameRoot, true, query);
        case SelectedFolders =>
          assets := [];
          var i := 0;
          while i < |call.parameters|
            invariant 0 <= i <= |call.parameters|
            invariant assets == ScanAll(call.parameters[..i], query)
          {
            assert call.parameters[..i + 1][..i] == call.parameters[..i];
            var inPath := scanner.ScanAssetsInPath(call.parameters[i], true, query);
            assets := assets + inPath;
            i := i + 1;
          }
          assert call.parameters[..i] == call.parameters;
        case SelectedAssets =>
          assets := call.assets;
        case OpenLevel =>
          assets := call.assets;
      }
    }

    /**
     * The cancellable loop: cancellation is asked for before each asset; the
     * assets before the first cancellation are analysed in order into the
     * results, and the UI is pumped after every tenth.
     */
    method AnalyzeAll(assets: seq<AssetData>, editor: Editor, shouldCancel: nat -> bool) returns (results: seq<AnalysisResult>, pumped: seq<nat>)
      ensures var stop := CancelPoint(|assets|, shouldCancel, 0);
              results == AnalyzedResults(scanner.analyzers, assets[..stop], editor) && pumped == PumpPoints(stop)
    {
      results := [];
      pumped := [];
      var processed := 0;
      while processed < |assets|
        invariant 0 <= processed <= |assets|
        invariant CancelPoint(|assets|, shouldCancel, 0) == CancelPoint(|assets|, shouldCancel, processed)
        invariant results == AnalyzedResults(scanner.analyzers, assets[..processed], editor)
        invariant pumped == PumpPoints(processed)
      {
        if shouldCancel(processed) {
          break;
        }
        var a := assets[processed];
        assert assets[..processed + 1][..processed] == assets[..processed];
        results := scanner.AnalyzeSingleAsset(a, editor.chainOf(a), editor.profile, editor.analyze, results);
        processed := processed + 1;
        if processed % 10 == 0 {
          pumped := pumped + [processed];
        }
      }
    }

    /**
     * OnAssetScanPhaseComplete: the asset list is assembled for the mode, the
     * assets up to the first cancellation are analysed in order, the report
     * shows their results, and the window is idle again with a status naming
     * the task's message, the full list size and the number of results.
     */
    method OnAssetScanPhaseComplete(call: DelegateCall, editor: Editor, shouldCancel: nat -> bool)
      requires Valid()
      modifies this, report
      ensures Valid()
      ensures var assets := AssetsToAnalyze(call, editor.query);
              var stop := CancelPoint(|assets|, shouldCancel, 0);
              var results := AnalyzedResults(scanner.analyzers, assets[..stop], editor);
              && report.all == Shared(results)
              && pumps == old(pumps) + PumpPoints(stop)
              && !inProgress
              && status == CompletionStatus(call.message, |assets|, |results|)
      ensures lastMode == old(lastMode) && lastParameters == old(lastParameters)
    {
      var assets := DiscoverAssets(call, editor.query);
      inProgress := true;
      var results: seq<AnalysisResult> := [];
      var pumped: seq<nat> := [];
      if |assets| > 0 {
        results, pumped := AnalyzeAll(assets, editor, shouldCancel);
      } else {
        assert assets[..0] == [];
      }
      report.SetResults(Shared(results));
      pumps := pumps + pumped;
      inProgress := false;
      status := CompletionStatus(call.message, |assets|, |results|);
    }
  }
}
