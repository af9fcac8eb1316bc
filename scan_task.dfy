/**
 * FAssetScanTask: the background phase of an analysis. It decides which assets
 * travel on to the game-thread phase and with what message, then hands mode,
 * parameters, assets and message to the completion delegate.
 */
module ScanTask {
  import opened Wrappers
  import opened Text
  import opened Results

  /** EAssetScanMode. */
  datatype ScanMode = Project | SelectedFolders | SelectedAssets | OpenLevel

  /** One execution of FAssetScanCompletionDelegate, with its four arguments. */
  datatype DelegateCall = DelegateCall(mode: ScanMode, parameters: seq<string>, assets: seq<AssetData>, message: string)

  const InvalidMessage := "Asset scanner or settings became invalid during async task background phase."
  const ProjectMessage := "Project asset discovery pending on Game Thread..."

  /**
   * The assets DoWork passes on: none when the scanner or the settings are
   * gone, and none for Project and SelectedFolders, whose discovery runs later
   * on the game thread; the pre-discovered assets otherwise.
   */
  function PassedAssets(mode: ScanMode, preDiscovered: seq<AssetData>, scannerAlive: bool, settingsPresent: bool): seq<AssetData>
  {
    if !scannerAlive || !settingsPresent then []
    else
      match mode
      case Project => []
      case SelectedFolders => []
      case SelectedAssets => preDiscovered
      case OpenLevel => preDiscovered
  }

  /** TaskCompletionMessage as DoWork sets it. */
  function CompletionMessage(mode: ScanMode, parameters: seq<string>, preDiscovered: seq<AssetData>,
                             scannerAlive: bool, settingsPresent: bool): string
  {
    if !scannerAlive || !settingsPresent then InvalidMessage
    else
      match mode
      case Project => ProjectMessage
      case SelectedFolders =>
        "Selected folder(s) asset discovery pending on Game Thread for " + IntToString(|parameters|) + " path(s)..."
      case SelectedAssets => IntToString(|preDiscovered|) + " selected asset(s) ready for analysis."
      case OpenLevel => IntToString(|preDiscovered|) + " open level asset(s) ready for analysis."
  }

  /**
   * Only SelectedAssets and OpenLevel pass assets on, and then exactly the
   * pre-discovered ones; a lost scanner or missing settings pass nothing.
   */
  lemma PassedAssetsByMode(mode: ScanMode, preDiscovered: seq<AssetData>, scannerAlive: bool, settingsPresent: bool)
    ensures var assets := PassedAssets(mode, preDiscovered, scannerAlive, settingsPresent);
            && (scannerAlive && settingsPresent && (mode == SelectedAssets || mode == OpenLevel) ==> assets == preDiscovered)
            && (mode == Project || mode == SelectedFolders || !scannerAlive || !settingsPresent ==> assets == [])
  {
  }

  class AssetScanTask {
    const mode: ScanMode
    const parameters: seq<string>
    const preDiscovered: seq<AssetData>
    /** The settings object handed over at construction was non-null. */
    const settingsPresent: bool
    /** OnCompletionDelegate.IsBound(). */
    const delegateBound: bool

    var assetsToPass: seq<AssetData>
    var message: string

    constructor(mode: ScanMode, parameters: seq<string>, preDiscovered: seq<AssetData>, settingsPresent: bool, delegateBound: bool)
      ensures this.mode == mode && this.parameters == parameters && this.preDiscovered == preDiscovered
      ensures this.settingsPresent == settingsPresent && this.delegateBound == delegateBound
      ensures assetsToPass == [] && message == ""
    {
      this.mode := mode;
      this.parameters := parameters;
      this.preDiscovered := preDiscovered;
      this.settingsPresent := settingsPresent;
      this.delegateBound := delegateBound;
      assetsToPass := [];
      message := "";
    }

    /**
     * DoWork: sets the assets and the message, then executes the delegate at
     * most once, only when it is bound, with the task's own mode and
     * parameters. scannerAlive is whether the weak scanner pointer still pins.
     */
    method DoWork(scannerAlive: bool) returns (call: Option<DelegateCall>)
      modifies this
      ensures assetsToPass == PassedAssets(mode, preDiscovered, scannerAlive, settingsPresent)
      ensures message == CompletionMessage(mode, parameters, preDiscovered, scannerAlive, settingsPresent)
      ensures call == (if delegateBound then Some(DelegateCall(mode, parameters, assetsToPass, message)) else None)
    {
      assetsToPass := [];
      call := None;
      if !scannerAlive || !settingsPresent {
        message := InvalidMessage;
        if delegateBound {
          call := Some(DelegateCall(mode, parameters, assetsToPass, message));
        }
        return;
      }
      match mode {
        case Project =>
          message := ProjectMessage;
        case SelectedFolders =>
          message := "Selected folder(s) asset discovery pending on Game Thread for " + IntToString(|parameters|) + " path(s)...";
        case SelectedAssets =>
          assetsToPass := preDiscovered;
          message := IntToString(|assetsToPass|) + " selected asset(s) ready for analysis.";
        case OpenLevel =>
          assetsToPass := preDiscovered;
          message := IntToString(|assetsToPass|) + " open level asset(s) ready for analysis.";
      }
      if delegateBound {
        call := Some(DelegateCall(mode, parameters, assetsToPass, message));
      }
    }
  }
}
