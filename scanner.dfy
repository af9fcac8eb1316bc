/**
 * FAssetScanner: a registry from asset classes to analyzers, and the dispatch
 * of one asset to the analyzer of the most derived registered class in its
 * class chain. Loading an asset and reading its class chain are host work:
 * AnalyzeSingleAsset receives the chain (None when loading fails), the active
 * profile and the analyzers' behaviour as parameters.
 */
module Scanner {
  import opened Wrappers
  import opened Results
  import opened Profile

  /** A UClass, by name. */
  type ClassName = string

  /** An IAssetAnalyzer behind a shared pointer; valid is TSharedPtr::IsValid. */
  datatype Analyzer = Analyzer(name: string, valid: bool)

  /** What an analyzer's AnalyzeAsset appends for an asset under a profile. */
  type AnalyzeFn = (Analyzer, AssetData, ProfileData) -> seq<AnalysisResult>

  /**
   * The analyzer the superclass walk settles on: the first class of the chain,
   * most derived first, that maps to a valid analyzer.
   */
  function FirstRegistered(registry: map<ClassName, Analyzer>, chain: seq<ClassName>): Option<Analyzer>
    decreases |chain|
  {
    if |chain| == 0 then None
    else if chain[0] in registry && registry[chain[0]].valid then Some(registry[chain[0]])
    else FirstRegistered(registry, chain[1..])
  }

  /** A class of the chain that maps to a valid analyzer. */
  predicate Registered(registry: map<ClassName, Analyzer>, c: ClassName)
  {
    c in registry && registry[c].valid
  }

  /**
   * The walk finds an analyzer exactly when some class of the chain is
   * registered, and then it is the analyzer of the first such class: every
   * class before it is unregistered.
   */
  lemma {:induction false} FirstRegisteredExact(registry: map<ClassName, Analyzer>, chain: seq<ClassName>)
    ensures FirstRegistered(registry, chain).None? <==> forall i :: 0 <= i < |chain| ==> !Registered(registry, chain[i])
    ensures FirstRegistered(registry, chain).Some? ==>
              exists k :: 0 <= k < |chain| && Registered(registry, chain[k])
                && FirstRegistered(registry, chain) == Some(registry[chain[k]])
                && forall i :: 0 <= i < k ==> !Registered(registry, chain[i])
    decreases |chain|
  {
    if |chain| > 0 && !Registered(registry, chain[0]) {
      FirstRegisteredExact(registry, chain[1..]);
      if FirstRegistered(registry, chain).Some? {
        var k :| 0 <= k < |chain[1..]| && Registered(registry, chain[1..][k])
                 && FirstRegistered(registry, chain[1..]) == Some(registry[chain[1..][k]])
                 && forall i :: 0 <= i < k ==> !Registered(registry, chain[1..][i]);
        assert Registered(registry, chain[k + 1]);
        assert forall i :: 0 <= i < k + 1 ==> !Registered(registry, chain[i]) by {
          forall i | 0 <= i < k + 1
            ensures !Registered(registry, chain[i])
          {
            if i > 0 {
              assert chain[i] == chain[1..][i - 1];
            }
          }
        }
      } else {
        forall i | 0 <= i < |chain|
          ensures !Registered(registry, chain[i])
        {
          if i > 0 {
            assert chain[i] == chain[1..][i - 1];
          }
        }
      }
    } else if |chain| > 0 {
      assert Registered(registry, chain[0]);
    }
  }

  /**
   * The results AnalyzeSingleAsset appends: none for an invalid asset, a load
   * failure, a chain without a registered class, or a missing profile;
   * otherwise exactly what the one analyzer found appends.
   */
  function SingleAssetResults(registry: map<ClassName, Analyzer>, asset: AssetData, chain: Option<seq<ClassName>>,
                              profile: Option<ProfileData>, analyze: AnalyzeFn): seq<AnalysisResult>
  {
    if !asset.valid || chain.None? then []
    else
      match FirstRegistered(registry, chain.value)
      case None => []
      case Some(a) => if profile.None? then [] else analyze(a, asset, profile.value)
  }

  /**
   * At most one analyzer runs, once: whatever AnalyzeSingleAsset appends is
   * either nothing or the output of a registered analyzer of the asset's chain
   * on the asset and the active profile.
   */
  lemma SingleAssetCallsOneAnalyzer(registry: map<ClassName, Analyzer>, asset: AssetData, chain: Option<seq<ClassName>>,
                                    profile: Option<ProfileData>, analyze: AnalyzeFn)
    ensures var r := SingleAssetResults(registry, asset, chain, profile, analyze);
            || r == []
            || (exists c :: c in chain.value && Registered(registry, c)
                  && profile.Some? && r == analyze(registry[c], asset, profile.value))
    ensures !asset.valid || chain.None? || profile.None? ==> SingleAssetResults(registry, asset, chain, profile, analyze) == []
    ensures chain.Some? && (forall c :: c in chain.value ==> !Registered(registry, c)) ==>
              SingleAssetResults(registry, asset, chain, profile, analyze) == []
  {
    if chain.Some? {
      FirstRegisteredExact(registry, chain.value);
      if FirstRegistered(registry, chain.value).Some? {
        var k :| 0 <= k < |chain.value| && Registered(registry, chain.value[k])
                 && FirstRegistered(registry, chain.value) == Some(registry[chain.value[k]]);
        assert chain.value[k] in chain.value;
      }
      if forall c :: c in chain.value ==> !Registered(registry, c) {
        assert forall i :: 0 <= i < |chain.value| ==> !Registered(registry, chain.value[i]);
      }
    }
  }

  class AssetScanner {
    /** AssetAnalyzersMap. */
    var analyzers: map<ClassName, Analyzer>

    /** Every analyzer in the registry is valid: registration refuses the others. */
    predicate Valid()
      reads this
    {
      forall c :: c in analyzers ==> analyzers[c].valid
    }

    constructor()
      ensures analyzers == map[] && Valid()
    {
      analyzers := map[];
    }

    /**
     * RegisterAssetAnalyzer: with a class and a valid analyzer, the class maps
     * to it, replacing an earlier entry; otherwise nothing changes.
     */
    method RegisterAssetAnalyzer(assetClass: Option<ClassName>, analyzer: Analyzer)
      requires Valid()
      modifies this
      ensures Valid()
      ensures assetClass.Some? && analyzer.valid ==> analyzers == old(analyzers)[assetClass.value := analyzer]
      ensures !(assetClass.Some? && analyzer.valid) ==> analyzers == old(analyzers)
    {
      if assetClass.Some? && analyzer.valid {
        analyzers := analyzers[assetClass.value := analyzer];
      }
    }

    /** UnregisterAllAnalyzers: the registry is empty afterwards. */
    method UnregisterAllAnalyzers()
      modifies this
      ensures analyzers == map[] && Valid()
    {
      if |analyzers| > 0 {
        analyzers := map[];
      }
    }

    /** The superclass walk of AnalyzeSingleAsset, class by class. */
    method FindAnalyzer(chain: seq<ClassName>) returns (found: Option<Analyzer>)
      ensures found == FirstRegistered(analyzers, chain)
    {
      var i := 0;
      found := None;
      while i < |chain|
        invariant 0 <= i <= |chain|
        invariant FirstRegistered(analyzers, chain) == FirstRegistered(analyzers, chain[i..])
      {
        if chain[i] in analyzers && analyzers[chain[i]].valid {
          found := Some(analyzers[chain[i]]);
          return;
        }
        assert chain[i..][1..] == chain[i + 1..];
        i := i + 1;
      }
    }

    /**
     * AnalyzeSingleAsset: OutResults keeps its entries as a prefix and gains
     * exactly what the one dispatched analyzer appends.
     */
    method AnalyzeSingleAsset(asset: AssetData, chain: Option<seq<ClassName>>, profile: Option<ProfileData>,
                              analyze: AnalyzeFn, outResults: seq<AnalysisResult>) returns (results: seq<AnalysisResult>)
      ensures results == outResults + SingleAssetResults(analyzers, asset, chain, profile, analyze)
    {
      results := outResults;
      if !asset.valid {
        return;
      }
      if chain.None? {
        return;
      }
      var found := FindAnalyzer(chain.value);
      if found.Some? {
        if profile.Some? {
          results := results + analyze(found.value, asset, profile.value);
        }
      }
    }

    /**
     * ScanAssetsInPath: the by-reference output list is the returned one; it is
     * emptied first, so it holds exactly what the asset registry returns for
     * the path and nothing the caller passed in.
     */
    method ScanAssetsInPath(path: string, recursive: bool, query: (string, bool) -> seq<AssetData>)
      returns (list: seq<AssetData>)
      ensures list == query(path, recursive)
    {
      list := [];
      list := list + query(path, recursive);
    }

    /** ScanSelectedAssets: the output list, emptied first, becomes the Content Browser selection. */
    method ScanSelectedAssets(selection: seq<AssetData>) returns (list: seq<AssetData>)
      ensures list == selection
    {
      list := [];
      list := list + selection;
    }
  }
}
