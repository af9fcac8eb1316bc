/**
 * SPipelineGuardianReportView without its widgets: the full result list, the
 * severity filter and the list it displays, the per-result check boxes, and
 * the two fix batches with their confirmation.
 *
 * A result is identified by its position in the full list, standing for the
 * shared pointer the view keys its selection map with; a null pointer is None.
 */
module Report {
  import opened Wrappers
  import opened Results

  /** The filter entry that shows every valid result. */
  const AllFilter := "All"

  /** SeverityFilterOptions, in the order of the combo box. */
  const FilterOptions: seq<string> := [AllFilter, "Critical", "Error", "Warning", "Info"]

  /** SeverityToText: the name of a severity as the filter options spell it. */
  function SeverityToText(s: Severity): (t: string)
    ensures t in FilterOptions && t != AllFilter
  {
    match s
    case Critical => "Critical"
    case Error => "Error"
    case Warning => "Warning"
    case Info => "Info"
  }

  /** Distinct severities have distinct names, so a severity filter admits one severity only. */
  lemma SeverityToTextInjective(a: Severity, b: Severity)
    ensures SeverityToText(a) == SeverityToText(b) <==> a == b
  {
    if a != b {
      assert |SeverityToText(a)| != |SeverityToText(b)|;
    }
  }

  /** ECheckBoxState. */
  datatype CheckState = Unchecked | Checked | Undetermined

  /** The severity test of ApplyFilters: no filter or "All" admits everything. */
  predicate PassesFilter(r: AnalysisResult, filter: Option<string>)
  {
    filter.None? || filter.value == AllFilter || SeverityToText(r.severity) == filter.value
  }

  /** The positions ApplyFilters keeps among the first n results: valid results that pass the filter. */
  function Shown(all: seq<Option<AnalysisResult>>, filter: Option<string>, n: nat): seq<nat>
    requires n <= |all|
  {
    if n == 0 then []
    else Shown(all, filter, n - 1) + (if all[n - 1].Some? && PassesFilter(all[n - 1].value, filter) then [n - 1] else [])
  }

  /** Positions in strictly increasing order: a subsequence in list order, without repeats. */
  predicate Increasing(s: seq<nat>)
  {
    forall i, j :: 0 <= i < j < |s| ==> s[i] < s[j]
  }

  /**
   * The displayed list is the order-preserving subsequence of the valid
   * results that pass the filter: under "All" (or no filter) every valid
   * result, otherwise those whose severity's name is the filter.
   */
  lemma {:induction false} ShownExact(all: seq<Option<AnalysisResult>>, filter: Option<string>, n: nat)
    requires n <= |all|
    ensures forall i: nat :: i in Shown(all, filter, n) <==> i < n && all[i].Some? && PassesFilter(all[i].value, filter)
    ensures Increasing(Shown(all, filter, n))
    ensures forall k :: 0 <= k < |Shown(all, filter, n)| ==> Shown(all, filter, n)[k] < n
  {
    if n > 0 {
      ShownExact(all, filter, n - 1);
    }
  }

  // ---------------------------------------------------------------------------
  // The tests the loops over DisplayedResults apply

  /** The three per-result tests: checked, fix bound, or both. */
  datatype Criterion = Selected | Fixable | SelectedFixable

  /** The result at position i exists, is non-null and meets the criterion. */
  predicate Meets(all: seq<Option<AnalysisResult>>, selection: map<nat, bool>, c: Criterion, i: nat)
  {
    && i < |all| && all[i].Some?
    && (c != Fixable ==> i in selection && selection[i])
    && (c != Selected ==> all[i].value.fix.Some?)
  }

  /** The positions of ds, in order, whose results meet the criterion. */
  function Pick(all: seq<Option<AnalysisResult>>, selection: map<nat, bool>, c: Criterion, ds: seq<nat>): seq<nat>
  {
    if |ds| == 0 then []
    else Pick(all, selection, c, ds[..|ds| - 1]) + (if Meets(all, selection, c, ds[|ds| - 1]) then [ds[|ds| - 1]] else [])
  }

  /** Pick keeps exactly the positions of ds that meet the criterion. */
  lemma {:induction false} PickMembers(all: seq<Option<AnalysisResult>>, selection: map<nat, bool>, c: Criterion, ds: seq<nat>)
    ensures forall x :: x in Pick(all, selection, c, ds) <==> x in ds && Meets(all, selection, c, x)
  {
    if |ds| > 0 {
      var init := ds[..|ds| - 1];
      PickMembers(all, selection, c, init);
      assert ds == init + [ds[|ds| - 1]];
    }
  }

  /**
   * Pick keeps all of ds exactly when every position meets the criterion, and
   * none exactly when no position does.
   */
  lemma {:induction false} PickLength(all: seq<Option<AnalysisResult>>, selection: map<nat, bool>, c: Criterion, ds: seq<nat>)
    ensures |Pick(all, selection, c, ds)| <= |ds|
    ensures |Pick(all, selection, c, ds)| == |ds| <==> forall k :: 0 <= k < |ds| ==> Meets(all, selection, c, ds[k])
    ensures |Pick(all, selection, c, ds)| == 0 <==> forall k :: 0 <= k < |ds| ==> !Meets(all, selection, c, ds[k])
  {
    if |ds| > 0 {
      var init := ds[..|ds| - 1];
      PickLength(all, selection, c, init);
      assert forall k :: 0 <= k < |init| ==> ds[k] == init[k];
    }
  }

  /** Picking from positions in list order keeps them in list order. */
  lemma {:induction false} PickIncreasing(all: seq<Option<AnalysisResult>>, selection: map<nat, bool>, c: Criterion, ds: seq<nat>)
    requires Increasing(ds)
    ensures Increasing(Pick(all, selection, c, ds))
  {
    if |ds| > 0 {
      var init := ds[..|ds| - 1];
      PickIncreasing(all, selection, c, init);
      PickMembers(all, selection, c, init);
      var p := Pick(all, selection, c, init);
      assert forall k :: 0 <= k < |p| ==> p[k] in init;
      assert forall x :: x in init ==> x < ds[|ds| - 1];
    }
  }

  /** The fix-selected batch lies within the fix-all batch: both keep displayed order and need a bound fix. */
  lemma SelectedBatchWithinAllBatch(all: seq<Option<AnalysisResult>>, selection: map<nat, bool>, ds: seq<nat>)
    ensures forall x :: x in Pick(all, selection, SelectedFixable, ds) ==> x in Pick(all, selection, Fixable, ds)
    ensures forall x :: x in Pick(all, selection, SelectedFixable, ds) <==>
              x in Pick(all, selection, Selected, ds) && x in Pick(all, selection, Fixable, ds)
  {
    PickMembers(all, selection, SelectedFixable, ds);
    PickMembers(all, selection, Fixable, ds);
    PickMembers(all, selection, Selected, ds);
  }

  /** GetSelectAllState: unchecked when nothing is shown or nothing shown is checked, checked when all are. */
  function SelectAllState(all: seq<Option<AnalysisResult>>, selection: map<nat, bool>, ds: seq<nat>): CheckState
  {
    if |ds| == 0 then Unchecked
    else
      var n := |Pick(all, selection, Selected, ds)|;
      if n == 0 then Unchecked else if n == |ds| then Checked else Undetermined
  }

  /**
   * The tri-state in terms of the check boxes: Checked exactly when something
   * is shown and every shown result is checked, Unchecked exactly when no
   * shown result is checked, Undetermined otherwise.
   */
  lemma SelectAllStateMeaning(all: seq<Option<AnalysisResult>>, selection: map<nat, bool>, ds: seq<nat>)
    ensures SelectAllState(all, selection, ds) == Checked <==>
              |ds| > 0 && forall k :: 0 <= k < |ds| ==> Meets(all, selection, Selected, ds[k])
    ensures SelectAllState(all, selection, ds) == Unchecked <==>
              forall k :: 0 <= k < |ds| ==> !Meets(all, selection, Selected, ds[k])
  {
    PickLength(all, selection, Selected, ds);
  }

  /**
   * When every shown result is non-null and carries the same check mark, the
   * select-all box shows that mark: Checked for all checked, Unchecked for
   * none (and Unchecked when nothing is shown).
   */
  lemma UniformSelectionState(all: seq<Option<AnalysisResult>>, selection: map<nat, bool>, ds: seq<nat>, checked: bool)
    requires forall k :: 0 <= k < |ds| ==> ds[k] < |all| && all[ds[k]].Some? && ds[k] in selection && selection[ds[k]] == checked
    ensures SelectAllState(all, selection, ds) == (if checked && |ds| > 0 then Checked else Unchecked)
  {
    SelectAllStateMeaning(all, selection, ds);
  }

  /** The select-all loop: each listed valid result that has a mark takes `checked`. */
  method MarkShown(all: seq<Option<AnalysisResult>>, sel0: map<nat, bool>, ds: seq<nat>, checked: bool)
    returns (sel: map<nat, bool>)
    requires forall k :: 0 <= k < |ds| ==> ds[k] < |all|
    ensures forall i: nat :: i in sel <==> i in sel0
    ensures forall i: nat :: i in sel ==> sel[i] == (if i in ds && all[i].Some? then checked else sel0[i])
  {
    sel := sel0;
    var k := 0;
    while k < |ds|
      invariant 0 <= k <= |ds|
      invariant forall i: nat :: i in sel <==> i in sel0
      invariant forall i: nat :: i in sel ==> sel[i] == (if i in ds[..k] && all[i].Some? then checked else sel0[i])
    {
      var r := ds[k];
      assert ds[..k + 1] == ds[..k] + [r];
      if all[r].Some? && r in sel {
        sel := sel[r := checked];
      }
      k := k + 1;
    }
    assert ds[..k] == ds;
  }

  /** Once every shown result carries the same mark, the select-all box shows that mark. */
  lemma MarkedShownState(all: seq<Option<AnalysisResult>>, filter: Option<string>, selection: map<nat, bool>,
                         ds: seq<nat>, checked: bool)
    requires ds == Shown(all, filter, |all|)
    requires forall i: nat :: i in selection <==> i < |all|
    requires forall i: nat :: i in selection && i in ds ==> selection[i] == checked
    ensures SelectAllState(all, selection, ds) == (if checked && |ds| > 0 then Checked else Unchecked)
  {
    ShownExact(all, filter, |all|);
    forall k | 0 <= k < |ds|
      ensures ds[k] < |all| && all[ds[k]].Some? && ds[k] in selection && selection[ds[k]] == checked
    {
      assert ds[k] in ds;
    }
    UniformSelectionState(all, selection, ds, checked);
  }

  /** The fixes a batch invokes, in batch order: those of its non-null results with a bound fix. */
  function FixesOf(all: seq<Option<AnalysisResult>>, items: seq<nat>): seq<FixCommand>
  {
    if |items| == 0 then []
    else
      var i := items[|items| - 1];
      FixesOf(all, items[..|items| - 1]) + (if i < |all| && all[i].Some? && all[i].value.fix.Some? then [all[i].value.fix.value] else [])
  }

  /** Every result of a fix batch has a bound fix, so each is invoked: the success count is the batch size. */
  lemma {:induction false} BatchFixesAll(all: seq<Option<AnalysisResult>>, selection: map<nat, bool>, c: Criterion, ds: seq<nat>)
    requires c != Selected
    ensures |FixesOf(all, Pick(all, selection, c, ds))| == |Pick(all, selection, c, ds)|
  {
    if |ds| > 0 {
      BatchFixesAll(all, selection, c, ds[..|ds| - 1]);
      var p := Pick(all, selection, c, ds[..|ds| - 1]);
      var x := ds[|ds| - 1];
      if Meets(all, selection, c, x) {
        var q := p + [x];
        assert Pick(all, selection, c, ds) == q;
        assert q[..|q| - 1] == p && q[|q| - 1] == x;
        assert FixesOf(all, q) == FixesOf(all, p) + [all[x].value.fix.value];
      } else {
        assert Pick(all, selection, c, ds) == p;
      }
    }
  }

  /** The selection map SetResults builds: every position present and unchecked. */
  function Unselected(n: nat): map<nat, bool>
  {
    if n == 0 then map[] else Unselected(n - 1)[n - 1 := false]
  }

  /** Unselected(n) has the keys below n, each unchecked. */
  lemma {:induction false} UnselectedExact(n: nat)
    ensures forall i: nat :: i in Unselected(n) <==> i < n
    ensures forall i: nat :: i in Unselected(n) ==> !Unselected(n)[i]
  {
    if n > 0 {
      UnselectedExact(n - 1);
    }
  }

  class ReportView {
    /** AllResults. */
    var all: seq<Option<AnalysisResult>>
    /** DisplayedResults, as positions in AllResults. */
    var displayed: seq<nat>
    /** SelectionState. */
    var selection: map<nat, bool>
    /** CurrentSeverityFilter; None is a null pointer. */
    var filter: Option<string>
    /** OnRefreshRequested.IsBound(). */
    var refreshBound: bool
    /** The fix actions executed so far, in order. */
    var invoked: seq<FixCommand>
    /** How often OnRefreshRequested has been executed. */
    var refreshRequests: nat

    /**
     * The displayed list is the filtered view of the full list, and the
     * selection map has exactly one entry per position of the full list.
     */
    ghost predicate Valid()
      reads this
    {
      && displayed == Shown(all, filter, |all|)
      && forall i: nat :: i in selection <==> i < |all|
    }

    /** Construct: empty lists and map, filter "All". */
    constructor()
      ensures Valid()
      ensures all == [] && displayed == [] && selection == map[] && filter == Some(AllFilter)
      ensures !refreshBound && invoked == [] && refreshRequests == 0
    {
      all := [];
      displayed := [];
      selection := map[];
      filter := Some(FilterOptions[0]);
      refreshBound := false;
      invoked := [];
      refreshRequests := 0;
    }

    /** The window binds OnRefreshRequested to its own refresh. */
    method BindRefresh()
      modifies this
      ensures refreshBound
      ensures all == old(all) && displayed == old(displayed) && selection == old(selection) && filter == old(filter)
      ensures invoked == old(invoked) && refreshRequests == old(refreshRequests)
    {
      refreshBound := true;
    }

    /** ApplyFilters: rebuilds DisplayedResults from AllResults under the current filter. */
    method ApplyFilters()
      modifies this
      ensures displayed == Shown(all, filter, |all|)
      ensures all == old(all) && selection == old(selection) && filter == old(filter)
      ensures refreshBound == old(refreshBound) && invoked == old(invoked) && refreshRequests == old(refreshRequests)
    {
      var shown := [];
      var i := 0;
      while i < |all|
        invariant 0 <= i <= |all|
        invariant shown == Shown(all, filter, i)
      {
        if all[i].Some? && PassesFilter(all[i].value, filter) {
          shown := shown + [i];
        }
        i := i + 1;
      }
      displayed := shown;
    }

    /** SetResults: the new list replaces the old, every result starts unchecked, and the filter is re-applied. */
    method SetResults(results: seq<Option<AnalysisResult>>)
      modifies this
      ensures Valid()
      ensures all == results && selection == Unselected(|results|)
      ensures displayed == Shown(results, filter, |results|)
      ensures filter == old(filter) && refreshBound == old(refreshBound)
      ensures invoked == old(invoked) && refreshRequests == old(refreshRequests)
    {
      all := results;
      var blank := map[];
      var i := 0;
      while i < |results|
        invariant 0 <= i <= |results|
        invariant blank == Unselected(i)
      {
        blank := blank[i := false];
        i := i + 1;
      }
      selection := blank;
      ApplyFilters();
      UnselectedExact(|results|);
    }

    /** OnSeverityFilterChanged: the new filter, and the displayed list rebuilt under it. */
    method OnSeverityFilterChanged(newFilter: Option<string>)
      requires Valid()
      modifies this
      ensures Valid()
      ensures filter == newFilter && displayed == Shown(all, newFilter, |all|)
      ensures all == old(all) && selection == old(selection)
      ensures refreshBound == old(refreshBound) && invoked == old(invoked) && refreshRequests == old(refreshRequests)
    {
      filter := newFilter;
      ApplyFilters();
    }

    /** OnItemSelectionChanged: only a non-null result already in the map changes its check box. */
    method OnItemSelectionChanged(checked: bool, item: nat)
      requires Valid()
      modifies this
      ensures Valid()
      ensures item < |all| && all[item].Some? ==> selection == old(selection)[item := checked]
      ensures !(item < |all| && all[item].Some?) ==> selection == old(selection)
      ensures all == old(all) && displayed == old(displayed) && filter == old(filter)
      ensures refreshBound == old(refreshBound) && invoked == old(invoked) && refreshRequests == old(refreshRequests)
    {
      if item < |all| && all[item].Some? && item in selection {
        selection := selection[item := checked];
      }
    }

    /** OnSelectAllChanged: every displayed result takes the new state; hidden results keep theirs. */
    method OnSelectAllChanged(checked: bool)
      requires Valid()
      modifies this
      ensures Valid()
      ensures forall i: nat :: i in selection <==> i in old(selection)
      ensures forall i: nat :: i in selection ==> selection[i] == (if i in displayed then checked else old(selection)[i])
      ensures SelectAllState(all, selection, displayed) == (if checked && |displayed| > 0 then Checked else Unchecked)
      ensures all == old(all) && displayed == old(displayed) && filter == old(filter)
      ensures refreshBound == old(refreshBound) && invoked == old(invoked) && refreshRequests == old(refreshRequests)
    {
      ShownExact(all, filter, |all|);
      selection := MarkShown(all, selection, displayed, checked);
      MarkedShownState(all, filter, selection, displayed, checked);
    }

    /** GetSelectedItemCount: the number of displayed results that are checked. */
    method GetSelectedItemCount() returns (count: nat)
      ensures count == |Pick(all, selection, Selected, displayed)|
    {
      count := 0;
      var k := 0;
      while k < |displayed|
        invariant 0 <= k <= |displayed|
        invariant count == |Pick(all, selection, Selected, displayed[..k])|
      {
        assert displayed[..k + 1][..k] == displayed[..k];
        var r := displayed[k];
        if r < |all| && all[r].Some? && r in selection && selection[r] {
          count := count + 1;
        }
        k := k + 1;
      }
      assert displayed[..k] == displayed;
    }

    /** GetSelectAllState, computed by counting the checked displayed results. */
    method GetSelectAllState() returns (state: CheckState)
      ensures state == SelectAllState(all, selection, displayed)
    {
      if |displayed| == 0 {
        return Unchecked;
      }
      var count := GetSelectedItemCount();
      if count == 0 {
        state := Unchecked;
      } else if count == |displayed| {
        state := Checked;
      } else {
        state := Undetermined;
      }
    }

    /** The loops of OnFixSelectedClicked and OnFixAllClicked: the displayed results meeting a test, in order. */
    method CollectBatch(c: Criterion) returns (batch: seq<nat>)
      ensures batch == Pick(all, selection, c, displayed)
    {
      batch := [];
      var k := 0;
      while k < |displayed|
        invariant 0 <= k <= |displayed|
        invariant batch == Pick(all, selection, c, displayed[..k])
      {
        assert displayed[..k + 1][..k] == displayed[..k];
        if Meets(all, selection, c, displayed[k]) {
          batch := batch + [displayed[k]];
        }
        k := k + 1;
      }
      assert displayed[..k] == displayed;
    }

    /** IsFixSelectedEnabled and IsFixAllEnabled: some displayed result meets the batch's test. */
    method IsFixEnabled(c: Criterion) returns (enabled: bool)
      requires c != Selected
      ensures enabled <==> |Pick(all, selection, c, displayed)| > 0
    {
      var k := 0;
      while k < |displayed|
        invariant 0 <= k <= |displayed|
        invariant |Pick(all, selection, c, displayed[..k])| == 0
      {
        assert displayed[..k + 1][..k] == displayed[..k];
        if Meets(all, selection, c, displayed[k]) {
          PickMembers(all, selection, c, displayed);
          assert displayed[k] in displayed;
          return true;
        }
        k := k + 1;
      }
      assert displayed[..k] == displayed;
      return false;
    }

    /**
     * ExecuteFixesAndRefresh: after a Yes, every non-null item with a bound
     * fix has its fix invoked once, in batch order, the success count is the
     * number invoked, and a bound refresh is requested; after a No nothing
     * happens.
     */
    method ExecuteFixesAndRefresh(items: seq<nat>, confirmed: bool) returns (successCount: nat)
      modifies this
      ensures confirmed ==> invoked == old(invoked) + FixesOf(all, items) && successCount == |FixesOf(all, items)|
      ensures confirmed ==> refreshRequests == old(refreshRequests) + (if refreshBound then 1 else 0)
      ensures !confirmed ==> invoked == old(invoked) && refreshRequests == old(refreshRequests) && successCount == 0
      ensures all == old(all) && displayed == old(displayed) && selection == old(selection)
      ensures filter == old(filter) && refreshBound == old(refreshBound)
    {
      successCount := 0;
      if !confirmed {
        return;
      }
      var log := invoked;
      var k := 0;
      while k < |items|
        invariant 0 <= k <= |items|
        invariant log == invoked + FixesOf(all, items[..k])
        invariant successCount == |FixesOf(all, items[..k])|
      {
        assert items[..k + 1][..k] == items[..k];
        var r := items[k];
        if r < |all| && all[r].Some? && all[r].value.fix.Some? {
          log := log + [all[r].value.fix.value];
          successCount := successCount + 1;
        }
        k := k + 1;
      }
      assert items[..k] == items;
      invoked := log;
      if refreshBound {
        refreshRequests := refreshRequests + 1;
      }
    }

    /**
     * OnFixSelectedClicked (Selected = false) and OnFixAllClicked (true): an
     * empty batch only shows a message; otherwise the batch goes to
     * ExecuteFixesAndRefresh.
     */
    method OnFixClicked(fixAll: bool, confirmed: bool) returns (successCount: nat)
      requires Valid()
      modifies this
      ensures Valid()
      ensures var batch := Pick(old(all), old(selection), if fixAll then Fixable else SelectedFixable, old(displayed));
              && invoked == old(invoked) + (if confirmed then FixesOf(all, batch) else [])
              && successCount == (if confirmed then |batch| else 0)
              && refreshRequests == old(refreshRequests) + (if confirmed && |batch| > 0 && refreshBound then 1 else 0)
      ensures all == old(all) && displayed == old(displayed) && selection == old(selection)
      ensures filter == old(filter) && refreshBound == old(refreshBound)
    {
      var c := if fixAll then Fixable else SelectedFixable;
      var batch := CollectBatch(c);
      BatchFixesAll(all, selection, c, displayed);
      if |batch| == 0 {
        return 0;
      }
      successCount := ExecuteFixesAndRefresh(batch, confirmed);
    }
  }
}
