/**
 * FStaticMeshMaterialSlotRule: a mesh raises one result when it has at least the
 * warning threshold of material slots or when some slot has no material. The fix
 * removes the empty slots, highest index first.
 */
module MaterialSlot {
  import opened Wrappers
  import opened Text
  import opened Results
  import opened Mesh
  import opened Rule
  import opened Settings

  const RuleId := "SM_MaterialSlot"

  type Slots = seq<Option<string>>

  // ---------------------------------------------------------------------------
  // Empty slots

  /** The positions among the first n slots that hold no material, ascending. */
  function EmptySlotsUpTo(slots: Slots, n: nat): seq<int>
    requires n <= |slots|
  {
    if n == 0 then [] else EmptySlotsUpTo(slots, n - 1) + (if slots[n - 1].None? then [n - 1] else [])
  }

  function EmptySlots(slots: Slots): seq<int>
  {
    EmptySlotsUpTo(slots, |slots|)
  }

  predicate Ascending(idx: seq<int>)
  {
    forall i, j :: 0 <= i < j < |idx| ==> idx[i] < idx[j]
  }

  predicate InRange(idx: seq<int>, n: int)
  {
    forall i :: 0 <= i < |idx| ==> 0 <= idx[i] < n
  }

  /** The list holds exactly the empty positions below n, ascending. */
  lemma {:induction false} EmptySlotsUpToExact(slots: Slots, n: nat)
    requires n <= |slots|
    ensures Ascending(EmptySlotsUpTo(slots, n)) && InRange(EmptySlotsUpTo(slots, n), n)
    ensures forall j :: 0 <= j < n ==> (j in EmptySlotsUpTo(slots, n) <==> slots[j].None?)
  {
    if n > 0 {
      EmptySlotsUpToExact(slots, n - 1);
    }
  }

  /** EmptySlots lists every slot without a material and nothing else, in ascending order. */
  lemma EmptySlotsExact(slots: Slots)
    ensures Ascending(EmptySlots(slots)) && InRange(EmptySlots(slots), |slots|)
    ensures forall j :: 0 <= j < |slots| ==> (j in EmptySlots(slots) <==> slots[j].None?)
    ensures |EmptySlots(slots)| > 0 <==> exists j :: 0 <= j < |slots| && slots[j].None?
  {
    EmptySlotsUpToExact(slots, |slots|);
    var e := EmptySlots(slots);
    if |e| > 0 {
      assert e[0] in e;
    }
  }

  /** HasEmptyMaterialSlots: collect the empty slot indices in one pass. */
  method HasEmptyMaterialSlots(m: StaticMesh) returns (hasEmpty: bool, indices: seq<int>)
    ensures indices == EmptySlots(m.materials)
    ensures hasEmpty <==> |indices| > 0
  {
    indices := [];
    var i := 0;
    while i < |m.materials|
      invariant 0 <= i <= |m.materials|
      invariant indices == EmptySlotsUpTo(m.materials, i)
    {
      if m.materials[i].None? {
        indices := indices + [i];
      }
      i := i + 1;
    }
    hasEmpty := |indices| > 0;
  }

  // ---------------------------------------------------------------------------
  // Severity and description

  /**
   * The configured severity, replaced by Error or Warning when the slot count
   * reaches the warning threshold, then raised from Info to Warning by empty slots.
   */
  function SlotSeverity(configured: Severity, count: nat, warning: int, error: int, hasEmpty: bool): Severity
  {
    var s := if count >= warning then (if count >= error then Error else Warning) else configured;
    if hasEmpty && s == Info then Warning else s
  }

  /** The mesh has LODs and at least one material slot. */
  predicate CanSafelyOptimizeMaterialSlots(m: StaticMesh)
  {
    |m.lods| > 0 && |m.materials| > 0
  }

  function IndexTexts(idx: seq<int>): (t: seq<string>)
    ensures |t| == |idx|
    ensures forall i :: 0 <= i < |idx| ==> t[i] == IntToString(idx[i])
  {
    seq(|idx|, i requires 0 <= i < |idx| => IntToString(idx[i]))
  }

  function CountClause(count: nat, warning: int, error: int): string
  {
    if count >= error then
      "Too many material slots (" + IntToString(count) + " >= " + IntToString(error) + " error threshold). "
    else if count >= warning then
      "High material slot count (" + IntToString(count) + " >= " + IntToString(warning) + " warning threshold). "
    else ""
  }

  function EmptyClause(idx: seq<int>, joined: string): string
  {
    if |idx| > 0 then
      "Found " + IntToString(|idx|) + " empty material slot(s) at indices: " + joined + ". "
      + "Empty slots can be automatically removed with 'Fix Now'."
    else ""
  }

  /** GenerateMaterialSlotDescription, with the empty indices joined by ", ". */
  function Description(m: StaticMesh, count: nat, warning: int, error: int, idx: seq<int>): string
  {
    if count >= error || count >= warning || |idx| > 0 then
      "Material slot issues detected for " + m.name + " (" + IntToString(count) + " slots): "
      + CountClause(count, warning, error) + EmptyClause(idx, Join(IndexTexts(idx), ", "))
    else "Material slot check failed for " + m.name
  }

  /** Both branches of the description: the issue header, or the fallback without any issue. */
  method GenerateMaterialSlotDescription(m: StaticMesh, count: nat, warning: int, error: int, idx: seq<int>)
    returns (d: string)
    ensures d == Description(m, count, warning, error, idx)
  {
    var joined := JoinParts(IndexTexts(idx), ", ");
    d := "Material slot issues detected for " + m.name + " (" + IntToString(count) + " slots): ";
    var hasIssues := false;
    if count >= error || count >= warning {
      d := d + CountClause(count, warning, error);
      hasIssues := true;
    }
    if |idx| > 0 {
      d := d + EmptyClause(idx, joined);
      hasIssues := true;
    }
    if !hasIssues {
      d := "Material slot check failed for " + m.name;
    }
  }

  /** A description with issues names the mesh and its slot count first; otherwise it is the fallback. */
  lemma DescriptionHeader(m: StaticMesh, count: nat, warning: int, error: int, idx: seq<int>)
    ensures var d := Description(m, count, warning, error, idx);
            if count >= error || count >= warning || |idx| > 0
            then "Material slot issues detected for " + m.name + " (" + IntToString(count) + " slots): " <= d
            else d == "Material slot check failed for " + m.name
  {
    hide CountClause, EmptyClause;
  }

  // ---------------------------------------------------------------------------
  // Check

  /**
   * The outcome Check specifies: nothing without a mesh or with the rule switched
   * off in the settings; otherwise one result when the slot count reaches the
   * warning threshold or some slot is empty, with the removal fix when auto-fix is
   * allowed, the mesh can be optimized and some slot is empty.
   */
  function Evaluate(asset: Option<StaticMesh>, q: QuickSettings): Outcome
  {
    if asset.None? || !q.enableMaterialSlot then NoIssue
    else
      var m := asset.value;
      var count := |m.materials|;
      var idx := EmptySlots(m.materials);
      if count >= q.materialSlotWarningThreshold || |idx| > 0 then
        var severity := SlotSeverity(q.materialSlotSeverity, count, q.materialSlotWarningThreshold,
                                     q.materialSlotErrorThreshold, |idx| > 0);
        var description := Description(m, count, q.materialSlotWarningThreshold, q.materialSlotErrorThreshold, idx);
        var fix := if q.allowMaterialSlotAutoFix && CanSafelyOptimizeMaterialSlots(m) && |idx| > 0
                   then Some(RemoveMaterialSlots(idx)) else None;
        Outcome(true, [UnlocatedIssue(m, severity, RuleId, description, fix)])
      else NoIssue
  }

  method Check(asset: Option<StaticMesh>, q: QuickSettings) returns (o: Outcome)
    ensures o == Evaluate(asset, q)
  {
    hide Description;
    if asset.None? || !q.enableMaterialSlot {
      return NoIssue;
    }
    var m := asset.value;
    var severity := q.materialSlotSeverity;
    var count := |m.materials|;
    var tooMany := count >= q.materialSlotWarningThreshold;
    var hasEmpty, idx := HasEmptyMaterialSlots(m);
    if tooMany {
      if count >= q.materialSlotErrorThreshold {
        severity := Error;
      } else if count >= q.materialSlotWarningThreshold {
        severity := Warning;
      }
    }
    if hasEmpty && severity == Info {
      severity := Warning;
    }
    if tooMany || hasEmpty {
      var description := GenerateMaterialSlotDescription(m, count, q.materialSlotWarningThreshold,
                                                         q.materialSlotErrorThreshold, idx);
      var fix := None;
      if q.allowMaterialSlotAutoFix && CanSafelyOptimizeMaterialSlots(m) && |idx| > 0 {
        fix := Some(RemoveMaterialSlots(idx));
      }
      return Outcome(true, [UnlocatedIssue(m, severity, RuleId, description, fix)]);
    }
    return NoIssue;
  }

  /**
   * With the rule enabled, Check reports exactly when the slot count reaches the
   * warning threshold or some slot is empty. The severity is Error from the error
   * threshold on and Warning between the thresholds; below them the configured
   * severity stays, except that Info becomes Warning. The fix is bound exactly
   * when auto-fix is allowed, the mesh has LODs and some slot is empty, and it
   * removes the empty slots.
   */
  lemma EvaluateReports(m: StaticMesh, q: QuickSettings)
    requires q.enableMaterialSlot
    ensures var o := Evaluate(Some(m), q);
            var count := |m.materials|;
            var warning := q.materialSlotWarningThreshold;
            var empty := exists j :: 0 <= j < count && m.materials[j].None?;
            && (o.found <==> count >= warning || empty)
            && |o.results| == (if o.found then 1 else 0)
            && (o.found ==>
                  var r := o.results[0];
                  && r.ruleId == RuleId && r.asset == AssetOf(m) && r.filePath == ""
                  && (count >= warning ==> (r.severity == Error <==> count >= q.materialSlotErrorThreshold))
                  && (count >= warning ==> (r.severity == Warning <==> count < q.materialSlotErrorThreshold))
                  && (count < warning ==>
                        r.severity == (if q.materialSlotSeverity == Info then Warning else q.materialSlotSeverity))
                  && r.severity != Info
                  && (r.fix.Some? <==> q.allowMaterialSlotAutoFix && |m.lods| > 0 && empty)
                  && (r.fix.Some? ==> r.fix.value == RemoveMaterialSlots(EmptySlots(m.materials))))
  {
    hide Description;
    EmptySlotsExact(m.materials);
  }

  /** Nothing is reported without a mesh or with the rule switched off. */
  lemma EvaluateQuiet(asset: Option<StaticMesh>, q: QuickSettings)
    requires asset.None? || !q.enableMaterialSlot
    ensures Evaluate(asset, q) == NoIssue
  {
  }

  // ---------------------------------------------------------------------------
  // Fix

  /** TArray::RemoveAt for an index in range; any other index leaves the slots alone. */
  function RemoveSlot(slots: Slots, k: int): Slots
  {
    if 0 <= k < |slots| then slots[..k] + slots[k + 1..] else slots
  }

  /** The slots after removing idx[|idx| - 1], then idx[|idx| - 2], ..., then idx[0]. */
  function RemovedInReverse(slots: Slots, idx: seq<int>): Slots
    decreases |idx|
  {
    if |idx| == 0 then slots else RemovedInReverse(RemoveSlot(slots, idx[|idx| - 1]), idx[..|idx| - 1])
  }

  /** One step of the reverse removal: the entry at i - 1 first, then the ones before it. */
  lemma RemovedStep(slots: Slots, idx: seq<int>, i: nat)
    requires i <= |idx|
    ensures i == 0 ==> RemovedInReverse(slots, idx[..i]) == slots
    ensures 0 < i ==> RemovedInReverse(RemoveSlot(slots, idx[i - 1]), idx[..i - 1]) == RemovedInReverse(slots, idx[..i])
  {
    if i > 0 {
      assert idx[..i][..i - 1] == idx[..i - 1];
    }
  }

  /** The removal loop: from the last listed index down to the first, skipping out-of-range ones. */
  method RemoveListedSlots(slots: Slots, idx: seq<int>) returns (r: Slots)
    ensures r == RemovedInReverse(slots, idx)
  {
    hide RemovedInReverse;
    r := slots;
    var i := |idx|;
    assert idx[..i] == idx;
    while i > 0
      invariant 0 <= i <= |idx|
      invariant RemovedInReverse(r, idx[..i]) == RemovedInReverse(slots, idx)
    {
      var k := idx[i - 1];
      RemovedStep(r, idx, i);
      if 0 <= k < |r| {
        r := r[..k] + r[k + 1..];
      }
      i := i - 1;
    }
    RemovedStep(r, idx, 0);
  }

  /**
   * OptimizeMaterialSlots: nothing for an empty index list; otherwise the mesh's
   * slots with the listed ones removed.
   */
  method OptimizeMaterialSlots(m: StaticMesh, idx: seq<int>) returns (ok: bool, r: StaticMesh)
    ensures ok <==> |idx| > 0
    ensures ok ==> r == m.(materials := RemovedInReverse(m.materials, idx))
    ensures !ok ==> r == m
  {
    if |idx| == 0 {
      return false, m;
    }
    var slots := RemoveListedSlots(m.materials, idx);
    return true, m.(materials := slots);
  }

  /** The slots whose positions are not listed, in their original order. */
  function Survivors(slots: Slots, idx: seq<int>): (s: Slots)
    ensures |s| <= |slots|
  {
    if |slots| == 0 then []
    else Survivors(slots[..|slots| - 1], idx) + (if |slots| - 1 in idx then [] else [slots[|slots| - 1]])
  }

  /** Only the listed positions inside the slots matter. */
  lemma {:induction false} SurvivorsAgree(slots: Slots, a: seq<int>, b: seq<int>)
    requires forall j :: 0 <= j < |slots| ==> (j in a <==> j in b)
    ensures Survivors(slots, a) == Survivors(slots, b)
  {
    if |slots| > 0 {
      SurvivorsAgree(slots[..|slots| - 1], a, b);
    }
  }

  /** With no listed position from n on, the slots from n on all survive. */
  lemma {:induction false} SurvivorsTail(slots: Slots, idx: seq<int>, n: nat)
    requires n <= |slots|
    requires forall j :: n <= j < |slots| ==> j !in idx
    ensures Survivors(slots, idx) == Survivors(slots[..n], idx) + slots[n..]
    decreases |slots| - n
  {
    if n < |slots| {
      var init := slots[..|slots| - 1];
      SurvivorsTail(init, idx, n);
      assert init[..n] == slots[..n];
      assert init[n..] + [slots[|slots| - 1]] == slots[n..];
    } else {
      assert slots[..n] == slots;
    }
  }

  /** Listed positions below the highest listed one are those of the list without its last entry. */
  lemma LowerListed(idx: seq<int>, j: int)
    requires Ascending(idx) && |idx| > 0 && j < idx[|idx| - 1]
    ensures j in idx[..|idx| - 1] <==> j in idx
  {
    if j in idx {
      var i :| 0 <= i < |idx| && idx[i] == j;
      assert idx[..|idx| - 1][i] == j;
    }
  }

  /** Survivors of the slots with the highest listed one removed, against the other positions. */
  lemma SurvivorsOfRest(slots: Slots, idx: seq<int>)
    requires Ascending(idx) && InRange(idx, |slots|) && |idx| > 0
    ensures var last := idx[|idx| - 1];
            Survivors(slots[..last] + slots[last + 1..], idx[..|idx| - 1])
              == Survivors(slots[..last], idx[..|idx| - 1]) + slots[last + 1..]
  {
    var last := idx[|idx| - 1];
    var init := idx[..|idx| - 1];
    var rest := slots[..last] + slots[last + 1..];
    assert forall j :: last <= j < |rest| ==> j !in init;
    SurvivorsTail(rest, init, last);
    assert rest[..last] == slots[..last] && rest[last..] == slots[last + 1..];
  }

  /** No position above the highest listed one is listed. */
  lemma NoneListedAbove(idx: seq<int>)
    requires Ascending(idx) && |idx| > 0
    ensures forall j :: j > idx[|idx| - 1] ==> j !in idx
  {
    forall i | 0 <= i < |idx|
      ensures idx[i] <= idx[|idx| - 1]
    {
    }
  }

  /** Survivors of all the slots: those below the highest listed position, then everything above it. */
  lemma SurvivorsAboveLast(slots: Slots, idx: seq<int>)
    requires Ascending(idx) && InRange(idx, |slots|) && |idx| > 0
    ensures var last := idx[|idx| - 1];
            Survivors(slots, idx) == Survivors(slots[..last], idx) + slots[last + 1..]
  {
    var last := idx[|idx| - 1];
    NoneListedAbove(idx);
    SurvivorsTail(slots, idx, last + 1);
    var upTo := slots[..last + 1];
    assert upTo[..|upTo| - 1] == slots[..last];
    assert |upTo| - 1 in idx;
    assert Survivors(upTo, idx) == Survivors(slots[..last], idx);
  }

  /**
   * Removing the slot at the highest listed position leaves the survivors of the
   * other positions unchanged: those positions all lie below it.
   */
  lemma SurvivorsAfterLast(slots: Slots, idx: seq<int>)
    requires Ascending(idx) && InRange(idx, |slots|) && |idx| > 0
    ensures var last := idx[|idx| - 1];
            Survivors(slots[..last] + slots[last + 1..], idx[..|idx| - 1]) == Survivors(slots, idx)
  {
    var last := idx[|idx| - 1];
    var init := idx[..|idx| - 1];
    SurvivorsOfRest(slots, idx);
    SurvivorsAboveLast(slots, idx);
    forall j | 0 <= j < last
      ensures j in init <==> j in idx
    {
      LowerListed(idx, j);
    }
    SurvivorsAgree(slots[..last], init, idx);
  }

  /**
   * For ascending in-range indices, removing from the highest down leaves exactly
   * the slots at the positions not listed, in their order.
   */
  lemma {:induction false} RemovedIsSurvivors(slots: Slots, idx: seq<int>)
    requires Ascending(idx) && InRange(idx, |slots|)
    ensures RemovedInReverse(slots, idx) == Survivors(slots, idx)
    decreases |idx|
  {
    if |idx| == 0 {
      SurvivorsTail(slots, idx, 0);
      assert slots[..0] == [] && slots[0..] == slots;
    } else {
      var last := idx[|idx| - 1];
      var init := idx[..|idx| - 1];
      var rest := slots[..last] + slots[last + 1..];
      assert RemoveSlot(slots, last) == rest;
      assert forall i :: 0 <= i < |init| ==> init[i] < last;
      RemovedIsSurvivors(rest, init);
      SurvivorsAfterLast(slots, idx);
    }
  }

  /** A survivor list keeps no slot that is unlisted yet empty. */
  lemma {:induction false} SurvivorsFilled(slots: Slots, idx: seq<int>)
    requires forall j :: 0 <= j < |slots| && slots[j].None? ==> j in idx
    ensures forall k :: 0 <= k < |Survivors(slots, idx)| ==> Survivors(slots, idx)[k].Some?
  {
    if |slots| > 0 {
      SurvivorsFilled(slots[..|slots| - 1], idx);
    }
  }

  /** Slots that all hold materials have no empty slot to list. */
  lemma {:induction false} NoEmptySlots(slots: Slots, n: nat)
    requires n <= |slots|
    requires forall k :: 0 <= k < |slots| ==> slots[k].Some?
    ensures EmptySlotsUpTo(slots, n) == []
  {
    if n > 0 {
      NoEmptySlots(slots, n - 1);
    }
  }

  /**
   * The fix resolves what it is attached for: removing the collected empty slots
   * leaves the slots that held materials, in order, so the mesh then has no empty
   * slot and is reported only for its slot count.
   */
  lemma FixResolves(m: StaticMesh, q: QuickSettings)
    requires q.enableMaterialSlot
    ensures var r := m.(materials := RemovedInReverse(m.materials, EmptySlots(m.materials)));
            && r.materials == Survivors(m.materials, EmptySlots(m.materials))
            && (forall k :: 0 <= k < |r.materials| ==> r.materials[k].Some?)
            && EmptySlots(r.materials) == []
            && (Evaluate(Some(r), q).found <==> |r.materials| >= q.materialSlotWarningThreshold)
  {
    var e := EmptySlots(m.materials);
    EmptySlotsExact(m.materials);
    RemovedIsSurvivors(m.materials, e);
    SurvivorsFilled(m.materials, e);
    var r := m.(materials := RemovedInReverse(m.materials, e));
    NoEmptySlots(r.materials, |r.materials|);
    EvaluateReports(r, q);
    EmptySlotsExact(r.materials);
  }
}
