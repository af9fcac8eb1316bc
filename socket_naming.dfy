/**
 * FStaticMeshSocketNamingRule: every socket name must start with the configured
 * prefix (ignoring case) and every socket must lie within the bounds sphere
 * widened by a warning distance. The fix puts the prefix in front of the names
 * that lack it.
 */
module SocketNaming {
  import opened Wrappers
  import opened Text
  import opened Results
  import opened Mesh
  import opened Rule
  import opened Settings

  const RuleId := "SM_SocketNaming"

  // ---------------------------------------------------------------------------
  // Violations

  /** The names, in socket order, of the first n sockets that do not start with the prefix. */
  function MisnamedUpTo(sockets: seq<Socket>, prefix: string, n: nat): seq<string>
    requires n <= |sockets|
  {
    if n == 0 then []
    else MisnamedUpTo(sockets, prefix, n - 1) + (if StartsWith(sockets[n - 1].name, prefix) then [] else [sockets[n - 1].name])
  }

  /** The naming violations: none for an empty prefix, else every socket not starting with it. */
  function InvalidNaming(sockets: seq<Socket>, prefix: string): seq<string>
  {
    if prefix == "" then [] else MisnamedUpTo(sockets, prefix, |sockets|)
  }

  /** A socket farther from the bounds origin than the radius plus the warning distance. */
  predicate TooFar(s: Socket, bounds: SphereBounds, warning: real)
  {
    FartherThan(s.location, bounds.origin, bounds.radius + warning)
  }

  /** The names, in socket order, of the first n sockets that lie too far out. */
  function MisplacedUpTo(sockets: seq<Socket>, bounds: SphereBounds, warning: real, n: nat): seq<string>
    requires n <= |sockets|
  {
    if n == 0 then []
    else MisplacedUpTo(sockets, bounds, warning, n - 1) + (if TooFar(sockets[n - 1], bounds, warning) then [sockets[n - 1].name] else [])
  }

  function InvalidTransforms(sockets: seq<Socket>, bounds: SphereBounds, warning: real): seq<string>
  {
    MisplacedUpTo(sockets, bounds, warning, |sockets|)
  }

  /** The misnamed list names every misnamed socket among the first n and no other name. */
  lemma {:induction false} MisnamedUpToExact(sockets: seq<Socket>, prefix: string, n: nat)
    requires n <= |sockets|
    ensures |MisnamedUpTo(sockets, prefix, n)| <= n
    ensures forall k :: 0 <= k < n && !StartsWith(sockets[k].name, prefix) ==> sockets[k].name in MisnamedUpTo(sockets, prefix, n)
    ensures forall x :: x in MisnamedUpTo(sockets, prefix, n) ==> !StartsWith(x, prefix)
    ensures MisnamedUpTo(sockets, prefix, n) == [] <==> forall k :: 0 <= k < n ==> StartsWith(sockets[k].name, prefix)
  {
    if n > 0 {
      MisnamedUpToExact(sockets, prefix, n - 1);
    }
  }

  /** The misplaced list names every socket among the first n that lies too far out, and only such sockets. */
  lemma {:induction false} MisplacedUpToExact(sockets: seq<Socket>, bounds: SphereBounds, warning: real, n: nat)
    requires n <= |sockets|
    ensures |MisplacedUpTo(sockets, bounds, warning, n)| <= n
    ensures forall k :: 0 <= k < n && TooFar(sockets[k], bounds, warning) ==> sockets[k].name in MisplacedUpTo(sockets, bounds, warning, n)
    ensures forall x :: x in MisplacedUpTo(sockets, bounds, warning, n) ==>
              exists k :: 0 <= k < n && sockets[k].name == x && TooFar(sockets[k], bounds, warning)
    ensures MisplacedUpTo(sockets, bounds, warning, n) == [] <==> forall k :: 0 <= k < n ==> !TooFar(sockets[k], bounds, warning)
  {
    if n > 0 {
      MisplacedUpToExact(sockets, bounds, warning, n - 1);
    }
  }

  /** HasInvalidSocketNaming: nothing for an empty prefix, else one pass collecting the misnamed sockets. */
  method HasInvalidSocketNaming(m: StaticMesh, prefix: string) returns (invalid: bool, names: seq<string>)
    ensures names == InvalidNaming(m.sockets, prefix)
    ensures invalid <==> |names| > 0
  {
    names := [];
    if prefix == "" {
      return false, names;
    }
    var i := 0;
    while i < |m.sockets|
      invariant 0 <= i <= |m.sockets|
      invariant names == MisnamedUpTo(m.sockets, prefix, i)
    {
      if !StartsWith(m.sockets[i].name, prefix) {
        names := names + [m.sockets[i].name];
      }
      i := i + 1;
    }
    invalid := |names| > 0;
  }

  /** HasInvalidSocketTransforms: one pass collecting the sockets beyond the widened bounds sphere. */
  method HasInvalidSocketTransforms(m: StaticMesh, warning: real) returns (invalid: bool, names: seq<string>)
    ensures names == InvalidTransforms(m.sockets, m.bounds, warning)
    ensures invalid <==> |names| > 0
  {
    names := [];
    var i := 0;
    while i < |m.sockets|
      invariant 0 <= i <= |m.sockets|
      invariant names == MisplacedUpTo(m.sockets, m.bounds, warning, i)
    {
      if FartherThan(m.sockets[i].location, m.bounds.origin, m.bounds.radius + warning) {
        names := names + [m.sockets[i].name];
      }
      i := i + 1;
    }
    invalid := |names| > 0;
  }

  // ---------------------------------------------------------------------------
  // Description

  function NamingClause(names: seq<string>, joined: string, prefix: string): string
  {
    if |names| > 0 then
      "Found " + IntToString(|names|) + " socket(s) with invalid naming (must start with '" + prefix + "'): " + joined + ". "
    else ""
  }

  function TransformClause(names: seq<string>, joined: string): string
  {
    if |names| > 0 then
      "Found " + IntToString(|names|) + " socket(s) with invalid transforms (too far from mesh bounds): " + joined + ". "
    else ""
  }

  /** GenerateSocketNamingDescription, with each list joined by ", ". */
  function Description(m: StaticMesh, naming: seq<string>, transforms: seq<string>, prefix: string): string
  {
    if |naming| > 0 || |transforms| > 0 then
      "Socket issues detected for " + m.name + ": "
      + NamingClause(naming, Join(naming, ", "), prefix) + TransformClause(transforms, Join(transforms, ", "))
    else "Socket naming check failed for " + m.name
  }

  method GenerateSocketNamingDescription(m: StaticMesh, naming: seq<string>, transforms: seq<string>, prefix: string)
    returns (d: string)
    ensures d == Description(m, naming, transforms, prefix)
  {
    d := "Socket issues detected for " + m.name + ": ";
    var hasIssues := false;
    if |naming| > 0 {
      var joined := JoinParts(naming, ", ");
      d := d + NamingClause(naming, joined, prefix);
      hasIssues := true;
    }
    if |transforms| > 0 {
      var joined := JoinParts(transforms, ", ");
      d := d + TransformClause(transforms, joined);
      hasIssues := true;
    }
    if !hasIssues {
      d := "Socket naming check failed for " + m.name;
    }
  }

  // ---------------------------------------------------------------------------
  // Check

  /** LOD data exists and the mesh has at least one socket. */
  predicate CanSafelyFixSocketIssues(m: StaticMesh)
  {
    |m.lods| > 0 && |m.sockets| > 0
  }

  /**
   * The outcome Check specifies: nothing without a mesh or with the rule switched
   * off; one result with the configured severity when either list of violations
   * is non-empty, with the socket fix when allowed and safe.
   */
  function Evaluate(asset: Option<StaticMesh>, q: QuickSettings): Outcome
  {
    if asset.None? || !q.enableSocketNaming then NoIssue
    else
      var m := asset.value;
      var naming := InvalidNaming(m.sockets, q.socketNamingPrefix);
      var transforms := InvalidTransforms(m.sockets, m.bounds, q.socketTransformWarningDistance);
      if |naming| > 0 || |transforms| > 0 then
        var fix := if q.allowSocketNamingAutoFix && CanSafelyFixSocketIssues(m) then Some(FixSockets(q.socketNamingPrefix)) else None;
        Outcome(true, [UnlocatedIssue(m, q.socketNamingSeverity, RuleId, Description(m, naming, transforms, q.socketNamingPrefix), fix)])
      else NoIssue
  }

  method Check(asset: Option<StaticMesh>, q: QuickSettings) returns (o: Outcome)
    ensures o == Evaluate(asset, q)
  {
    hide Description;
    if asset.None? || !q.enableSocketNaming {
      return NoIssue;
    }
    var m := asset.value;
    var invalidNaming, naming := HasInvalidSocketNaming(m, q.socketNamingPrefix);
    var invalidTransforms, transforms := HasInvalidSocketTransforms(m, q.socketTransformWarningDistance);
    if invalidNaming || invalidTransforms {
      var description := GenerateSocketNamingDescription(m, naming, transforms, q.socketNamingPrefix);
      var fix := None;
      if q.allowSocketNamingAutoFix && CanSafelyFixSocketIssues(m) {
        fix := Some(FixSockets(q.socketNamingPrefix));
      }
      return Outcome(true, [UnlocatedIssue(m, q.socketNamingSeverity, RuleId, description, fix)]);
    }
    return NoIssue;
  }

  /**
   * With the rule switched on, Check reports exactly when, for a non-empty prefix,
   * some socket name does not start with it, or some socket lies beyond the
   * bounds radius plus the warning distance; the result has the configured
   * severity, and the fix is bound exactly when allowed and LOD data exists.
   */
  lemma EvaluateReports(m: StaticMesh, q: QuickSettings)
    requires q.enableSocketNaming
    ensures var o := Evaluate(Some(m), q);
            var prefix := q.socketNamingPrefix;
            var misnamed := prefix != "" && exists k :: 0 <= k < |m.sockets| && !StartsWith(m.sockets[k].name, prefix);
            var misplaced := exists k :: 0 <= k < |m.sockets| && TooFar(m.sockets[k], m.bounds, q.socketTransformWarningDistance);
            && (o.found <==> misnamed || misplaced)
            && |o.results| == (if o.found then 1 else 0)
            && (o.found ==> && o.results[0].ruleId == RuleId && o.results[0].asset == AssetOf(m) && o.results[0].filePath == ""
                            && o.results[0].severity == q.socketNamingSeverity
                            && (o.results[0].fix.Some? <==> q.allowSocketNamingAutoFix && |m.lods| > 0)
                            && (o.results[0].fix.Some? ==> o.results[0].fix.value == FixSockets(prefix)))
  {
    hide Description;
    MisnamedUpToExact(m.sockets, q.socketNamingPrefix, |m.sockets|);
    MisplacedUpToExact(m.sockets, m.bounds, q.socketTransformWarningDistance, |m.sockets|);
  }

  /** Nothing is reported without a mesh, with the rule switched off, or without sockets. */
  lemma EvaluateQuiet(asset: Option<StaticMesh>, q: QuickSettings)
    requires asset.None? || !q.enableSocketNaming || |asset.value.sockets| == 0
    ensures Evaluate(asset, q) == NoIssue
  {
  }

  // ---------------------------------------------------------------------------
  // Fix

  /** The socket after the naming fix: the prefix in front of a name that lacks it. */
  function Renamed(s: Socket, prefix: string): Socket
  {
    if prefix != "" && !StartsWith(s.name, prefix) then s.(name := prefix + s.name) else s
  }

  /** The naming part of FixSocketIssues, socket by socket. */
  method RenameSockets(sockets: seq<Socket>, prefix: string) returns (r: seq<Socket>)
    ensures |r| == |sockets|
    ensures forall k :: 0 <= k < |r| ==> r[k] == Renamed(sockets[k], prefix)
  {
    r := sockets;
    if prefix == "" {
      return;
    }
    var i := 0;
    while i < |r|
      invariant 0 <= i <= |r| == |sockets|
      invariant forall k :: 0 <= k < i ==> r[k] == Renamed(sockets[k], prefix)
      invariant forall k :: i <= k < |r| ==> r[k] == sockets[k]
    {
      if !StartsWith(r[i].name, prefix) {
        r := r[i := r[i].(name := prefix + r[i].name)];
      }
      i := i + 1;
    }
  }

  /**
   * FixSocketIssues, without the relocation of distant sockets: the sockets
   * renamed, everything else unchanged, and success reported.
   */
  method FixSocketIssues(m: StaticMesh, prefix: string) returns (ok: bool, r: StaticMesh)
    ensures ok
    ensures r == m.(sockets := r.sockets) && |r.sockets| == |m.sockets|
    ensures forall k :: 0 <= k < |m.sockets| ==> r.sockets[k] == Renamed(m.sockets[k], prefix)
  {
    var renamed := RenameSockets(m.sockets, prefix);
    return true, m.(sockets := renamed);
  }

  /**
   * After the naming fix with a non-empty prefix every socket starts with it,
   * names that did are unchanged, locations stay, and no naming violation is left.
   */
  lemma RenamedConforms(sockets: seq<Socket>, r: seq<Socket>, prefix: string)
    requires prefix != ""
    requires |r| == |sockets| && forall k :: 0 <= k < |r| ==> r[k] == Renamed(sockets[k], prefix)
    ensures forall k :: 0 <= k < |r| ==> StartsWith(r[k].name, prefix)
    ensures forall k :: 0 <= k < |r| && StartsWith(sockets[k].name, prefix) ==> r[k] == sockets[k]
    ensures forall k :: 0 <= k < |r| ==> r[k].location == sockets[k].location
    ensures InvalidNaming(r, prefix) == []
  {
    forall k | 0 <= k < |r|
      ensures StartsWith(r[k].name, prefix)
    {
      if !StartsWith(sockets[k].name, prefix) {
        PrefixedStartsWith(prefix, sockets[k].name);
      }
    }
    MisnamedUpToExact(r, prefix, |r|);
  }
}
