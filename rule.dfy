/**
 * What every static-mesh rule shares: the outcome of IAssetCheckRule::Check
 * (its return value and the results it appends) and the editor facts the
 * rules query without owning them.
 */
module Rule {
  import opened Wrappers
  import opened Results
  import opened Mesh

  /** Check's boolean result and the results it appended to OutResults, in order. */
  datatype Outcome = Outcome(found: bool, results: seq<AnalysisResult>)

  const NoIssue := Outcome(false, [])

  /**
   * Editor state outside the mesh: whether the mesh reduction module offers a
   * static-mesh reduction interface.
   */
  datatype Host = Host(meshReductionAvailable: bool)

  /** A result raised on a mesh: FAssetData(StaticMesh), with FilePath set to the package name. */
  function MeshIssue(m: StaticMesh, severity: Severity, ruleId: string, description: string, fix: Option<FixCommand>): (r: AnalysisResult)
    ensures r.asset == AssetOf(m) && r.filePath == m.packageName
    ensures r.severity == severity && r.ruleId == ruleId && r.description == description && r.fix == fix
  {
    AnalysisResult(AssetOf(m), severity, ruleId, description, m.packageName, fix)
  }

  /**
   * A result raised on a mesh by a rule that never sets FilePath: FAssetData(StaticMesh),
   * with FilePath left at the default constructor's empty text.
   */
  function UnlocatedIssue(m: StaticMesh, severity: Severity, ruleId: string, description: string, fix: Option<FixCommand>): (r: AnalysisResult)
    ensures r.asset == AssetOf(m) && r.filePath == ""
    ensures r.severity == severity && r.ruleId == ruleId && r.description == description && r.fix == fix
  {
    AnalysisResult(AssetOf(m), severity, ruleId, description, "", fix)
  }

  /** The triangle counts of the render data's LODs, in LOD order. */
  function TriangleCounts(m: StaticMesh): (counts: seq<nat>)
    ensures |counts| == |m.lods|
    ensures forall i :: 0 <= i < |m.lods| ==> counts[i] == m.lods[i].triangles
  {
    seq(|m.lods|, i requires 0 <= i < |m.lods| => m.lods[i].triangles)
  }

  /** LOD0 exists and has vertices: the geometry test most fixes start with. */
  predicate HasBaseVertices(m: StaticMesh)
  {
    |m.lods| > 0 && m.lods[0].vertices > 0
  }

  /** The label several rules open their description with: CRITICAL for an Error, WARNING otherwise. */
  function SeverityTag(s: Severity): string
  {
    if s == Error then "CRITICAL" else "WARNING"
  }
}
