/**
 * The facts of a UStaticMesh that the rules read and the fixes change, as a value.
 * Render data that is absent is the same as an empty LOD list: every rule treats
 * the two alike.
 */
module Mesh {
  import opened Wrappers
  import opened Results

  datatype Vec3 = Vec3(x: real, y: real, z: real)

  /** FVector2f / FVector2D. */
  datatype Uv = Uv(u: real, v: real)

  /** Linear colour of a vertex instance (FVector4f). */
  datatype Color = Color(r: real, g: real, b: real, a: real)

  /** One LOD of the render data: FStaticMeshLODResources. */
  datatype Lod = Lod(triangles: nat, vertices: nat, texCoordCount: nat)

  /** FBox. */
  datatype Box = Box(min: Vec3, max: Vec3)

  /** FBoxSphereBounds: the origin and sphere radius. */
  datatype SphereBounds = SphereBounds(origin: Vec3, radius: real)

  /** A triangle of the mesh description: its three vertex instances, each with one UV per channel. */
  datatype Triangle = Triangle(corners: seq<seq<Uv>>)

  /**
   * FMeshDescription of LOD0: the number of UV channels of the vertex-instance UV
   * attribute, the triangles, and the vertex-instance colour attribute (None when
   * the attribute is not valid).
   */
  datatype MeshDescription = MeshDescription(uvChannelCount: nat, triangles: seq<Triangle>, colors: Option<seq<Color>>)

  /** AggGeom element count and the default instance's collision profile name. */
  datatype BodySetup = BodySetup(elementCount: nat, collisionProfile: string)

  datatype Socket = Socket(name: string, location: Vec3)

  /** The parts of FMeshBuildSettings the rules read or write. */
  datatype BuildSettings = BuildSettings(
    generateLightmapUvs: bool,
    recomputeNormals: bool,
    minLightmapResolution: int,
    srcLightmapIndex: int,
    dstLightmapIndex: int)

  /** The parts of FMeshReductionSettings the fixes write. */
  datatype ReductionSettings = ReductionSettings(percentTriangles: real, percentVertices: real, baseLodModel: int)

  datatype SourceModel = SourceModel(build: BuildSettings, reduction: ReductionSettings)

  datatype NaniteSettings = NaniteSettings(enabled: bool, preserveArea: bool, explicitTangents: bool)

  datatype StaticMesh = StaticMesh(
    name: string,
    packageName: string,
    lods: seq<Lod>,
    lod0Uvs: seq<seq<Uv>>,
    description: Option<MeshDescription>,
    materials: seq<Option<string>>,
    sockets: seq<Socket>,
    bodySetup: Option<BodySetup>,
    boundingBox: Box,
    bounds: SphereBounds,
    nanite: NaniteSettings,
    lightmapResolution: int,
    lightmapCoordinateIndex: int,
    sourceModels: seq<SourceModel>)

  /** FAssetData(StaticMesh): a valid reference to the mesh's package and name. */
  function AssetOf(m: StaticMesh): (a: AssetData)
    ensures a.valid && a.packageName == m.packageName && a.assetName == m.name
  {
    AssetData(true, m.packageName, m.name)
  }

  /**
   * The engine's FMeshBuildSettings defaults: normals recomputed, lightmap UVs
   * generated from channel 0 into channel 1 at a minimum resolution of 64.
   */
  const DefaultBuildSettings := BuildSettings(true, true, 64, 0, 1)

  /** GetSourceModel(0).BuildSettings; a mesh without source models reads the defaults. */
  function Lod0Build(m: StaticMesh): (b: BuildSettings)
    ensures |m.sourceModels| > 0 ==> b == m.sourceModels[0].build
  {
    if |m.sourceModels| > 0 then m.sourceModels[0].build else DefaultBuildSettings
  }

  /** Triangle count of an LOD, 0 for an index outside the render data. */
  function LodTriangles(m: StaticMesh, i: int): (n: nat)
    ensures 0 <= i < |m.lods| ==> n == m.lods[i].triangles
    ensures !(0 <= i < |m.lods|) ==> n == 0
  {
    if 0 <= i < |m.lods| then m.lods[i].triangles else 0
  }

  /** The UV of a LOD0 render vertex in a channel, zero outside the buffer. */
  function VertexUv(m: StaticMesh, vertex: nat, channel: nat): Uv
  {
    if channel < |m.lod0Uvs| && vertex < |m.lod0Uvs[channel]| then m.lod0Uvs[channel][vertex] else Uv(0.0, 0.0)
  }

  /** The UV of a triangle corner in a channel, zero where the attribute holds none. */
  function CornerUv(t: Triangle, corner: nat, channel: nat): Uv
  {
    if corner < |t.corners| && channel < |t.corners[corner]| then t.corners[corner][channel] else Uv(0.0, 0.0)
  }

  /** FBox::GetSize. */
  function BoxSize(b: Box): Vec3
  {
    Vec3(b.max.x - b.min.x, b.max.y - b.min.y, b.max.z - b.min.z)
  }

  /** FBox::GetCenter. */
  function BoxCenter(b: Box): Vec3
  {
    Vec3((b.min.x + b.max.x) / 2.0, (b.min.y + b.max.y) / 2.0, (b.min.z + b.max.z) / 2.0)
  }

  function DistSquared(a: Vec3, b: Vec3): (d: real)
    ensures d >= 0.0
  {
    (a.x - b.x) * (a.x - b.x) + (a.y - b.y) * (a.y - b.y) + (a.z - b.z) * (a.z - b.z)
  }

  /**
   * FVector::Dist(a, b) > limit, decided without a square root: a distance is never
   * negative, so a negative limit is always exceeded, otherwise compare squares.
   */
  predicate FartherThan(a: Vec3, b: Vec3, limit: real)
  {
    limit < 0.0 || DistSquared(a, b) > limit * limit
  }

  /** The squared comparison agrees with the distance: for d = Dist(a, b) >= 0, d > limit. */
  lemma FartherThanMeansDistance(a: Vec3, b: Vec3, limit: real, d: real)
    requires d >= 0.0 && d * d == DistSquared(a, b)
    ensures FartherThan(a, b, limit) <==> d > limit
  {
    if limit >= 0.0 {
      if d > limit {
        assert d * d > limit * limit by {
          assert d * d - limit * limit == (d - limit) * (d + limit);
          assert d - limit > 0.0 && d + limit > 0.0;
          assert (d - limit) * (d + limit) > 0.0;
        }
      } else {
        assert d * d <= limit * limit by {
          assert limit * limit - d * d == (limit - d) * (limit + d);
          assert limit - d >= 0.0 && limit + d >= 0.0;
          assert (limit - d) * (limit + d) >= 0.0;
        }
      }
    }
  }

  /** FPackageName::GetLongPackagePath: the text before the last '/', or the whole name without one. */
  function LongPackagePath(s: string): (p: string)
    ensures |p| <= |s|
    ensures p <= s
    ensures p == s || (|p| < |s| && s[|p|] == '/' && forall k :: |p| < k < |s| ==> s[k] != '/')
    ensures p == s ==> forall k :: 0 <= k < |s| ==> s[k] != '/'
  {
    if |s| == 0 then s
    else if s[|s| - 1] == '/' then s[..|s| - 1]
    else
      var p := LongPackagePath(s[..|s| - 1]);
      if p == s[..|s| - 1] then s else p
  }
}
