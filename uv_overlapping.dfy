/**
 * FStaticMeshUVOverlappingRule: per UV channel of LOD0's mesh description, the
 * bounding box of every triangle's UVs, a pairwise overlap test between boxes,
 * and the similar-size heuristic that actually decides whether a channel is
 * reported.
 */
module UvOverlapping {
  import opened Wrappers
  import opened Numeric
  import opened Text
  import opened Results
  import opened Profile
  import opened Mesh
  import opened Seqs
  import opened Rule

  const RuleId := "SM_UVOverlapping"

  /** MAX_flt, the start value of a triangle's minimum UV (and, negated, of its maximum). */
  const MaxFlt: real := 340282346638528859811704183484516925440.0

  /** The tolerance Overlaps uses when none is given. */
  const DefaultOverlapTolerance: real := 0.001

  /** The bound below which two bound sizes count as the same (squared distance). */
  const SimilarSizeEpsilon: real := 0.0001

  // ---------------------------------------------------------------------------
  // Triangle UV bounds

  /** FTriangleUVBounds: the UV box of one triangle of the mesh description. */
  datatype UvBounds = UvBounds(min: Uv, max: Uv, triangle: nat)

  /** GetArea: width times height of the box. */
  function Area(b: UvBounds): real
  {
    (b.max.u - b.min.u) * (b.max.v - b.min.v)
  }

  /** The overlap of two intervals, or 0 when they are apart. */
  function OverlapLength(lo1: real, hi1: real, lo2: real, hi2: real): (d: real)
    ensures d >= 0.0
  {
    MaxReal(0.0, MinReal(hi1, hi2) - MaxReal(lo1, lo2))
  }

  /**
   * Overlaps: the intersection of the two boxes is larger than the tolerance's
   * share of the smaller box (strictly, so boxes that only touch never overlap).
   */
  predicate Overlaps(a: UvBounds, b: UvBounds, tolerance: real)
  {
    OverlapLength(a.min.u, a.max.u, b.min.u, b.max.u) * OverlapLength(a.min.v, a.max.v, b.min.v, b.max.v)
      > MinReal(Area(a), Area(b)) * tolerance
  }

  /** Whether two boxes overlap does not depend on which one asks. */
  lemma OverlapsSymmetric(a: UvBounds, b: UvBounds, tolerance: real)
    ensures Overlaps(a, b, tolerance) <==> Overlaps(b, a, tolerance)
  {
    assert MinReal(Area(a), Area(b)) == MinReal(Area(b), Area(a));
  }

  /** Boxes that are apart on one axis never overlap, whatever the non-negative tolerance. */
  lemma SeparatedNeverOverlap(a: UvBounds, b: UvBounds, tolerance: real)
    requires tolerance >= 0.0 && Area(a) >= 0.0 && Area(b) >= 0.0
    requires a.max.u <= b.min.u || b.max.u <= a.min.u || a.max.v <= b.min.v || b.max.v <= a.min.v
    ensures !Overlaps(a, b, tolerance)
  {
    MulNonneg(MinReal(Area(a), Area(b)), tolerance);
  }

  /** The box of the first n corners of a triangle in a channel, from (MAX_flt, -MAX_flt). */
  function CornerBounds(t: Triangle, channel: nat, n: nat): (Uv, Uv)
    requires n <= |t.corners|
  {
    if n == 0 then (Uv(MaxFlt, MaxFlt), Uv(-MaxFlt, -MaxFlt))
    else
      var (lo, hi) := CornerBounds(t, channel, n - 1);
      var uv := CornerUv(t, n - 1, channel);
      (Uv(MinReal(lo.u, uv.u), MinReal(lo.v, uv.v)), Uv(MaxReal(hi.u, uv.u), MaxReal(hi.v, uv.v)))
  }

  /** Every corner seen so far lies inside the box. */
  lemma {:induction false} CornerBoundsContain(t: Triangle, channel: nat, n: nat)
    requires n <= |t.corners|
    ensures forall c :: 0 <= c < n ==>
              var r := CornerBounds(t, channel, n);
              r.0.u <= CornerUv(t, c, channel).u <= r.1.u && r.0.v <= CornerUv(t, c, channel).v <= r.1.v
  {
    if n > 0 {
      CornerBoundsContain(t, channel, n - 1);
    }
  }

  /** The bounds GetTriangleUVBounds produces for triangle id. */
  function TriangleBounds(t: Triangle, id: nat, channel: nat): UvBounds
  {
    var (lo, hi) := CornerBounds(t, channel, |t.corners|);
    UvBounds(lo, hi, id)
  }

  /** A triangle's box contains all of its corners' UVs and names the triangle. */
  lemma TriangleBoundsContainCorners(t: Triangle, id: nat, channel: nat)
    ensures TriangleBounds(t, id, channel).triangle == id
    ensures forall c :: 0 <= c < |t.corners| ==>
              var b := TriangleBounds(t, id, channel);
              b.min.u <= CornerUv(t, c, channel).u <= b.max.u && b.min.v <= CornerUv(t, c, channel).v <= b.max.v
  {
    CornerBoundsContain(t, channel, |t.corners|);
  }

  /**
   * GetTriangleUVBounds: walks the triangle's vertex instances, widening the box
   * from (MAX_flt, MAX_flt)-(-MAX_flt, -MAX_flt).
   */
  method GetTriangleUvBounds(t: Triangle, id: nat, channel: nat) returns (b: UvBounds)
    ensures b == TriangleBounds(t, id, channel)
  {
    var lo := Uv(MaxFlt, MaxFlt);
    var hi := Uv(-MaxFlt, -MaxFlt);
    var c := 0;
    while c < |t.corners|
      invariant 0 <= c <= |t.corners|
      invariant (lo, hi) == CornerBounds(t, channel, c)
    {
      var uv := CornerUv(t, c, channel);
      lo := Uv(MinReal(lo.u, uv.u), MinReal(lo.v, uv.v));
      hi := Uv(MaxReal(hi.u, uv.u), MaxReal(hi.v, uv.v));
      c := c + 1;
    }
    b := UvBounds(lo, hi, id);
  }

  /** UVs.IsValid() && channel < GetNumChannels(), for a non-negative channel. */
  predicate IsValidUvChannel(d: MeshDescription, channel: int)
  {
    0 <= channel < d.uvChannelCount
  }

  /** The bounds of the first n triangles whose box has a positive area, in triangle order. */
  function KeptBounds(d: MeshDescription, channel: nat, n: nat): (bs: seq<UvBounds>)
    requires n <= |d.triangles|
  {
    if n == 0 then []
    else
      var b := TriangleBounds(d.triangles[n - 1], n - 1, channel);
      KeptBounds(d, channel, n - 1) + (if Area(b) > 0.0 then [b] else [])
  }

  /** The kept bounds of the first n triangles end with the one of triangle n - 1 when it is kept. */
  lemma KeptBoundsStep(d: MeshDescription, channel: nat, n: nat)
    requires 0 < n <= |d.triangles|
    ensures var prev := KeptBounds(d, channel, n - 1);
            var bs := KeptBounds(d, channel, n);
            var b := TriangleBounds(d.triangles[n - 1], n - 1, channel);
            && bs[..|prev|] == prev
            && (Area(b) > 0.0 ==> |bs| == |prev| + 1 && bs[|prev|] == b)
            && (Area(b) <= 0.0 ==> bs == prev)
  {
    hide TriangleBounds, Area;
    var prev := KeptBounds(d, channel, n - 1);
    var bs := KeptBounds(d, channel, n);
    assert bs[..|prev|] == prev;
  }

  /**
   * Every kept box belongs to an earlier triangle, is that triangle's box and
   * has a positive area.
   */
  lemma {:induction false} KeptBoundsSound(d: MeshDescription, channel: nat, n: nat)
    requires n <= |d.triangles|
    ensures forall k :: 0 <= k < |KeptBounds(d, channel, n)| ==>
              var b := KeptBounds(d, channel, n)[k];
              b.triangle < n && Area(b) > 0.0 && b == TriangleBounds(d.triangles[b.triangle], b.triangle, channel)
  {
    hide TriangleBounds, Area;
    if n > 0 {
      KeptBoundsSound(d, channel, n - 1);
      KeptBoundsStep(d, channel, n);
      TriangleBoundsContainCorners(d.triangles[n - 1], n - 1, channel);
    }
  }

  /** The kept boxes are in strictly ascending triangle order. */
  lemma {:induction false} KeptBoundsAscending(d: MeshDescription, channel: nat, n: nat)
    requires n <= |d.triangles|
    ensures forall a, b :: 0 <= a < b < |KeptBounds(d, channel, n)| ==>
              KeptBounds(d, channel, n)[a].triangle < KeptBounds(d, channel, n)[b].triangle
  {
    hide TriangleBounds, Area;
    if n > 0 {
      KeptBoundsAscending(d, channel, n - 1);
      KeptBoundsSound(d, channel, n - 1);
      KeptBoundsStep(d, channel, n);
      TriangleBoundsContainCorners(d.triangles[n - 1], n - 1, channel);
    }
  }

  /** Every triangle whose box has a positive area is kept. */
  lemma {:induction false} KeptBoundsComplete(d: MeshDescription, channel: nat, n: nat)
    requires n <= |d.triangles|
    ensures forall i :: 0 <= i < n && Area(TriangleBounds(d.triangles[i], i, channel)) > 0.0 ==>
              exists k :: 0 <= k < |KeptBounds(d, channel, n)| && KeptBounds(d, channel, n)[k].triangle == i
  {
    hide TriangleBounds, Area;
    if n > 0 {
      KeptBoundsComplete(d, channel, n - 1);
      KeptBoundsStep(d, channel, n);
      TriangleBoundsContainCorners(d.triangles[n - 1], n - 1, channel);
      var prev := KeptBounds(d, channel, n - 1);
      var bs := KeptBounds(d, channel, n);
      forall i | 0 <= i < n - 1 && Area(TriangleBounds(d.triangles[i], i, channel)) > 0.0
        ensures exists k :: 0 <= k < |bs| && bs[k].triangle == i
      {
        var k :| 0 <= k < |prev| && prev[k].triangle == i;
        assert bs[k] == prev[k];
      }
    }
  }

  /** BuildTriangleUVBounds: empty for an invalid channel, else the kept bounds of every triangle. */
  function TriangleUvBounds(d: MeshDescription, channel: nat): seq<UvBounds>
  {
    if channel >= d.uvChannelCount then [] else KeptBounds(d, channel, |d.triangles|)
  }

  /** BuildTriangleUVBounds as the source writes it: one box per triangle, kept when its area is positive. */
  method BuildTriangleUvBounds(d: MeshDescription, channel: nat) returns (bs: seq<UvBounds>)
    ensures bs == TriangleUvBounds(d, channel)
  {
    bs := [];
    if channel >= d.uvChannelCount {
      return;
    }
    var i := 0;
    while i < |d.triangles|
      invariant 0 <= i <= |d.triangles|
      invariant bs == KeptBounds(d, channel, i)
    {
      var b := GetTriangleUvBounds(d.triangles[i], i, channel);
      if Area(b) > 0.0 {
        bs := bs + [b];
      }
      i := i + 1;
    }
  }

  // ---------------------------------------------------------------------------
  // DetectOverlappingTriangles

  /**
   * Index k is in an overlapping pair (a, b), a < b, that the nested loops have
   * tested before reaching row i, column j.
   */
  ghost predicate Seen(bs: seq<UvBounds>, tolerance: real, i: nat, j: nat, k: nat)
  {
    exists a, b :: 0 <= a < b < |bs| && (a < i || (a == i && b < j)) &&
                   Overlaps(bs[a], bs[b], tolerance) && (k == a || k == b)
  }

  /** Box k overlaps some other box of the list. */
  ghost predicate InOverlappingPair(bs: seq<UvBounds>, tolerance: real, k: nat)
  {
    k < |bs| && exists j :: 0 <= j < |bs| && j != k && Overlaps(bs[k], bs[j], tolerance)
  }

  /** The triangle ids of the listed boxes for which a predicate on the index holds. */
  ghost predicate IdsAre(ids: seq<nat>, bs: seq<UvBounds>, tolerance: real, i: nat, j: nat)
  {
    forall id :: id in ids <==> exists k :: 0 <= k < |bs| && bs[k].triangle == id && Seen(bs, tolerance, i, j, k)
  }

  lemma SeenStep(bs: seq<UvBounds>, tolerance: real, i: nat, j: nat, k: nat)
    requires i < j < |bs|
    ensures Seen(bs, tolerance, i, j + 1, k) <==>
            Seen(bs, tolerance, i, j, k) || (Overlaps(bs[i], bs[j], tolerance) && (k == i || k == j))
  {
    if Overlaps(bs[i], bs[j], tolerance) && (k == i || k == j) {
      assert 0 <= i < j < |bs| && (i < i || (i == i && j < j + 1));
    }
  }

  lemma SeenNextRow(bs: seq<UvBounds>, tolerance: real, i: nat, k: nat)
    requires i < |bs|
    ensures Seen(bs, tolerance, i + 1, i + 2, k) <==> Seen(bs, tolerance, i, |bs|, k)
  {
  }

  lemma SeenAll(bs: seq<UvBounds>, tolerance: real, k: nat)
    requires k < |bs|
    ensures Seen(bs, tolerance, |bs|, |bs| + 1, k) <==> InOverlappingPair(bs, tolerance, k)
  {
    if InOverlappingPair(bs, tolerance, k) {
      var j :| 0 <= j < |bs| && j != k && Overlaps(bs[k], bs[j], tolerance);
      if j < k {
        OverlapsSymmetric(bs[k], bs[j], tolerance);
        assert Overlaps(bs[j], bs[k], tolerance);
      } else {
        assert Overlaps(bs[k], bs[j], tolerance);
      }
    }
    if Seen(bs, tolerance, |bs|, |bs| + 1, k) {
      var a, b :| 0 <= a < b < |bs| && Overlaps(bs[a], bs[b], tolerance) && (k == a || k == b);
      if k == b {
        OverlapsSymmetric(bs[a], bs[b], tolerance);
        assert Overlaps(bs[k], bs[a], tolerance);
      } else {
        assert Overlaps(bs[k], bs[b], tolerance);
      }
    }
  }

  /** Adding the ids of a newly tested pair keeps the id list in step with Seen. */
  lemma IdsStep(ids: seq<nat>, ids': seq<nat>, bs: seq<UvBounds>, tolerance: real, i: nat, j: nat)
    requires i < j < |bs| && IdsAre(ids, bs, tolerance, i, j)
    requires Overlaps(bs[i], bs[j], tolerance) ==>
               forall id :: id in ids' <==> id in ids || id == bs[i].triangle || id == bs[j].triangle
    requires !Overlaps(bs[i], bs[j], tolerance) ==> ids' == ids
    ensures IdsAre(ids', bs, tolerance, i, j + 1)
  {
    forall k | 0 <= k < |bs|
      ensures Seen(bs, tolerance, i, j + 1, k) <==>
              Seen(bs, tolerance, i, j, k) || (Overlaps(bs[i], bs[j], tolerance) && (k == i || k == j))
    {
      SeenStep(bs, tolerance, i, j, k);
    }
  }

  /**
   * One step of the inner loop: when box j overlaps box i, box i's triangle is
   * added the first time (found) and box j's triangle every time, both uniquely.
   */
  method VisitOverlapPair(bs: seq<UvBounds>, tolerance: real, i: nat, j: nat, ids: seq<nat>, found: bool)
    returns (ids': seq<nat>, found': bool)
    requires i < j < |bs| && Distinct(ids) && IdsAre(ids, bs, tolerance, i, j)
    requires found ==> bs[i].triangle in ids
    ensures Distinct(ids') && IdsAre(ids', bs, tolerance, i, j + 1)
    ensures found' ==> bs[i].triangle in ids'
  {
    ids', found' := ids, found;
    if Overlaps(bs[i], bs[j], tolerance) {
      if !found {
        AddUniqueKeepsDistinct(ids', bs[i].triangle);
        ids' := AddUnique(ids', bs[i].triangle);
        found' := true;
      }
      var mid := ids';
      AddUniqueKeepsDistinct(ids', bs[j].triangle);
      ids' := AddUnique(ids', bs[j].triangle);
      assert forall id :: id in mid <==> id in ids || id == bs[i].triangle;
      assert forall id :: id in ids' <==> id in mid || id == bs[j].triangle;
    }
    IdsStep(ids, ids', bs, tolerance, i, j);
  }

  /**
   * The inner loop of DetectOverlappingTriangles for row i: every later box that
   * overlaps box i adds its triangle, and the first such also adds box i's.
   */
  method DetectRow(bs: seq<UvBounds>, tolerance: real, i: nat, ids: seq<nat>) returns (ids': seq<nat>)
    requires i < |bs| && Distinct(ids) && IdsAre(ids, bs, tolerance, i, i + 1)
    ensures Distinct(ids') && IdsAre(ids', bs, tolerance, i, |bs|)
  {
    ids' := ids;
    var found := false;
    var j := i + 1;
    while j < |bs|
      invariant i + 1 <= j <= |bs|
      invariant Distinct(ids') && IdsAre(ids', bs, tolerance, i, j)
      invariant found ==> bs[i].triangle in ids'
    {
      ids', found := VisitOverlapPair(bs, tolerance, i, j, ids', found);
      j := j + 1;
    }
  }

  /**
   * DetectOverlappingTriangles: a list without duplicates of exactly the
   * triangles whose box overlaps some other box.
   */
  method DetectOverlappingTriangles(bs: seq<UvBounds>, tolerance: real) returns (ids: seq<nat>)
    ensures Distinct(ids)
    ensures forall id :: id in ids <==>
              exists k :: 0 <= k < |bs| && bs[k].triangle == id && InOverlappingPair(bs, tolerance, k)
  {
    ids := [];
    var i := 0;
    while i < |bs|
      invariant 0 <= i <= |bs|
      invariant Distinct(ids) && IdsAre(ids, bs, tolerance, i, i + 1)
    {
      ids := DetectRow(bs, tolerance, i, ids);
      forall k | 0 <= k < |bs|
        ensures Seen(bs, tolerance, i + 1, i + 2, k) <==> Seen(bs, tolerance, i, |bs|, k)
      {
        SeenNextRow(bs, tolerance, i, k);
      }
      i := i + 1;
    }
    forall k | 0 <= k < |bs|
      ensures Seen(bs, tolerance, |bs|, |bs| + 1, k) <==> InOverlappingPair(bs, tolerance, k)
    {
      SeenAll(bs, tolerance, k);
    }
  }

  // ---------------------------------------------------------------------------
  // CalculateOverlapPercentage

  function TotalArea(bs: seq<UvBounds>): real
  {
    if bs == [] then 0.0 else TotalArea(bs[..|bs| - 1]) + Area(bs[|bs| - 1])
  }

  /** The area of the boxes whose triangle is listed. */
  function OverlappingArea(bs: seq<UvBounds>, ids: seq<nat>): real
  {
    if bs == [] then 0.0
    else OverlappingArea(bs[..|bs| - 1], ids) + (if bs[|bs| - 1].triangle in ids then Area(bs[|bs| - 1]) else 0.0)
  }

  /** The percentage CalculateOverlapPercentage returns for the two sums. */
  function OverlapPercentage(bs: seq<UvBounds>, ids: seq<nat>): real
  {
    if |bs| == 0 then 0.0
    else if TotalArea(bs) > 0.0 then (OverlappingArea(bs, ids) / TotalArea(bs)) * 100.0
    else 0.0
  }

  /** With no negative box, the listed area lies between 0 and the total. */
  lemma {:induction false} OverlappingAreaBounded(bs: seq<UvBounds>, ids: seq<nat>)
    requires forall k :: 0 <= k < |bs| ==> Area(bs[k]) >= 0.0
    ensures 0.0 <= OverlappingArea(bs, ids) <= TotalArea(bs)
  {
    if bs != [] {
      OverlappingAreaBounded(bs[..|bs| - 1], ids);
    }
  }

  /** For boxes built by BuildTriangleUVBounds (all areas positive) the percentage lies in [0, 100]. */
  lemma OverlapPercentageInRange(bs: seq<UvBounds>, ids: seq<nat>)
    requires forall k :: 0 <= k < |bs| ==> Area(bs[k]) >= 0.0
    ensures 0.0 <= OverlapPercentage(bs, ids) <= 100.0
  {
    OverlappingAreaBounded(bs, ids);
    if |bs| > 0 && TotalArea(bs) > 0.0 {
      var t := TotalArea(bs);
      var o := OverlappingArea(bs, ids);
      assert o / t <= 1.0 by {
        assert o / t * t == o;
      }
    }
  }

  /** CalculateOverlapPercentage: sums every box's area, then the listed boxes' area. */
  method CalculateOverlapPercentage(bs: seq<UvBounds>, ids: seq<nat>) returns (pct: real)
    ensures pct == OverlapPercentage(bs, ids)
  {
    if |bs| == 0 {
      return 0.0;
    }
    var total := 0.0;
    var i := 0;
    while i < |bs|
      invariant 0 <= i <= |bs|
      invariant total == TotalArea(bs[..i])
    {
      assert bs[..i + 1][..i] == bs[..i];
      total := total + Area(bs[i]);
      i := i + 1;
    }
    assert bs[..|bs|] == bs;
    var overlapping := 0.0;
    i := 0;
    while i < |bs|
      invariant 0 <= i <= |bs|
      invariant overlapping == OverlappingArea(bs[..i], ids)
    {
      assert bs[..i + 1][..i] == bs[..i];
      if bs[i].triangle in ids {
        overlapping := overlapping + Area(bs[i]);
      }
      i := i + 1;
    }
    pct := if total > 0.0 then (overlapping / total) * 100.0 else 0.0;
  }

  // ---------------------------------------------------------------------------
  // The similar-size heuristic

  /** MaxUV - MinUV. */
  function BoundSize(b: UvBounds): Uv
  {
    Uv(b.max.u - b.min.u, b.max.v - b.min.v)
  }

  /** (BoundSize - FirstBoundSize).SizeSquared() < 0.0001. */
  predicate SimilarSize(a: UvBounds, first: UvBounds)
  {
    var s := BoundSize(a);
    var f := BoundSize(first);
    (s.u - f.u) * (s.u - f.u) + (s.v - f.v) * (s.v - f.v) < SimilarSizeEpsilon
  }

  /** How many of the boxes 1 .. n - 1 have nearly the size of box 0. */
  function SimilarCount(bs: seq<UvBounds>, n: nat): (c: nat)
    requires 1 <= n <= |bs|
    ensures c <= n - 1
  {
    if n == 1 then 0 else SimilarCount(bs, n - 1) + (if SimilarSize(bs[n - 1], bs[0]) then 1 else 0)
  }

  /** The counting loop of the heuristic. */
  method CountSimilarBounds(bs: seq<UvBounds>) returns (count: nat)
    requires |bs| >= 1
    ensures count == SimilarCount(bs, |bs|)
  {
    count := 0;
    var i := 1;
    while i < |bs|
      invariant 1 <= i <= |bs|
      invariant count == SimilarCount(bs, i)
    {
      if SimilarSize(bs[i], bs[0]) {
        count := count + 1;
      }
      i := i + 1;
    }
  }

  /** SimilarityRatio: the share of boxes with nearly the size of the first. */
  function SimilarityRatio(bs: seq<UvBounds>): (r: real)
    requires |bs| >= 1
    ensures 0.0 <= r < 1.0
  {
    RatioCompare(SimilarCount(bs, |bs|) as real, |bs| as real, 1.0);
    SimilarCount(bs, |bs|) as real / |bs| as real
  }

  /** The heuristic's test: more than four boxes and a ratio above 0.8. */
  predicate Flagged(bs: seq<UvBounds>)
  {
    |bs| > 4 && SimilarityRatio(bs) > 0.8
  }

  /**
   * The ratio test is 5 * count > 4 * N. Box 0 is never counted, so the count is
   * at most N - 1: a channel is only flagged with six or more boxes, and exactly
   * five boxes are never flagged.
   */
  lemma FlaggedNeedsSix(bs: seq<UvBounds>)
    ensures Flagged(bs) <==> |bs| > 4 && 5 * SimilarCount(bs, |bs|) > 4 * |bs|
    ensures Flagged(bs) ==> |bs| >= 6 && SimilarCount(bs, |bs|) > 0
  {
    if |bs| > 4 {
      RatioCompare(SimilarCount(bs, |bs|) as real, |bs| as real, 0.8);
    }
  }

  // ---------------------------------------------------------------------------
  // Channels, tolerances and severity

  /** FUVOverlapInfo. */
  datatype OverlapInfo = OverlapInfo(channel: nat, overlappingTriangles: int, percentage: real)

  /**
   * ShouldCheckUVChannel: without a profile channels 0 and 1; with one, the
   * CheckUVChannel0..3 parameters (channels 0 and 1 on, 2 and 3 off by default),
   * and never a channel above 3.
   */
  function ShouldCheckUvChannel(rules: Option<seq<RuleConfig>>, channel: int): (b: bool)
    ensures b ==> 0 <= channel <= 3
    ensures rules.None? ==> (b <==> 0 <= channel <= 1)
  {
    if rules.None? then 0 <= channel <= 1
    else if channel == 0 then GetRuleParameter(rules.value, RuleId, "CheckUVChannel0", "true") == "true"
    else if channel == 1 then GetRuleParameter(rules.value, RuleId, "CheckUVChannel1", "true") == "true"
    else if channel == 2 then GetRuleParameter(rules.value, RuleId, "CheckUVChannel2", "false") == "true"
    else if channel == 3 then GetRuleParameter(rules.value, RuleId, "CheckUVChannel3", "false") == "true"
    else false
  }

  /** Without parameters for the rule, a profile checks channels 0 and 1 only. */
  lemma DefaultChannels(rules: seq<RuleConfig>, channel: int)
    requires FindRuleConfig(rules, RuleId).None?
    ensures ShouldCheckUvChannel(Some(rules), channel) <==> channel == 0 || channel == 1
  {
  }

  /**
   * GetOverlapToleranceForChannel: with a profile, LightmapUVTolerance for channel
   * 1 and TextureUVTolerance otherwise, clamped to [0.0001, 0.01]; without one,
   * fixed values per channel.
   */
  function ToleranceForChannel(rules: Option<seq<RuleConfig>>, channel: int): (t: real)
    ensures rules.Some? ==> 0.0001 <= t <= 0.01
    ensures rules.None? ==> t == (if channel == 0 then 0.001 else if channel == 1 then 0.0005 else 0.002)
  {
    if rules.None? then
      if channel == 0 then 0.001 else if channel == 1 then 0.0005 else 0.002
    else
      var texture := GetRuleParameter(rules.value, RuleId, "TextureUVTolerance", "0.001");
      var lightmap := GetRuleParameter(rules.value, RuleId, "LightmapUVTolerance", "0.0005");
      ClampReal(if channel == 1 then Atof(lightmap) else Atof(texture), 0.0001, 0.01)
  }

  /** The three bands of a percentage against a warning and an error threshold, both strict. */
  function SeverityForPercentage(pct: real, warning: real, error: real): (s: Severity)
    ensures s.Error? <==> pct > error
    ensures s.Warning? <==> pct <= error && pct > warning
    ensures s.Info? <==> pct <= error && pct <= warning
  {
    if pct > error then Error else if pct > warning then Warning else Info
  }

  /**
   * GetSeverityForOverlapPercentage: lightmap thresholds (2/8 by default) or
   * texture thresholds (5/15 by default), from the profile when there is one.
   */
  function SeverityForOverlap(rules: Option<seq<RuleConfig>>, pct: real, lightmap: bool): Severity
  {
    if rules.None? then
      if lightmap then SeverityForPercentage(pct, 2.0, 8.0) else SeverityForPercentage(pct, 5.0, 15.0)
    else if lightmap then
      SeverityForPercentage(pct,
        Atof(GetRuleParameter(rules.value, RuleId, "LightmapWarningThreshold", "2.0")),
        Atof(GetRuleParameter(rules.value, RuleId, "LightmapErrorThreshold", "8.0")))
    else
      SeverityForPercentage(pct,
        Atof(GetRuleParameter(rules.value, RuleId, "TextureWarningThreshold", "5.0")),
        Atof(GetRuleParameter(rules.value, RuleId, "TextureErrorThreshold", "15.0")))
  }

  /** DetermineOverlapSeverity: Warning without a profile, else the texture bands (never the lightmap ones). */
  function DetermineOverlapSeverity(info: OverlapInfo, rules: Option<seq<RuleConfig>>): (s: Severity)
    ensures rules.None? ==> s == Warning
    ensures rules.Some? ==> s == SeverityForOverlap(rules, info.percentage, false)
  {
    if rules.None? then Warning else SeverityForOverlap(rules, info.percentage, false)
  }

  // ---------------------------------------------------------------------------
  // Per-channel analysis

  /**
   * The similar-size heuristic on a channel's boxes: reported exactly when it
   * flags them, with the rounded similar count and the ratio as a percentage.
   */
  function SimilarityIssue(bs: seq<UvBounds>, channel: nat): Option<OverlapInfo>
  {
    if !Flagged(bs) then None
    else Some(OverlapInfo(channel, SimilarCount(bs, |bs|), SimilarityRatio(bs) * 100.0))
  }

  /** AnalyzeUVChannelOverlaps: nothing without boxes, otherwise the heuristic's verdict. */
  function ChannelOverlap(d: MeshDescription, channel: nat): Option<OverlapInfo>
  {
    var bs := TriangleUvBounds(d, channel);
    if |bs| == 0 then None else SimilarityIssue(bs, channel)
  }

  /**
   * A channel is reported exactly when more than four boxes exist and five
   * times the similar count exceeds four times the number of boxes; it then
   * carries at least five triangles and a percentage strictly between 80 and 100.
   */
  lemma ChannelOverlapBounds(d: MeshDescription, channel: nat)
    ensures var bs := TriangleUvBounds(d, channel);
            ChannelOverlap(d, channel).Some? <==> |bs| > 4 && 5 * SimilarCount(bs, |bs|) > 4 * |bs|
    ensures ChannelOverlap(d, channel).Some? ==>
              && ChannelOverlap(d, channel).value.channel == channel
              && ChannelOverlap(d, channel).value.overlappingTriangles >= 5
              && 80.0 < ChannelOverlap(d, channel).value.percentage < 100.0
  {
    FlaggedNeedsSix(TriangleUvBounds(d, channel));
  }

  /** The heuristic as the source computes it, in single precision there and exactly here. */
  method CheckSimilarity(bs: seq<UvBounds>, channel: nat) returns (info: Option<OverlapInfo>)
    ensures info == SimilarityIssue(bs, channel)
  {
    info := None;
    if |bs| > 4 {
      var count := CountSimilarBounds(bs);
      var ratio := count as real / |bs| as real;
      assert ratio == SimilarityRatio(bs);
      if ratio > 0.8 {
        var rounded := RoundToInt(ratio * |bs| as real);
        RatioTimesTotal(count as real, |bs| as real);
        RoundToIntOfInt(count);
        info := Some(OverlapInfo(channel, rounded, ratio * 100.0));
        assert Flagged(bs);
        assert rounded == SimilarCount(bs, |bs|);
        assert info == SimilarityIssue(bs, channel);
      } else {
        assert !Flagged(bs);
        assert info == SimilarityIssue(bs, channel);
      }
    } else {
      assert info == SimilarityIssue(bs, channel);
    }
  }

  /**
   * AnalyzeUVChannelOverlaps as written: builds the boxes, runs the pairwise
   * detection (whose result only feeds a log line), then the heuristic.
   */
  method AnalyzeUvChannelOverlaps(d: MeshDescription, channel: nat, tolerance: real) returns (info: Option<OverlapInfo>)
    ensures info == ChannelOverlap(d, channel)
  {
    var bs := BuildTriangleUvBounds(d, channel);
    if |bs| == 0 {
      return None;
    }
    var overlapping := DetectOverlappingTriangles(bs, tolerance);
    info := CheckSimilarity(bs, channel);
  }

  /** The overlap infos of channels 0 .. n - 1, in channel order. */
  function ChannelOverlaps(d: MeshDescription, rules: seq<RuleConfig>, n: nat): seq<OverlapInfo>
  {
    if n == 0 then []
    else
      var c := n - 1;
      var rest := ChannelOverlaps(d, rules, n - 1);
      if ShouldCheckUvChannel(Some(rules), c) && IsValidUvChannel(d, c) then
        match ChannelOverlap(d, c)
        case Some(info) => rest + [info]
        case None => rest
      else rest
  }

  /** Every reported channel is one of 0..3 that the profile selects and the description has. */
  lemma {:induction false} ChannelOverlapsChannels(d: MeshDescription, rules: seq<RuleConfig>, n: nat)
    ensures forall k :: 0 <= k < |ChannelOverlaps(d, rules, n)| ==>
              var c := ChannelOverlaps(d, rules, n)[k].channel;
              c < n && c <= 3 && ShouldCheckUvChannel(Some(rules), c) && IsValidUvChannel(d, c)
              && ChannelOverlap(d, c) == Some(ChannelOverlaps(d, rules, n)[k])
  {
    if n > 0 {
      ChannelOverlapsChannels(d, rules, n - 1);
      var rest := ChannelOverlaps(d, rules, n - 1);
      assert forall k :: 0 <= k < |rest| ==> ChannelOverlaps(d, rules, n)[k] == rest[k];
    }
  }

  /** AnalyzeStaticMeshUVOverlaps: channels 0..7, skipping unselected and absent channels. */
  method AnalyzeMeshUvOverlaps(d: MeshDescription, rules: seq<RuleConfig>) returns (infos: seq<OverlapInfo>)
    ensures infos == ChannelOverlaps(d, rules, 8)
  {
    infos := [];
    var channel := 0;
    while channel < 8
      invariant 0 <= channel <= 8
      invariant infos == ChannelOverlaps(d, rules, channel)
    {
      if ShouldCheckUvChannel(Some(rules), channel) && IsValidUvChannel(d, channel) {
        var tolerance := ToleranceForChannel(Some(rules), channel);
        var info := AnalyzeUvChannelOverlaps(d, channel, tolerance);
        if info.Some? {
          infos := infos + [info.value];
        }
      }
      channel := channel + 1;
    }
  }

  // ---------------------------------------------------------------------------
  // Check

  /** GetUVChannelUsageName. */
  function ChannelUsageName(channel: nat, m: StaticMesh): string
  {
    if m.lightmapCoordinateIndex == channel then "UV Channel " + IntToString(channel) + " (Lightmap)"
    else if channel == 0 then "UV Channel 0 (Primary Texture)"
    else if channel == 1 then "UV Channel 1 (Secondary Texture)"
    else "UV Channel " + IntToString(channel)
  }

  /** GenerateOverlapDescription. */
  function OverlapDescription(info: OverlapInfo, m: StaticMesh): string
  {
    "UV Overlaps detected in " + ChannelUsageName(info.channel, m) + ": " + IntToString(info.overlappingTriangles)
    + " triangles (" + Fixed1(info.percentage)
    + "% of surface area) have overlapping UV coordinates. This may cause texture artifacts and lightmap baking issues."
  }

  /** The result of one reported channel: no file path and never a fix. */
  function OverlapResult(info: OverlapInfo, m: StaticMesh, rules: seq<RuleConfig>): AnalysisResult
  {
    AnalysisResult(AssetOf(m), DetermineOverlapSeverity(info, Some(rules)), RuleId, OverlapDescription(info, m), "", None)
  }

  /** The results for the infos with a positive triangle count, in order. */
  function OverlapResults(infos: seq<OverlapInfo>, m: StaticMesh, rules: seq<RuleConfig>): seq<AnalysisResult>
  {
    if infos == [] then []
    else
      var last := infos[|infos| - 1];
      OverlapResults(infos[..|infos| - 1], m, rules) + (if last.overlappingTriangles > 0 then [OverlapResult(last, m, rules)] else [])
  }

  /**
   * The outcome of Check: false without a profile, true with nothing for a
   * disabled rule, false for a missing mesh or mesh description, otherwise true
   * with one result per reported channel.
   */
  function Evaluate(asset: Option<StaticMesh>, profile: Option<ProfileData>): Outcome
  {
    if profile.None? then NoIssue
    else if !IsRuleEnabled(profile.value.rules, RuleId) then Outcome(true, [])
    else if asset.None? || asset.value.description.None? then NoIssue
    else
      var infos := ChannelOverlaps(asset.value.description.value, profile.value.rules, 8);
      Outcome(true, OverlapResults(infos, asset.value, profile.value.rules))
  }

  /** Check: the guards, the channel analysis, then one result per channel with overlapping triangles. */
  method Check(asset: Option<StaticMesh>, profile: Option<ProfileData>) returns (o: Outcome)
    ensures o == Evaluate(asset, profile)
  {
    hide OverlapDescription;
    if profile.None? {
      return NoIssue;
    }
    if !IsRuleEnabled(profile.value.rules, RuleId) {
      return Outcome(true, []);
    }
    if asset.None? || asset.value.description.None? {
      return NoIssue;
    }
    var m := asset.value;
    var infos := AnalyzeMeshUvOverlaps(m.description.value, profile.value.rules);
    var results := [];
    var i := 0;
    while i < |infos|
      invariant 0 <= i <= |infos|
      invariant results == OverlapResults(infos[..i], m, profile.value.rules)
    {
      assert infos[..i + 1][..i] == infos[..i];
      if infos[i].overlappingTriangles > 0 {
        results := results + [OverlapResult(infos[i], m, profile.value.rules)];
      }
      i := i + 1;
    }
    assert infos[..|infos|] == infos;
    o := Outcome(true, results);
  }

  /** Every result is one reported channel: none carries a fix and each is graded with the texture bands. */
  lemma {:induction false} OverlapResultsShape(infos: seq<OverlapInfo>, m: StaticMesh, rules: seq<RuleConfig>)
    ensures |OverlapResults(infos, m, rules)| <= |infos|
    ensures forall k :: 0 <= k < |OverlapResults(infos, m, rules)| ==>
              var r := OverlapResults(infos, m, rules)[k];
              r.ruleId == RuleId && r.fix.None? &&
              exists j :: 0 <= j < |infos| && infos[j].overlappingTriangles > 0 &&
                          r.severity == SeverityForOverlap(Some(rules), infos[j].percentage, false)
  {
    hide OverlapDescription;
    if infos != [] {
      var prefix := infos[..|infos| - 1];
      OverlapResultsShape(prefix, m, rules);
      var rest := OverlapResults(prefix, m, rules);
      assert forall k :: 0 <= k < |rest| ==> OverlapResults(infos, m, rules)[k] == rest[k];
      assert forall j :: 0 <= j < |prefix| ==> infos[j] == prefix[j];
    }
  }

  /**
   * Check's verdicts: it reports success for a disabled rule (contrary to the
   * interface's "true if issues were found"), fails without a profile, mesh or
   * mesh description, and every result it appends has no fix.
   */
  lemma EvaluateVerdicts(asset: Option<StaticMesh>, profile: Option<ProfileData>)
    ensures profile.None? ==> Evaluate(asset, profile) == NoIssue
    ensures profile.Some? && !IsRuleEnabled(profile.value.rules, RuleId) ==> Evaluate(asset, profile) == Outcome(true, [])
    ensures profile.Some? && IsRuleEnabled(profile.value.rules, RuleId) ==>
              (Evaluate(asset, profile).found <==> asset.Some? && asset.value.description.Some?)
    ensures forall k :: 0 <= k < |Evaluate(asset, profile).results| ==> Evaluate(asset, profile).results[k].fix.None?
  {
    if profile.Some? && IsRuleEnabled(profile.value.rules, RuleId) && asset.Some? && asset.value.description.Some? {
      var infos := ChannelOverlaps(asset.value.description.value, profile.value.rules, 8);
      OverlapResultsShape(infos, asset.value, profile.value.rules);
    }
  }
}
