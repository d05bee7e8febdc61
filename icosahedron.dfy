/// The discrete part of the icosahedron (src/polyhedron/icosahedron.rs): its
/// face table, the sign test of `is_point_in_triangle`, the face centre, the
/// choice of sub-triangle in `triangles` and the labelling of
/// `triangle_arc_lengths`. Angles, plane distances and normalisation are
/// floating-point trigonometry and enter as parameters.
module Icosahedron {
  import opened RustStd
  import opened Geometry

  /** `FACES`. */
  const FACES: u8 := 20

  /** The number of vectors `unit_vectors` builds: two poles and two rings of five. */
  const VERTEX_COUNT: nat := 12

  /** `[u8; 3]`: the slots of a face's three vertices in the `unit_vectors` list. */
  type FaceIndices = (u8, u8, u8)

  /** `INDICES`: five faces around the north pole (slot 0), two bands of ten,
      and five around the south pole (slot 11). */
  const INDICES: seq<FaceIndices> := [
    (0, 1, 2), (0, 2, 3), (0, 3, 4), (0, 4, 5), (0, 5, 1),
    (6, 2, 1), (7, 3, 2), (8, 4, 3), (9, 5, 4), (10, 1, 5),
    (2, 6, 7), (3, 7, 8), (4, 8, 9), (5, 9, 10), (1, 10, 6),
    (11, 7, 6), (11, 8, 7), (11, 9, 8), (11, 10, 9), (11, 6, 10)
  ]

  /** Three distinct slots, each naming one of the vectors `unit_vectors` builds. */
  predicate WellFormedFace(t: FaceIndices) {
    t.0 as nat < VERTEX_COUNT && t.1 as nat < VERTEX_COUNT && t.2 as nat < VERTEX_COUNT &&
    t.0 != t.1 && t.1 != t.2 && t.0 != t.2
  }

  /** `indices`: one well-formed triple per face. */
  function Indices(): (faces: seq<FaceIndices>)
    ensures |faces| == FACES as int
    ensures forall f :: 0 <= f < |faces| ==> WellFormedFace(faces[f])
    ensures faces == INDICES
  {
    INDICES
  }

  /** `faces`: the number of faces, which is the length of the face table. */
  function Faces(): (n: u8)
    ensures n as int == |Indices()| == 20
  {
    FACES
  }

  predicate Has(t: FaceIndices, k: nat) {
    t.0 as nat == k || t.1 as nat == k || t.2 as nat == k
  }

  /** The faces that use slot `k`. */
  function FacesWith(k: nat): set<nat> {
    set f: nat | f < |INDICES| && Has(INDICES[f], k)
  }

  /** The faces around each slot, listed by hand. */
  function ExpectedFaces(k: nat): set<nat>
    requires k < VERTEX_COUNT
  {
    [{0, 1, 2, 3, 4}, {0, 4, 5, 9, 14}, {0, 1, 5, 6, 10}, {1, 2, 6, 7, 11},
     {2, 3, 7, 8, 12}, {3, 4, 8, 9, 13}, {5, 10, 14, 15, 19}, {6, 10, 11, 15, 16},
     {7, 11, 12, 16, 17}, {8, 12, 13, 17, 18}, {9, 13, 14, 18, 19}, {15, 16, 17, 18, 19}][k]
  }

  /** Membership in the hand-made list agrees with the table, face by face. */
  lemma ExpectedFacesAgree(k: nat, f: nat)
    requires k < VERTEX_COUNT && f < |INDICES|
    ensures f in ExpectedFaces(k) <==> Has(INDICES[f], k)
  {
    if f < 10 {
      UpperFacesAgree(k, f);
    } else {
      LowerFacesAgree(k, f);
    }
  }

  /** The ten faces touching the north pole's ring. */
  lemma UpperFacesAgree(k: nat, f: nat)
    requires k < VERTEX_COUNT && f < 10
    ensures f in ExpectedFaces(k) <==> Has(INDICES[f], k)
  {
  }

  /** The ten faces touching the south pole's ring. */
  lemma LowerFacesAgree(k: nat, f: nat)
    requires k < VERTEX_COUNT && 10 <= f < |INDICES|
    ensures f in ExpectedFaces(k) <==> Has(INDICES[f], k)
  {
  }

  /** Every one of the twelve vertices is shared by exactly five faces. */
  lemma SlotInFiveFaces(k: nat)
    requires k < VERTEX_COUNT
    ensures |FacesWith(k)| == 5
  {
    forall f: nat | f < |INDICES| {
      ExpectedFacesAgree(k, f);
    }
    assert FacesWith(k) == ExpectedFaces(k);
    ExpectedFacesFive(k);
  }

  /** Each set of the hand-made table has five members. */
  lemma ExpectedFacesFive(k: nat)
    requires k < VERTEX_COUNT
    ensures |ExpectedFaces(k)| == 5
  {
    if k < 6 {
      assert k == 0 || k == 1 || k == 2 || k == 3 || k == 4 || k == 5;
    } else {
      assert k == 6 || k == 7 || k == 8 || k == 9 || k == 10 || k == 11;
    }
  }

  /** The north pole belongs to the top row only, the south pole to the bottom row only. */
  lemma PolesOnlyInCaps(f: nat)
    requires f < |INDICES|
    ensures Has(INDICES[f], 0) <==> f < 5
    ensures Has(INDICES[f], 11) <==> 15 <= f
  {
  }

  // ---------------------------------------------------------------------
  // Point-in-triangle test

  /** The `1e-9` below which a signed distance is treated as zero. */
  const TOLERANCE: real := 0.000000001

  /** `d.abs() > 1e-9`. */
  predicate Significant(d: real) {
    d > TOLERANCE || -d > TOLERANCE
  }

  /** `d.signum() as i32` for a non-zero `d`. */
  function Signum(d: real): int {
    if d > 0.0 then 1 else if d < 0.0 then -1 else 0
  }

  /** No two significant distances have opposite signs. */
  predicate SignsAgree(ds: seq<real>) {
    forall i, j :: 0 <= i < |ds| && 0 <= j < |ds| && Significant(ds[i]) && Significant(ds[j]) ==>
      Signum(ds[i]) == Signum(ds[j])
  }

  /** `is_point_in_triangle`. `beyondQuarterTurn` is the pre-check that the
      angle from the point to the triangle's first vertex exceeds a right
      angle; `distances` are the point's signed distances to the three planes
      through the origin and each edge. The loop remembers the sign of the
      last significant distance and stops at the first one that disagrees. */
  method IsPointInTriangle(beyondQuarterTurn: bool, distances: seq<real>) returns (inside: bool)
    requires |distances| == 3
    ensures inside <==> !beyondQuarterTurn && SignsAgree(distances)
  {
    if beyondQuarterTurn {
      return false;
    }
    var sign := 0;
    ghost var seen := 0;
    var k := 0;
    while k < |distances|
      invariant 0 <= k <= |distances|
      invariant sign == 0 ==> forall i :: 0 <= i < k ==> !Significant(distances[i])
      invariant sign != 0 ==> 0 <= seen < k && Significant(distances[seen]) && Signum(distances[seen]) == sign
      invariant sign != 0 ==> forall i :: 0 <= i < k && Significant(distances[i]) ==> Signum(distances[i]) == sign
    {
      var d := distances[k];
      if Significant(d) {
        var s := Signum(d);
        if sign != 0 && s != sign {
          assert Signum(distances[seen]) != Signum(distances[k]);
          return false;
        }
        sign := s;
        seen := k;
      }
      k := k + 1;
    }
    return true;
  }

  /** An independent reading of the test: the significant distances are all
      positive, or all negative. */
  lemma SignsAgreeIffOneSided(ds: seq<real>)
    ensures SignsAgree(ds) <==>
      (forall i :: 0 <= i < |ds| && Significant(ds[i]) ==> ds[i] > 0.0) ||
      (forall i :: 0 <= i < |ds| && Significant(ds[i]) ==> ds[i] < 0.0)
  {
    if SignsAgree(ds) && exists w :: 0 <= w < |ds| && Significant(ds[w]) {
      var w :| 0 <= w < |ds| && Significant(ds[w]);
      if ds[w] > 0.0 {
        assert forall i :: 0 <= i < |ds| && Significant(ds[i]) ==> Signum(ds[i]) == Signum(ds[w]);
      } else {
        assert forall i :: 0 <= i < |ds| && Significant(ds[i]) ==> Signum(ds[i]) == Signum(ds[w]);
      }
    }
  }

  /** Distances within the tolerance are ignored: a point on all three planes is inside. */
  lemma TinyDistancesAgree(ds: seq<real>)
    requires forall i :: 0 <= i < |ds| ==> -TOLERANCE <= ds[i] <= TOLERANCE
    ensures SignsAgree(ds)
  {
  }

  // ---------------------------------------------------------------------
  // Face centre and sub-triangles

  /** `face_center`: the component-wise mean of the three vectors, not normalised. */
  function FaceCenter(v1: Vector3D, v2: Vector3D, v3: Vector3D): (c: Vector3D)
    ensures 3.0 * c.x == v1.x + v2.x + v3.x
    ensures 3.0 * c.y == v1.y + v2.y + v3.y
    ensures 3.0 * c.z == v1.z + v2.z + v3.z
  {
    Vector3D((v1.x + v2.x + v3.x) / 3.0, (v1.y + v2.y + v3.y) / 3.0, (v1.z + v2.z + v3.z) / 3.0)
  }

  /** The centre is symmetric in its arguments and fixes a repeated vector. */
  lemma FaceCenterSymmetric(a: Vector3D, b: Vector3D, c: Vector3D)
    ensures FaceCenter(a, b, c) == FaceCenter(b, a, c) == FaceCenter(a, c, b) == FaceCenter(c, b, a)
    ensures FaceCenter(a, a, a) == a
  {
  }

  /** The centre of three unit vectors need not be a unit vector: the three axes give a
      centre of squared length 1/3. */
  lemma FaceCenterNotNormalised()
    ensures var c := FaceCenter(Vector3D(1.0, 0.0, 0.0), Vector3D(0.0, 1.0, 0.0), Vector3D(0.0, 0.0, 1.0));
      c.x * c.x + c.y * c.y + c.z * c.z == 1.0 / 3.0
  {
  }

  /** `triangles`. `inTriangle(t)` is `is_point_in_triangle` of the point being
      projected against `t`; `normalize` is `Vector3D::normalize`; and
      `layoutFaceCenter` is the layout's `face_center`. The (centre, v2, v3)
      third is tried first, then (centre, v3, v1), and the v1-v2 third is taken
      without a test. Within the chosen third a second test picks the corner.
      The result is [mid, corner, centre] in 3D and in 2D; only the 3D mid and
      centre are normalised. */
  function Triangles(layoutFaceCenter: LatticeTriangle -> Position2D, inTriangle: Triple3D -> bool,
                     normalize: Vector3D -> Vector3D, fv: Triple3D, fp: LatticeTriangle): (r: (Triple3D, Triple2D))
    ensures r.0.2 == normalize(FaceCenter(fv.0, fv.1, fv.2)) && r.1.2 == layoutFaceCenter(fp)
    ensures inTriangle((FaceCenter(fv.0, fv.1, fv.2), fv.1, fv.2)) ==>
      r.0.0 == normalize(Mid3D(fv.1, fv.2)) && r.1.0 == Mid2D(FromTuple(fp.1), FromTuple(fp.2)) &&
      (inTriangle((FaceCenter(fv.0, fv.1, fv.2), Mid3D(fv.1, fv.2), fv.2)) ==> (r.0.1, r.1.1) == (fv.2, FromTuple(fp.2))) &&
      (!inTriangle((FaceCenter(fv.0, fv.1, fv.2), Mid3D(fv.1, fv.2), fv.2)) ==> (r.0.1, r.1.1) == (fv.1, FromTuple(fp.1)))
    ensures (!inTriangle((FaceCenter(fv.0, fv.1, fv.2), fv.1, fv.2)) &&
             inTriangle((FaceCenter(fv.0, fv.1, fv.2), fv.2, fv.0))) ==>
      r.0.0 == normalize(Mid3D(fv.2, fv.0)) && r.1.0 == Mid2D(FromTuple(fp.2), FromTuple(fp.0)) &&
      (inTriangle((FaceCenter(fv.0, fv.1, fv.2), Mid3D(fv.2, fv.0), fv.2)) ==> (r.0.1, r.1.1) == (fv.2, FromTuple(fp.2))) &&
      (!inTriangle((FaceCenter(fv.0, fv.1, fv.2), Mid3D(fv.2, fv.0), fv.2)) ==> (r.0.1, r.1.1) == (fv.0, FromTuple(fp.0)))
    ensures (!inTriangle((FaceCenter(fv.0, fv.1, fv.2), fv.1, fv.2)) &&
             !inTriangle((FaceCenter(fv.0, fv.1, fv.2), fv.2, fv.0))) ==>
      r.0.0 == normalize(Mid3D(fv.0, fv.1)) && r.1.0 == Mid2D(FromTuple(fp.0), FromTuple(fp.1)) &&
      (inTriangle((FaceCenter(fv.0, fv.1, fv.2), Mid3D(fv.0, fv.1), fv.1)) ==> (r.0.1, r.1.1) == (fv.1, FromTuple(fp.1))) &&
      (!inTriangle((FaceCenter(fv.0, fv.1, fv.2), Mid3D(fv.0, fv.1), fv.1)) ==> (r.0.1, r.1.1) == (fv.0, FromTuple(fp.0)))
  {
    var (v1, v2, v3) := fv;
    var (p1, p2, p3) := (FromTuple(fp.0), FromTuple(fp.1), FromTuple(fp.2));
    var pointCenter := layoutFaceCenter(fp);
    var vectorCenter := FaceCenter(v1, v2, v3);
    var (vMid, pMid, corner) :=
      if inTriangle((vectorCenter, v2, v3)) then
        var pMid := Mid2D(p2, p3);
        var vMid := Mid3D(v2, v3);
        if inTriangle((vectorCenter, vMid, v3)) then (vMid, pMid, (v3, p3)) else (vMid, pMid, (v2, p2))
      else if inTriangle((vectorCenter, v3, v1)) then
        var pMid := Mid2D(p3, p1);
        var vMid := Mid3D(v3, v1);
        if inTriangle((vectorCenter, vMid, v3)) then (vMid, pMid, (v3, p3)) else (vMid, pMid, (v1, p1))
      else
        var pMid := Mid2D(p1, p2);
        var vMid := Mid3D(v1, v2);
        if inTriangle((vectorCenter, vMid, v2)) then (vMid, pMid, (v2, p2)) else (vMid, pMid, (v1, p1));
    ((normalize(vMid), corner.0, normalize(vectorCenter)), (pMid, corner.1, pointCenter))
  }

  /** Once the first third contains the point, no later test is consulted: two
      membership tests that agree on the two triangles of that third give the same result. */
  lemma FirstThirdWins(layoutFaceCenter: LatticeTriangle -> Position2D, in1: Triple3D -> bool, in2: Triple3D -> bool,
                       normalize: Vector3D -> Vector3D, fv: Triple3D, fp: LatticeTriangle)
    requires in1((FaceCenter(fv.0, fv.1, fv.2), fv.1, fv.2)) && in2((FaceCenter(fv.0, fv.1, fv.2), fv.1, fv.2))
    requires in1((FaceCenter(fv.0, fv.1, fv.2), Mid3D(fv.1, fv.2), fv.2)) ==
             in2((FaceCenter(fv.0, fv.1, fv.2), Mid3D(fv.1, fv.2), fv.2))
    ensures Triangles(layoutFaceCenter, in1, normalize, fv, fp) == Triangles(layoutFaceCenter, in2, normalize, fv, fp)
  {
  }

  /** `ArcLengths`: the six great-circle distances `triangle_arc_lengths` computes. */
  datatype ArcLengths = ArcLengths(ab: real, bc: real, ac: real, ap: real, bp: real, cp: real)

  /** `triangle_arc_lengths`: the triangle [mid, corner, centre] is read as
      B, A, C, and `p` is the point. `angle` is `angle_between_unit`. */
  function TriangleArcLengths(triangle: Triple3D, p: Vector3D, angle: (Vector3D, Vector3D) -> real): (a: ArcLengths)
    ensures a.ab == angle(triangle.1, triangle.0) && a.bc == angle(triangle.0, triangle.2)
    ensures a.ac == angle(triangle.1, triangle.2)
    ensures a.ap == angle(triangle.1, p) && a.bp == angle(triangle.0, p) && a.cp == angle(triangle.2, p)
  {
    var (mid, corner, center) := triangle;
    ArcLengths(angle(corner, mid), angle(mid, center), angle(corner, center),
               angle(corner, p), angle(mid, p), angle(center, p))
  }

  /** Applied to what `triangles` returns, A is one of the face's own (raw) vertices,
      C is the normalised face centre, and B the normalised midpoint of an edge. */
  lemma ArcLengthsOfChosenTriangle(layoutFaceCenter: LatticeTriangle -> Position2D, inTriangle: Triple3D -> bool,
                                   normalize: Vector3D -> Vector3D, fv: Triple3D, fp: LatticeTriangle,
                                   p: Vector3D, angle: (Vector3D, Vector3D) -> real)
    ensures var a := TriangleArcLengths(Triangles(layoutFaceCenter, inTriangle, normalize, fv, fp).0, p, angle);
      (a.ap == angle(fv.0, p) || a.ap == angle(fv.1, p) || a.ap == angle(fv.2, p)) &&
      a.cp == angle(normalize(FaceCenter(fv.0, fv.1, fv.2)), p) &&
      (a.bp == angle(normalize(Mid3D(fv.1, fv.2)), p) || a.bp == angle(normalize(Mid3D(fv.2, fv.0)), p) ||
       a.bp == angle(normalize(Mid3D(fv.0, fv.1)), p))
  {
    var r := Triangles(layoutFaceCenter, inTriangle, normalize, fv, fp);
  }
}
