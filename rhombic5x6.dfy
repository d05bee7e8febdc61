/// The 5x6 rhombic layout of the icosahedron's twenty faces on an integer
/// lattice (src/layout/rhombic5x6.rs).
module Rhombic5x6 {
  import opened RustStd
  import opened Geometry

  /** `TRIANGLES`: per face, a lattice corner followed by its two neighbours
      along the x and the y axis. Faces 0-4 are the top row, 5-9 their
      mirrors, 10-14 the mirrors of the bottom row, 15-19 the bottom row. */
  const TRIANGLES: seq<LatticeTriangle> := [
    ((1, 0), (0, 0), (1, 1)),
    ((2, 1), (1, 1), (2, 2)),
    ((3, 2), (2, 2), (3, 3)),
    ((4, 3), (3, 3), (4, 4)),
    ((5, 4), (4, 4), (5, 5)),
    ((0, 1), (1, 1), (0, 0)),
    ((1, 2), (2, 2), (1, 1)),
    ((2, 3), (3, 3), (2, 2)),
    ((3, 4), (4, 4), (3, 3)),
    ((4, 5), (5, 5), (4, 4)),
    ((1, 1), (0, 1), (1, 2)),
    ((2, 2), (1, 2), (2, 3)),
    ((3, 3), (2, 3), (3, 4)),
    ((4, 4), (3, 4), (4, 5)),
    ((5, 5), (4, 5), (5, 6)),
    ((0, 2), (1, 2), (0, 1)),
    ((1, 3), (2, 3), (1, 2)),
    ((2, 4), (3, 4), (2, 3)),
    ((3, 5), (4, 5), (3, 4)),
    ((4, 6), (5, 6), (4, 5))
  ]

  /** The true (unbounded) sums of the three x and the three y coordinates. */
  function SumX(p: LatticeTriangle): nat { p.0.0 as nat + p.1.0 as nat + p.2.0 as nat }

  function SumY(p: LatticeTriangle): nat { p.0.1 as nat + p.1.1 as nat + p.2.1 as nat }

  /** The sum of three `u8` values with the two wrapping additions of a
      release build: the true sum modulo 256. */
  function WrappingSum3(a: u8, b: u8, c: u8): (s: u8)
    ensures s as int == (a as int + b as int + c as int) % 256
  {
    var t := a as int + b as int + c as int;
    assert t < 256 ==> t % 256 == t;
    assert 256 <= t < 512 ==> t % 256 == t - 256;
    assert 512 <= t ==> t % 256 == t - 512;
    WrappingAdd(WrappingAdd(a, b), c)
  }

  /** Division by three, truncating. */
  function Third(n: nat): (q: nat)
    ensures 3 * q <= n < 3 * q + 3
  {
    n / 3
  }

  /** `face_center`: the `u8` sums of each axis, divided by three with truncation.
      Each component is the truncated mean of the coordinates, taken of the
      sum modulo 256. */
  function FaceCenter(p: LatticeTriangle): (c: Position2D)
    ensures c.x == ((SumX(p) % 256) / 3) as real && c.y == ((SumY(p) % 256) / 3) as real
  {
    var sx := WrappingSum3(p.0.0, p.1.0, p.2.0);
    var sy := WrappingSum3(p.0.1, p.1.1, p.2.1);
    Position2D(Third(sx as nat) as real, Third(sy as nat) as real)
  }

  /** Every lattice point of `p` lies in the `width` by `height` grid, borders included. */
  predicate WithinGrid(p: LatticeTriangle, size: (nat, nat)) {
    p.0.0 as nat <= size.0 && p.1.0 as nat <= size.0 && p.2.0 as nat <= size.0 &&
    p.0.1 as nat <= size.1 && p.1.1 as nat <= size.1 && p.2.1 as nat <= size.1
  }

  function Distance(a: u8, b: u8): nat {
    if a <= b then (b - a) as nat else (a - b) as nat
  }

  /** The first point is a right-angle corner: it shares its y with the second
      point and its x with the third, each one lattice step away. */
  predicate UnitRightCorner(p: LatticeTriangle) {
    p.0.1 == p.1.1 && Distance(p.0.0, p.1.0) == 1 &&
    p.0.0 == p.2.0 && Distance(p.0.1, p.2.1) == 1
  }

  /** `grid_size`: the smallest grid every face of the table fits in: face 4
      reaches the last column and face 19 the last row. */
  function GridSize(): (size: (nat, nat))
    ensures forall i :: 0 <= i < |TRIANGLES| ==> WithinGrid(TRIANGLES[i], size)
    ensures TRIANGLES[4].0.0 as nat == size.0 && TRIANGLES[19].0.1 as nat == size.1
  {
    (5, 6)
  }

  /** `vertices`: the twenty faces, each a unit right-angle corner inside the grid. */
  function Vertices(): (faces: seq<LatticeTriangle>)
    ensures |faces| == 20
    ensures forall i :: 0 <= i < |faces| ==> UnitRightCorner(faces[i]) && WithinGrid(faces[i], GridSize())
    ensures faces == TRIANGLES
  {
    TRIANGLES
  }

  /** The sums on the table are at most 17, so the `u8` additions never wrap on
      it and every centre is the exact truncated mean. */
  lemma TableCentersDoNotWrap(i: nat)
    requires i < |TRIANGLES|
    ensures SumX(TRIANGLES[i]) <= 17 && SumY(TRIANGLES[i]) <= 17
    ensures var c := FaceCenter(TRIANGLES[i]);
      3.0 * c.x <= SumX(TRIANGLES[i]) as real < 3.0 * c.x + 3.0 &&
      3.0 * c.y <= SumY(TRIANGLES[i]) as real < 3.0 * c.y + 3.0
  {
    if i < 10 {
      UpperSumsSmall(i);
    } else {
      LowerSumsSmall(i);
    }
  }

  lemma UpperSumsSmall(i: nat)
    requires i < 10
    ensures SumX(TRIANGLES[i]) <= 17 && SumY(TRIANGLES[i]) <= 17
  {
  }

  lemma LowerSumsSmall(i: nat)
    requires 10 <= i < |TRIANGLES|
    ensures SumX(TRIANGLES[i]) <= 17 && SumY(TRIANGLES[i]) <= 17
  {
  }

  /** The centre does not depend on the order of the vertices, even when the sums wrap. */
  lemma FaceCenterOrderIndependent(a: LatticePoint, b: LatticePoint, c: LatticePoint)
    ensures FaceCenter((a, b, c)) == FaceCenter((b, a, c)) == FaceCenter((a, c, b))
    ensures FaceCenter((a, b, c)) == FaceCenter((c, b, a)) == FaceCenter((b, c, a))
  {
  }

  /** Face 0 is centred on (0,0); the first bottom-row face on (0,1). */
  lemma FaceCenterExamples()
    ensures FaceCenter(TRIANGLES[0]) == Position2D(0.0, 0.0)
    ensures FaceCenter(TRIANGLES[15]) == Position2D(0.0, 1.0)
  {
    var top := TRIANGLES[0];
    assert top == ((1, 0), (0, 0), (1, 1));
    assert SumX(top) == 2 && SumY(top) == 1;
    var bottom := TRIANGLES[15];
    assert bottom == ((0, 2), (1, 2), (0, 1));
    assert SumX(bottom) == 1 && SumY(bottom) == 5;
  }

  /** Outside the table the sum wraps: 200 + 100 + 0 reads as 44, whose third is 14. */
  lemma WrappedCenterExample()
    ensures SumX(((200, 0), (100, 0), (0, 0))) == 300
    ensures FaceCenter(((200, 0), (100, 0), (0, 0))).x == 14.0
  {
    assert 300 % 256 == 44;
  }
}
