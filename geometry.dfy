/// The value types the polyhedron and the layout exchange
/// (src/models/common.rs, src/models/vector_3d.rs). Coordinates are `f64`
/// in the source and exact reals here.
module Geometry {
  import opened RustStd

  /** A point of the rhombic lattice, `(u8, u8)`. */
  type LatticePoint = (u8, u8)

  /** The three lattice points of one face, `[(u8, u8); 3]`. */
  type LatticeTriangle = (LatticePoint, LatticePoint, LatticePoint)

  datatype Position2D = Position2D(x: real, y: real)

  datatype Vector3D = Vector3D(x: real, y: real, z: real)

  /** Three vectors in the order the source keeps them in a `[Vector3D; 3]`. */
  type Triple3D = (Vector3D, Vector3D, Vector3D)

  type Triple2D = (Position2D, Position2D, Position2D)

  /** `Position2D::from_tuple`: the lattice point as a plane position. */
  function FromTuple(t: LatticePoint): (p: Position2D)
    ensures p.x == t.0 as real && p.y == t.1 as real
  {
    Position2D(t.0 as real, t.1 as real)
  }

  /** `Position2D::mid`: the point halfway between `a` and `b`. */
  function Mid2D(a: Position2D, b: Position2D): (m: Position2D)
    ensures m.x - a.x == b.x - m.x && m.y - a.y == b.y - m.y
  {
    Position2D((a.x + b.x) / 2.0, (a.y + b.y) / 2.0)
  }

  /** `Vector3D::mid`: the point halfway between `a` and `b`, not normalised. */
  function Mid3D(a: Vector3D, b: Vector3D): (m: Vector3D)
    ensures m.x - a.x == b.x - m.x && m.y - a.y == b.y - m.y && m.z - a.z == b.z - m.z
  {
    Vector3D((a.x + b.x) / 2.0, (a.y + b.y) / 2.0, (a.z + b.z) / 2.0)
  }

  /** Both midpoints ignore the order of their arguments and fix a repeated point. */
  lemma MidpointsSymmetric(a: Vector3D, b: Vector3D, p: Position2D, q: Position2D)
    ensures Mid3D(a, b) == Mid3D(b, a) && Mid3D(a, a) == a
    ensures Mid2D(p, q) == Mid2D(q, p) && Mid2D(p, p) == p
  {
  }
}
