/** The player's orientation vectors world_up and world_direction. In the source they are
    Vector3 values that only ever hold one of the six unit axis vectors, so an orientation
    vector is modelled as an axis (a coordinate and a sign); Vector3.Cross and Vector3.Dot on
    such vectors are written on axes and related to the usual formulas by
    CrossIsVectorProduct and DotIsScalarProduct. */
module Axes {
  import U = Utils

  datatype Dim = X | Y | Z

  /** A unit axis vector: +1 or -1 along one coordinate. */
  datatype Axis = Axis(dim: Dim, positive: bool)

  datatype IVec = IVec(x: int, y: int, z: int)

  function ToIVec(a: Axis): IVec {
    var s := if a.positive then 1 else -1;
    match a.dim
    case X => IVec(s, 0, 0)
    case Y => IVec(0, s, 0)
    case Z => IVec(0, 0, s)
  }

  function ToVec3(a: Axis): U.Vec3 {
    var v := ToIVec(a);
    U.Vec3(v.x as real, v.y as real, v.z as real)
  }

  function Neg(a: Axis): Axis { a.(positive := !a.positive) }

  /** up and dir are at right angles: the invariant the player keeps between them. */
  predicate Orthogonal(a: Axis, b: Axis) { a.dim != b.dim }

  function Third(i: Dim, j: Dim): Dim
    requires i != j
  {
    if i != X && j != X then X else if i != Y && j != Y then Y else Z
  }

  /** (i, j, Third) is an even permutation of (X, Y, Z). */
  predicate Cyclic(i: Dim, j: Dim) {
    (i == X && j == Y) || (i == Y && j == Z) || (i == Z && j == X)
  }

  /** Vector3.Cross(a, b) for perpendicular axes: the right-handed third axis. */
  function Cross(a: Axis, b: Axis): Axis
    requires Orthogonal(a, b)
  {
    Axis(Third(a.dim, b.dim), (a.positive == b.positive) == Cyclic(a.dim, b.dim))
  }

  /** Vector3.Dot(a, b) of two axes. */
  function Dot(a: Axis, b: Axis): int {
    if a.dim != b.dim then 0 else if a.positive == b.positive then 1 else -1
  }

  lemma CrossIsVectorProduct(a: Axis, b: Axis)
    requires Orthogonal(a, b)
    ensures var u, v := ToIVec(a), ToIVec(b);
      ToIVec(Cross(a, b)) == IVec(u.y * v.z - u.z * v.y, u.z * v.x - u.x * v.z, u.x * v.y - u.y * v.x)
  {
  }

  lemma DotIsScalarProduct(a: Axis, b: Axis)
    ensures var u, v := ToIVec(a), ToIVec(b);
      Dot(a, b) == u.x * v.x + u.y * v.y + u.z * v.z
  {
  }

  /** The cross product of perpendicular axes is perpendicular to both, and swapping the
      operands negates it. */
  lemma CrossOfOrthogonal(up: Axis, dir: Axis)
    requires Orthogonal(up, dir)
    ensures Orthogonal(up, Cross(up, dir)) && Orthogonal(dir, Cross(up, dir))
    ensures Cross(dir, up) == Neg(Cross(up, dir))
  {
  }

  /** Dot of two axes is ±1 exactly when they are parallel, and 1 exactly when equal. */
  lemma DotOfAxes(a: Axis, b: Axis)
    ensures (Dot(a, b) == 1 || Dot(a, b) == -1) <==> (b == a || b == Neg(a))
    ensures Dot(a, b) == 1 <==> b == a
    ensures Dot(a, b) == 0 <==> Orthogonal(a, b)
  {
  }

  /** With a perpendicular pair, -up, dir, dir×up, up×dir, -dir and up are the six axes,
      each once. */
  lemma SixDirections(up: Axis, dir: Axis)
    requires Orthogonal(up, dir)
    ensures var c := [Neg(up), dir, Cross(dir, up), Cross(up, dir), Neg(dir), up];
      && (forall i, j :: 0 <= i < j < 6 ==> c[i] != c[j])
      && (forall a: Axis :: a in c)
  {
    var c := [Neg(up), dir, Cross(dir, up), Cross(up, dir), Neg(dir), up];
    forall a: Axis ensures a in c {
      if a.dim == up.dim {
        assert a == up || a == Neg(up);
      } else if a.dim == dir.dim {
        assert a == dir || a == Neg(dir);
      } else {
        assert a == Cross(up, dir) || a == Cross(dir, up);
      }
    }
  }
}
