/** The engine-independent helpers of Scripts/Utils.cs: axis-selective rounding of a Vector3,
    axis-priority component access, the grid snap of the player position and the scalar
    progress of the quadratic ease-in (MyInterps.QuadEaseIn). Vector3 is a triple of reals. */
module Utils {

  datatype Vec3 = Vec3(x: real, y: real, z: real)

  function Add(a: Vec3, b: Vec3): Vec3 { Vec3(a.x + b.x, a.y + b.y, a.z + b.z) }

  function Sub(a: Vec3, b: Vec3): Vec3 { Vec3(a.x - b.x, a.y - b.y, a.z - b.z) }

  function Scale(k: real, a: Vec3): Vec3 { Vec3(k * a.x, k * a.y, k * a.z) }

  /** Mathf.Abs on a float. */
  function Abs(r: real): real { if r < 0.0 then -r else r }

  /** Squared Euclidean length; the length itself is a square root the engine computes. */
  function SqLen(a: Vec3): real { a.x * a.x + a.y * a.y + a.z * a.z }

  const One := Vec3(1.0, 1.0, 1.0)

  predicate IsIntegral(r: real) { r.Floor as real == r }

  /** Mathf.RoundToInt: C#'s Math.Round, the nearest integer with halves sent to the even one. */
  function RoundToInt(r: real): (n: int)
    ensures -0.5 <= n as real - r <= 0.5
    ensures (n as real - r == 0.5 || r - n as real == 0.5) ==> n % 2 == 0
    ensures IsIntegral(r) ==> n as real == r
  {
    var f := r.Floor;
    var d := r - f as real;
    if d < 0.5 then f
    else if d > 0.5 then f + 1
    else if f % 2 == 0 then f else f + 1
  }

  /** Mathf.FloorToInt. */
  function FloorToInt(r: real): (n: int)
    ensures n as real <= r < n as real + 1.0
  {
    r.Floor
  }

  /** A component of Vector3Int.RoundToInt(axis) is non-zero: that component is selected. */
  predicate Selects(a: real) { RoundToInt(a) != 0 }

  /** What Round does to one component: a selected component becomes the nearest integer. */
  predicate RoundedOrKept(a: real, v: real, w: real) {
    if Selects(a) then IsIntegral(w) && -0.5 <= w - v <= 0.5 else w == v
  }

  /** What Floor does to one component: a selected component becomes the integer part. */
  predicate FlooredOrKept(a: real, v: real, w: real) {
    if Selects(a) then IsIntegral(w) && w <= v < w + 1.0 else w == v
  }

  /** ExtensionMethods.Round(vec, axis). */
  function Round(vec: Vec3, axis: Vec3): (r: Vec3)
    ensures RoundedOrKept(axis.x, vec.x, r.x)
    ensures RoundedOrKept(axis.y, vec.y, r.y)
    ensures RoundedOrKept(axis.z, vec.z, r.z)
  {
    Vec3(if Selects(axis.x) then RoundToInt(vec.x) as real else vec.x,
         if Selects(axis.y) then RoundToInt(vec.y) as real else vec.y,
         if Selects(axis.z) then RoundToInt(vec.z) as real else vec.z)
  }

  /** Rounding twice along the same axis changes nothing more. */
  lemma RoundIdempotent(vec: Vec3, axis: Vec3)
    ensures Round(Round(vec, axis), axis) == Round(vec, axis)
  {
  }

  /** ExtensionMethods.Floor(vec, axis); the source takes vec by reference but only reads it. */
  function Floor(vec: Vec3, axis: Vec3): (r: Vec3)
    ensures FlooredOrKept(axis.x, vec.x, r.x)
    ensures FlooredOrKept(axis.y, vec.y, r.y)
    ensures FlooredOrKept(axis.z, vec.z, r.z)
  {
    Vec3(if Selects(axis.x) then FloorToInt(vec.x) as real else vec.x,
         if Selects(axis.y) then FloorToInt(vec.y) as real else vec.y,
         if Selects(axis.z) then FloorToInt(vec.z) as real else vec.z)
  }

  /** ExtensionMethods.L1Norm: the plain sum of the components; on a unit axis it is that
      axis's sign. */
  function L1Norm(vec: Vec3): (r: real)
    ensures UnitAxis(vec) ==> r == 1.0 || r == -1.0
    ensures UnitAxis(vec) ==> (r == 1.0 <==> vec in {Vec3(1.0, 0.0, 0.0), Vec3(0.0, 1.0, 0.0), Vec3(0.0, 0.0, 1.0)})
  {
    vec.x + vec.y + vec.z
  }

  /** L1Norm is linear and signed, so it is not the L1 norm its name suggests. */
  lemma L1NormIsSignedSum(a: Vec3, b: Vec3, k: real)
    ensures L1Norm(Add(a, b)) == L1Norm(a) + L1Norm(b)
    ensures L1Norm(Scale(k, a)) == k * L1Norm(a)
    ensures L1Norm(Vec3(-1.0, 0.0, 0.0)) < 0.0
    ensures L1Norm(Vec3(1.0, -1.0, 0.0)) == 0.0
  {
  }

  datatype Component = X | Y | Z

  /** The component that getComponent and setComponent act on: x, else y, else z. */
  function Picked(axis: Vec3): (c: Component)
    ensures c == X <==> Selects(axis.x)
    ensures c == Y <==> !Selects(axis.x) && Selects(axis.y)
    ensures c == Z <==> !Selects(axis.x) && !Selects(axis.y)
  {
    if Selects(axis.x) then X else if Selects(axis.y) then Y else Z
  }

  function Get(v: Vec3, c: Component): real {
    match c
    case X => v.x
    case Y => v.y
    case Z => v.z
  }

  /** ExtensionMethods.getComponent. */
  function GetComponent(vec: Vec3, axis: Vec3): (r: real)
    ensures r == Get(vec, Picked(axis))
    ensures Selects(axis.x) ==> r == vec.x
    ensures !Selects(axis.x) && !Selects(axis.y) ==> r == vec.z
  {
    if Selects(axis.x) then vec.x else if Selects(axis.y) then vec.y else vec.z
  }

  /** ExtensionMethods.setComponent: writes value into the picked component of the vector
      passed by reference and returns the updated vector. */
  method SetComponent(vec: Vec3, component: Vec3, value: real) returns (r: Vec3)
    ensures Get(r, Picked(component)) == value
    ensures forall c :: c != Picked(component) ==> Get(r, c) == Get(vec, c)
  {
    r := vec;
    if Selects(component.x) {
      r := r.(x := value);
    } else if Selects(component.y) {
      r := r.(y := value);
    } else {
      r := r.(z := value);
    }
  }

  /** Reading back the component just written gives the written value. */
  lemma GetAfterSet(vec: Vec3, axis: Vec3, value: real, r: Vec3)
    requires Get(r, Picked(axis)) == value
    requires forall c :: c != Picked(axis) ==> Get(r, c) == Get(vec, c)
    ensures GetComponent(r, axis) == value
  {
  }

  /** ExtensionMethods.SnapToGridUp: rounds the up component and moves the point down by
      boxSize/2 - sphereRadius along up. */
  function SnapToGridUp(vec: Vec3, up: Vec3, boxSize: real, sphereRadius: real): (r: Vec3)
    ensures !Selects(up.x) && up.x == 0.0 ==> r.x == vec.x
    ensures !Selects(up.y) && up.y == 0.0 ==> r.y == vec.y
    ensures !Selects(up.z) && up.z == 0.0 ==> r.z == vec.z
  {
    Sub(Round(vec, up), Scale(boxSize * 0.5 - sphereRadius, up))
  }

  /** ExtensionMethods.SnapToGridAll: rounds every component first, so each component,
      moved back by boxSize/2 - sphereRadius along up, lies within half a unit of the
      original. */
  function SnapToGridAll(vec: Vec3, up: Vec3, boxSize: real, sphereRadius: real): (r: Vec3)
    ensures var h := boxSize * 0.5 - sphereRadius;
      && -0.5 <= r.x + h * up.x - vec.x <= 0.5
      && -0.5 <= r.y + h * up.y - vec.y <= 0.5
      && -0.5 <= r.z + h * up.z - vec.z <= 0.5
  {
    assert RoundToInt(1.0) == 1;
    Sub(Round(vec, One), Scale(boxSize * 0.5 - sphereRadius, up))
  }

  /** Along up = +y the snapped point rests sphereRadius above the face plane at an integer
      height minus boxSize/2, and the other two components are untouched. */
  lemma SnapToGridUpOnYAxis(vec: Vec3, boxSize: real, sphereRadius: real)
    ensures var r := SnapToGridUp(vec, Vec3(0.0, 1.0, 0.0), boxSize, sphereRadius);
      && r.x == vec.x && r.z == vec.z
      && IsIntegral(r.y + boxSize * 0.5 - sphereRadius)
      && -0.5 <= r.y + boxSize * 0.5 - sphereRadius - vec.y <= 0.5
  {
  }

  /** up is one of the six unit axis vectors. */
  predicate UnitAxis(up: Vec3) {
    || up == Vec3(1.0, 0.0, 0.0) || up == Vec3(-1.0, 0.0, 0.0)
    || up == Vec3(0.0, 1.0, 0.0) || up == Vec3(0.0, -1.0, 0.0)
    || up == Vec3(0.0, 0.0, 1.0) || up == Vec3(0.0, 0.0, -1.0)
  }

  /** Along any of the six axes the up component of the snapped point, moved back by
      boxSize/2 - sphereRadius along up, is the integer nearest the original up component;
      the two other components are untouched. */
  lemma SnapToGridUpOnAxis(vec: Vec3, up: Vec3, boxSize: real, sphereRadius: real)
    requires UnitAxis(up)
    ensures var r := SnapToGridUp(vec, up, boxSize, sphereRadius);
      var h := boxSize * 0.5 - sphereRadius;
      var c := Picked(up);
      && (forall d :: d != c ==> Get(r, d) == Get(vec, d))
      && Get(r, c) + h * Get(up, c) == RoundToInt(Get(vec, c)) as real
      && -0.5 <= Get(r, c) + h * Get(up, c) - Get(vec, c) <= 0.5
  {
    assert RoundToInt(1.0) == 1 && RoundToInt(-1.0) == -1 && RoundToInt(0.0) == 0;
    if up.x != 0.0 {
      assert Picked(up) == X;
    } else if up.y != 0.0 {
      assert Picked(up) == Y;
    } else {
      assert Picked(up) == Z;
      var r := SnapToGridUp(vec, up, boxSize, sphereRadius);
      var h := boxSize * 0.5 - sphereRadius;
      assert r.x == vec.x && r.y == vec.y;
      assert r.z + h * up.z == RoundToInt(vec.z) as real;
      assert -0.5 <= r.z + h * up.z - vec.z <= 0.5;
    }
  }

  /** Every component of p, moved back by h along up, is an integer. */
  predicate OnShiftedLattice(p: Vec3, up: Vec3, h: real) {
    IsIntegral(p.x + h * up.x) && IsIntegral(p.y + h * up.y) && IsIntegral(p.z + h * up.z)
  }

  lemma IntegralOfInt(n: int)
    ensures IsIntegral(n as real)
  {
  }

  lemma IntegralAdd(a: real, b: real)
    requires IsIntegral(a) && IsIntegral(b)
    ensures IsIntegral(a + b)
  {
    IntegralOfInt(a.Floor + b.Floor);
  }

  /** SnapToGridAll puts the point on the integer lattice shifted by boxSize/2 - sphereRadius
      along up. */
  lemma SnapToGridAllOnLattice(vec: Vec3, up: Vec3, boxSize: real, sphereRadius: real)
    ensures OnShiftedLattice(SnapToGridAll(vec, up, boxSize, sphereRadius), up, boxSize * 0.5 - sphereRadius)
  {
    assert RoundToInt(1.0) == 1;
    var h := boxSize * 0.5 - sphereRadius;
    var s := SnapToGridAll(vec, up, boxSize, sphereRadius);
    assert s.x + h * up.x == RoundToInt(vec.x) as real;
    assert s.y + h * up.y == RoundToInt(vec.y) as real;
    assert s.z + h * up.z == RoundToInt(vec.z) as real;
    IntegralOfInt(RoundToInt(vec.x));
    IntegralOfInt(RoundToInt(vec.y));
    IntegralOfInt(RoundToInt(vec.z));
  }

  // ---------------------------------------------------------------------------------------
  // QuadEaseIn: the scalar distance covered after t seconds.

  /** The uncapped progress: quadratic for the first easeIn/2 seconds, linear at speed after. */
  function EaseInProgress(t: real, easeIn: real, speed: real): real {
    if t <= easeIn * 0.5 && easeIn > 0.0 then speed * t * t / easeIn
    else speed * (t - easeIn * 0.25)
  }

  /** The scalar part of MyInterps.QuadEaseIn: the progress t_ capped at the distance mag,
      and the out flag done. */
  function QuadEaseIn(t: real, easeIn: real, speed: real, mag: real): (r: (real, bool))
    ensures r.0 <= mag
    ensures r.1 <==> r.0 == mag
    ensures r.1 <==> EaseInProgress(t, easeIn, speed) >= mag
    ensures !r.1 ==> r.0 == EaseInProgress(t, easeIn, speed)
  {
    var p := EaseInProgress(t, easeIn, speed);
    var capped := if p <= mag then p else mag;
    (capped, capped == mag)
  }

  /** The point QuadEaseIn returns: start plus the normalised direction times the progress.
      mag is the length of target - start, given by its square; a zero direction stays put. */
  function EasePosition(start: Vec3, target: Vec3, mag: real, progress: real): (r: Vec3)
    requires mag >= 0.0 && mag * mag == SqLen(Sub(target, start))
    ensures progress == mag && mag > 0.0 ==> r == target
    ensures mag == 0.0 ==> r == start
  {
    if mag == 0.0 then
      start
    else
      DivSelf(mag);
      Add(start, Scale(progress / mag, Sub(target, start)))
  }

  lemma SquareNonneg(x: real)
    ensures x * x >= 0.0
  {
  }

  lemma DivSelf(m: real)
    requires m != 0.0
    ensures m / m == 1.0
  {
  }

  /** The two pieces meet at t = easeIn/2 with value speed·easeIn/4, and the quadratic piece
      stays above the linear one by exactly speed·h²/easeIn at t = easeIn/2 + h: the linear
      piece is its tangent there, so the slopes agree (both are speed). */
  lemma EaseInJunction(easeIn: real, speed: real, h: real)
    requires easeIn > 0.0
    ensures EaseInProgress(easeIn * 0.5, easeIn, speed) == speed * easeIn * 0.25
    ensures speed * (easeIn * 0.5 - easeIn * 0.25) == speed * easeIn * 0.25
    ensures var t := easeIn * 0.5 + h;
      speed * t * t / easeIn - speed * (t - easeIn * 0.25) == speed * h * h / easeIn
  {
    var t := easeIn * 0.5 + h;
    assert t * t == easeIn * easeIn * 0.25 + easeIn * h + h * h;
    calc {
      speed * t * t / easeIn;
      speed * (t * t) / easeIn;
      speed * (easeIn * easeIn * 0.25 + easeIn * h + h * h) / easeIn;
      speed * (easeIn * 0.25) + speed * h + speed * h * h / easeIn;
    }
  }

  /** On the quadratic piece the distance covered between t1 and t2 is at most speed·(t2-t1). */
  lemma QuadPieceBound(t1: real, t2: real, easeIn: real, speed: real)
    requires 0.0 <= t1 <= t2 <= easeIn * 0.5 && easeIn > 0.0 && speed >= 0.0
    ensures 0.0 <= speed * t2 * t2 / easeIn - speed * t1 * t1 / easeIn <= speed * (t2 - t1)
  {
    var d := t2 - t1;
    var s := t2 + t1;
    assert t2 * t2 - t1 * t1 == d * s;
    assert 0.0 <= s <= easeIn;
    assert 0.0 <= d * s <= d * easeIn by {
      assert d >= 0.0;
    }
    calc {
      speed * t2 * t2 / easeIn - speed * t1 * t1 / easeIn;
      speed * (t2 * t2 - t1 * t1) / easeIn;
      speed * (d * s) / easeIn;
    }
    assert speed * (d * s) <= speed * (d * easeIn);
    assert speed * (d * easeIn) / easeIn == speed * d;
  }

  /** Below the junction the quadratic piece never exceeds its tangent line. */
  lemma QuadBelowTangent(t: real, easeIn: real, speed: real)
    requires easeIn > 0.0 && speed >= 0.0
    ensures speed * t * t / easeIn >= speed * (t - easeIn * 0.25)
  {
    var h := t - easeIn * 0.5;
    EaseInJunction(easeIn, speed, h);
    SquareNonneg(h);
    assert speed * (h * h) >= 0.0;
    assert speed * h * h / easeIn >= 0.0;
  }

  /** On the linear piece the distance covered between t1 and t2 is exactly speed·(t2-t1). */
  lemma LinearPieceStep(t1: real, t2: real, easeIn: real, speed: real)
    requires t1 <= t2 && speed >= 0.0
    ensures var d := speed * (t2 - easeIn * 0.25) - speed * (t1 - easeIn * 0.25);
      d == speed * (t2 - t1) && d >= 0.0
  {
    assert t2 - t1 >= 0.0;
  }

  /** From the quadratic piece across the junction onto the linear piece. */
  lemma AcrossJunction(t1: real, t2: real, easeIn: real, speed: real)
    requires 0.0 <= t1 <= easeIn * 0.5 < t2 && easeIn > 0.0 && speed >= 0.0
    ensures speed * t1 * t1 / easeIn <= speed * (t2 - easeIn * 0.25)
    ensures speed * (t2 - easeIn * 0.25) - speed * t1 * t1 / easeIn <= speed * (t2 - t1)
  {
    var half := easeIn * 0.5;
    QuadPieceBound(t1, half, easeIn, speed);
    EaseInJunction(easeIn, speed, 0.0);
    assert speed * half * half / easeIn == speed * easeIn * 0.25;
    assert speed * (half - easeIn * 0.25) == speed * easeIn * 0.25;
    LinearPieceStep(half, t2, easeIn, speed);
    QuadBelowTangent(t1, easeIn, speed);
    LinearPieceStep(t1, t2, easeIn, speed);
  }

  /** The doc comment's promise: for t ≥ 0 the progress never decreases and never grows
      faster than speed. */
  lemma {:induction false} EaseInMonotoneAndBounded(t1: real, t2: real, easeIn: real, speed: real)
    requires 0.0 <= t1 <= t2 && easeIn >= 0.0 && speed >= 0.0
    ensures EaseInProgress(t1, easeIn, speed) <= EaseInProgress(t2, easeIn, speed)
    ensures EaseInProgress(t2, easeIn, speed) - EaseInProgress(t1, easeIn, speed) <= speed * (t2 - t1)
  {
    if easeIn > 0.0 && t2 <= easeIn * 0.5 {
      QuadPieceBound(t1, t2, easeIn, speed);
    } else if easeIn > 0.0 && t1 <= easeIn * 0.5 {
      AcrossJunction(t1, t2, easeIn, speed);
    } else {
      LinearPieceStep(t1, t2, easeIn, speed);
    }
  }

  /** Capping at the distance keeps both properties, and the capped progress never overshoots. */
  lemma QuadEaseInMonotoneAndBounded(t1: real, t2: real, easeIn: real, speed: real, mag: real)
    requires 0.0 <= t1 <= t2 && easeIn >= 0.0 && speed >= 0.0
    ensures QuadEaseIn(t1, easeIn, speed, mag).0 <= QuadEaseIn(t2, easeIn, speed, mag).0 <= mag
    ensures QuadEaseIn(t2, easeIn, speed, mag).0 - QuadEaseIn(t1, easeIn, speed, mag).0 <= speed * (t2 - t1)
    ensures QuadEaseIn(t1, easeIn, speed, mag).1 ==> QuadEaseIn(t2, easeIn, speed, mag).1
  {
    EaseInMonotoneAndBounded(t1, t2, easeIn, speed);
  }
}
