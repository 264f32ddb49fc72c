/** removeInsideFaces of _Scripts/Common/MeshCombiner.cs: the index list of a combined cube
    mesh is cut into triangles; every corner of a triangle that faces into a neighbouring
    cube is marked, the marked indices are removed from the index list, the marked vertices
    (with their normals and uvs) are removed from highest to lowest, and the surviving
    indices are renumbered so that each still names its vertex.

    Whether a triangle faces into a cube is a floating-point test on its midpoint and normal;
    here it is the input `inside`, one flag per triangle. */
module MeshCombiner {
  import opened Seqs
  import U = Utils

  datatype Tri = Tri(x: int, y: int, z: int)   // Vector3Int

  datatype UV = UV(u: real, v: real)            // Vector2

  datatype Mesh = Mesh(vertices: seq<U.Vec3>, normals: seq<U.Vec3>, uvs: seq<UV>, triangles: seq<int>)

  /** What the method reads from the mesh without throwing: whole triangles, indices that
      name vertices, one normal and one uv per vertex, and at least one cube to average. */
  predicate WellFormed(m: Mesh, coordCount: nat) {
    && |m.triangles| % 3 == 0
    && (forall v :: v in m.triangles ==> 0 <= v < |m.vertices|)
    && |m.normals| == |m.vertices| && |m.uvs| == |m.vertices|
    && coordCount > 0
  }

  // ---------------------------------------------------------------------------------------
  // Cutting the index list into triangles

  /** Corner c of triangle t once the first i indices have been copied; Vector3Int starts at
      zero. */
  function CornerSoFar(idx: seq<int>, t: nat, c: nat, i: nat): int
    requires c < 3 && i <= |idx|
  {
    if 3 * t + c < i then idx[3 * t + c] else 0
  }

  function TriSoFar(idx: seq<int>, t: nat, i: nat): Tri
    requires i <= |idx|
  {
    Tri(CornerSoFar(idx, t, 0, i), CornerSoFar(idx, t, 1, i), CornerSoFar(idx, t, 2, i))
  }

  function SetCorner(t: Tri, c: nat, v: int): (r: Tri)
    requires c < 3
    ensures c == 0 ==> r == t.(x := v)
    ensures c == 1 ==> r == t.(y := v)
    ensures c == 2 ==> r == t.(z := v)
  {
    if c == 0 then t.(x := v) else if c == 1 then t.(y := v) else t.(z := v)
  }

  /** Triangle t of the index list. */
  function TriangleAt(idx: seq<int>, t: nat): Tri
    requires 3 * t + 2 < |idx|
  {
    Tri(idx[3 * t], idx[3 * t + 1], idx[3 * t + 2])
  }

  /** Lines 33-37: index i goes to corner i%3 of triangle i/3. */
  method ExtractTriangles(idx: seq<int>) returns (triangles: array<Tri>)
    requires |idx| % 3 == 0
    ensures fresh(triangles)
    ensures triangles.Length == |idx| / 3
    ensures forall t :: 0 <= t < triangles.Length ==> triangles[t] == TriangleAt(idx, t)
  {
    triangles := new Tri[|idx| / 3](_ => Tri(0, 0, 0));
    for i := 0 to |idx|
      invariant forall t :: 0 <= t < triangles.Length ==> triangles[t] == TriSoFar(idx, t, i)
    {
      var t, c := i / 3, i % 3;
      assert i == 3 * t + c;
      triangles[t] := SetCorner(triangles[t], c, idx[i]);
    }
  }

  // ---------------------------------------------------------------------------------------
  // Collecting the vertices to delete

  /** The corners of the flagged triangles among the first n, in order. */
  function FlaggedCorners(tris: seq<Tri>, inside: seq<bool>, n: nat): seq<int>
    requires n <= |tris| && |inside| == |tris|
  {
    if n == 0 then []
    else
      FlaggedCorners(tris, inside, n - 1)
      + (if inside[n - 1] then [tris[n - 1].x, tris[n - 1].y, tris[n - 1].z] else [])
  }

  predicate IsCorner(v: int, t: Tri) {
    v == t.x || v == t.y || v == t.z
  }

  lemma {:induction false} FlaggedCornersAreCorners(tris: seq<Tri>, inside: seq<bool>, n: nat)
    requires n <= |tris| && |inside| == |tris|
    ensures forall v :: v in FlaggedCorners(tris, inside, n) <==>
      exists t :: 0 <= t < n && inside[t] && IsCorner(v, tris[t])
  {
    if n > 0 {
      FlaggedCornersAreCorners(tris, inside, n - 1);
    }
  }

  /** Lines 42-51: each flagged triangle appends its three corners. */
  method CollectFlagged(tris: seq<Tri>, inside: seq<bool>) returns (vertToDelete: seq<int>)
    requires |inside| == |tris|
    ensures vertToDelete == FlaggedCorners(tris, inside, |tris|)
  {
    vertToDelete := [];
    for t := 0 to |tris|
      invariant vertToDelete == FlaggedCorners(tris, inside, t)
    {
      if inside[t] {
        vertToDelete := vertToDelete + [tris[t].x, tris[t].y, tris[t].z];
      }
    }
  }

  /** Enumerable.Distinct: the first occurrence of each element, in order. */
  function Dedup(s: seq<int>): (r: seq<int>)
    ensures Distinct(r) && forall v :: v in r <==> v in s
  {
    if |s| == 0 then []
    else
      var prefix := Dedup(s[..|s| - 1]);
      assert forall v :: v in s <==> v in s[..|s| - 1] || v == s[|s| - 1] by {
        assert s == s[..|s| - 1] + [s[|s| - 1]];
      }
      if s[|s| - 1] in prefix then prefix else prefix + [s[|s| - 1]]
  }

  // ---------------------------------------------------------------------------------------
  // Removing indices from the index list

  /** The elements of s that are not in D, in order (List.RemoveAll). */
  function Filter(s: seq<int>, D: set<int>): (r: seq<int>)
    ensures |r| <= |s|
    ensures forall v :: v in r <==> v in s && v !in D
  {
    if |s| == 0 then []
    else (if s[0] in D then [] else [s[0]]) + Filter(s[1..], D)
  }

  lemma {:induction false} FilterTwice(s: seq<int>, D: set<int>, v: int)
    ensures Filter(Filter(s, D), {v}) == Filter(s, D + {v})
  {
    if |s| > 0 {
      FilterTwice(s[1..], D, v);
      assert Filter(s, D + {v}) == (if s[0] in D + {v} then [] else [s[0]]) + Filter(s[1..], D + {v});
      if s[0] !in D {
        var f := [s[0]] + Filter(s[1..], D);
        assert Filter(s, D) == f;
        assert f[0] == s[0] && f[1..] == Filter(s[1..], D);
        assert Filter(f, {v}) == (if s[0] in {v} then [] else [s[0]]) + Filter(f[1..], {v});
      } else {
        assert Filter(s, D) == Filter(s[1..], D);
      }
    }
  }

  function Elems(s: seq<int>): set<int> {
    set v | v in s
  }

  /** Line 55: every index in vertToDelete is removed from the index list, one after the
      other. */
  method RemoveDeletedIndices(triagIdx: seq<int>, vertToDelete: seq<int>) returns (r: seq<int>)
    ensures r == Filter(triagIdx, Elems(vertToDelete))
  {
    r := triagIdx;
    assert Filter(triagIdx, {}) == triagIdx by { FilterNothing(triagIdx); }
    assert vertToDelete[..0] == [] && Elems([]) == {};
    for k := 0 to |vertToDelete|
      invariant r == Filter(triagIdx, Elems(vertToDelete[..k]))
    {
      FilterTwice(triagIdx, Elems(vertToDelete[..k]), vertToDelete[k]);
      assert Elems(vertToDelete[..k + 1]) == Elems(vertToDelete[..k]) + {vertToDelete[k]} by {
        assert vertToDelete[..k + 1] == vertToDelete[..k] + [vertToDelete[k]];
      }
      r := Filter(r, {vertToDelete[k]});
    }
    assert vertToDelete[..|vertToDelete|] == vertToDelete;
  }

  lemma {:induction false} FilterNothing(s: seq<int>)
    ensures Filter(s, {}) == s
  {
    if |s| > 0 {
      FilterNothing(s[1..]);
      assert s == [s[0]] + s[1..];
    }
  }

  // ---------------------------------------------------------------------------------------
  // Sorting the deleted indices from highest to lowest (OrderByDescending)

  predicate StrictlyDescending(s: seq<int>) {
    forall i, j :: 0 <= i < j < |s| ==> s[i] > s[j]
  }

  function InsertDescending(x: int, s: seq<int>): (r: seq<int>)
    requires StrictlyDescending(s) && x !in s
    ensures StrictlyDescending(r) && |r| == |s| + 1
    ensures forall v :: v in r <==> v == x || v in s
  {
    if |s| == 0 || x > s[0] then [x] + s
    else
      assert forall v :: v in s <==> v == s[0] || v in s[1..] by {
        assert s == [s[0]] + s[1..];
      }
      assert StrictlyDescending(s[1..]) by {
        forall i, j | 0 <= i < j < |s[1..]| ensures s[1..][i] > s[1..][j] {
          assert s[1..][i] == s[i + 1] && s[1..][j] == s[j + 1];
        }
      }
      var rest := InsertDescending(x, s[1..]);
      assert forall k :: 0 <= k < |rest| ==> s[0] > rest[k] by {
        forall k | 0 <= k < |rest| ensures s[0] > rest[k] {
          assert rest[k] in rest;
          if rest[k] != x {
            var j :| 0 <= j < |s[1..]| && s[1..][j] == rest[k];
            assert s[j + 1] == rest[k];
          }
        }
      }
      var r := [s[0]] + rest;
      assert StrictlyDescending(r) by {
        forall i, j | 0 <= i < j < |r| ensures r[i] > r[j] {
          if i == 0 { assert r[j] == rest[j - 1]; }
          else { assert r[i] == rest[i - 1] && r[j] == rest[j - 1]; }
        }
      }
      r
  }

  function SortDescending(s: seq<int>): (r: seq<int>)
    requires Distinct(s)
    ensures StrictlyDescending(r) && |r| == |s|
    ensures forall v :: v in r <==> v in s
  {
    if |s| == 0 then []
    else
      DistinctTail(s);
      assert forall v :: v in s <==> v == s[0] || v in s[1..] by {
        assert s == [s[0]] + s[1..];
      }
      InsertDescending(s[0], SortDescending(s[1..]))
  }

  // ---------------------------------------------------------------------------------------
  // Deleting vertices by position

  /** How many of the positions below w are in D. */
  function Dropped(D: set<int>, w: nat): (n: nat)
    ensures n <= w
  {
    if w == 0 then 0 else Dropped(D, w - 1) + (if w - 1 in D then 1 else 0)
  }

  /** The elements of s[..n] whose position is not in D, in order. */
  function KeepPrefix<T>(s: seq<T>, D: set<int>, n: nat): (r: seq<T>)
    requires n <= |s|
    ensures |r| == n - Dropped(D, n)
  {
    if n == 0 then []
    else KeepPrefix(s, D, n - 1) + (if n - 1 in D then [] else [s[n - 1]])
  }

  /** The elements of s whose position is not in D, in order. */
  function Keep<T>(s: seq<T>, D: set<int>): seq<T> {
    KeepPrefix(s, D, |s|)
  }

  /** A surviving element moves down by the number of deleted positions below it. */
  lemma {:induction false} KeepPrefixAt<T>(s: seq<T>, D: set<int>, n: nat, w: nat)
    requires n <= |s| && w < n && w !in D
    ensures w - Dropped(D, w) < |KeepPrefix(s, D, n)|
    ensures KeepPrefix(s, D, n)[w - Dropped(D, w)] == s[w]
  {
    if w < n - 1 {
      KeepPrefixAt(s, D, n - 1, w);
      DroppedMonotone(D, w + 1, n - 1);
    }
  }

  lemma {:induction false} DroppedMonotone(D: set<int>, m: nat, w: nat)
    requires m <= w
    ensures Dropped(D, m) <= Dropped(D, w) && Dropped(D, w) - Dropped(D, m) <= w - m
    decreases w
  {
    if m < w {
      DroppedMonotone(D, m, w - 1);
    }
  }

  lemma {:induction false} DroppedNone(D: set<int>, w: nat)
    requires forall d :: d in D ==> d >= w
    ensures Dropped(D, w) == 0
  {
    if w > 0 {
      DroppedNone(D, w - 1);
    }
  }

  lemma {:induction false} DroppedAdd(D: set<int>, v: nat, w: nat)
    requires v !in D
    ensures Dropped(D + {v}, w) == Dropped(D, w) + (if v < w then 1 else 0)
  {
    if w > 0 {
      DroppedAdd(D, v, w - 1);
      assert Dropped(D + {v}, w) == Dropped(D + {v}, w - 1) + (if w - 1 in D + {v} then 1 else 0);
      assert Dropped(D, w) == Dropped(D, w - 1) + (if w - 1 in D then 1 else 0);
      if w - 1 == v {
        assert w - 1 !in D;
      } else {
        assert (v < w - 1) == (v < w);
      }
    }
  }

  lemma {:induction false} KeepPrefixUntouched<T>(s: seq<T>, D: set<int>, n: nat)
    requires n <= |s| && forall d :: d in D ==> d >= n
    ensures KeepPrefix(s, D, n) == s[..n]
  {
    if n > 0 {
      KeepPrefixUntouched(s, D, n - 1);
      assert s[..n] == s[..n - 1] + [s[n - 1]];
    }
  }

  /** With every position in D above i, the kept prefix up to any m > i starts with s[..i+1],
      and deleting i as well drops exactly that element. */
  lemma {:induction false} KeepPrefixRemove<T>(s: seq<T>, D: set<int>, i: nat, m: nat)
    requires i < m <= |s| && i !in D && forall d :: d in D ==> d > i
    ensures |KeepPrefix(s, D, m)| > i
    ensures KeepPrefix(s, D, m)[..i + 1] == s[..i + 1]
    ensures KeepPrefix(s, D + {i}, m) == s[..i] + KeepPrefix(s, D, m)[i + 1..]
  {
    if m == i + 1 {
      KeepPrefixUntouched(s, D, m);
      KeepPrefixUntouched(s, D + {i}, i);
    } else {
      KeepPrefixRemove(s, D, i, m - 1);
      var e: seq<T> := if m - 1 in D then [] else [s[m - 1]];
      assert KeepPrefix(s, D, m) == KeepPrefix(s, D, m - 1) + e;
      assert KeepPrefix(s, D + {i}, m) == KeepPrefix(s, D + {i}, m - 1) + e;
      assert KeepPrefix(s, D, m)[i + 1..] == KeepPrefix(s, D, m - 1)[i + 1..] + e;
    }
  }

  /** List.RemoveAt(i) after the larger positions of D are gone removes position i. */
  lemma RemoveAtKeep<T>(s: seq<T>, D: set<int>, i: nat)
    requires i < |s| && i !in D && forall d :: d in D ==> d > i
    ensures i < |Keep(s, D)|
    ensures Keep(s, D)[..i] + Keep(s, D)[i + 1..] == Keep(s, D + {i})
  {
    KeepPrefixRemove(s, D, i, |s|);
    assert Keep(s, D)[..i] == s[..i];
  }

  /** Lines 56-61: positions are removed from highest to lowest, from all three lists. */
  method RemoveVertices(vertices: seq<U.Vec3>, normals: seq<U.Vec3>, uvs: seq<UV>, order: seq<int>)
    returns (vs: seq<U.Vec3>, ns: seq<U.Vec3>, us: seq<UV>)
    requires StrictlyDescending(order)
    requires forall k :: 0 <= k < |order| ==> 0 <= order[k] < |vertices|
    requires |normals| == |vertices| && |uvs| == |vertices|
    ensures vs == Keep(vertices, Elems(order)) && |vs| == |vertices| - |order|
    ensures ns == Keep(normals, Elems(order)) && |ns| == |normals| - |order|
    ensures us == Keep(uvs, Elems(order)) && |us| == |uvs| - |order|
  {
    vs, ns, us := vertices, normals, uvs;
    assert order[..0] == [] && Elems([]) == {};
    KeepPrefixUntouched(vertices, {}, |vertices|);
    KeepPrefixUntouched(normals, {}, |normals|);
    KeepPrefixUntouched(uvs, {}, |uvs|);
    for k := 0 to |order|
      invariant vs == Keep(vertices, Elems(order[..k])) && |vs| == |vertices| - k
      invariant ns == Keep(normals, Elems(order[..k])) && |ns| == |normals| - k
      invariant us == Keep(uvs, Elems(order[..k])) && |us| == |uvs| - k
    {
      var i := order[k];
      ghost var P := Elems(order[..k]);
      assert forall d :: d in P ==> d > i;
      assert Elems(order[..k + 1]) == P + {i} by {
        assert order[..k + 1] == order[..k] + [i];
      }
      RemoveAtKeep(uvs, P, i);
      RemoveAtKeep(normals, P, i);
      RemoveAtKeep(vertices, P, i);
      us := us[..i] + us[i + 1..];
      ns := ns[..i] + ns[i + 1..];
      vs := vs[..i] + vs[i + 1..];
    }
    assert order[..|order|] == order;
  }

  // ---------------------------------------------------------------------------------------
  // Renumbering the surviving indices

  /** Line 66: every index above v moves down by one. */
  function Decrement(s: seq<int>, v: int): (r: seq<int>)
    ensures |r| == |s|
    ensures forall k :: 0 <= k < |s| ==> r[k] == (if s[k] > v then s[k] - 1 else s[k])
  {
    seq(|s|, k requires 0 <= k < |s| => if s[k] > v then s[k] - 1 else s[k])
  }

  /** An index w becomes w minus the number of deleted positions below it. */
  function Renumbered(w: nat, D: set<int>): int {
    w - Dropped(D, w)
  }

  /** Lines 64-66: for each deleted position, from highest to lowest, decrement the indices
      above it. A surviving index ends up counting only the surviving positions below it. */
  method Reindex(triagIdx: seq<int>, order: seq<int>) returns (r: seq<int>)
    requires StrictlyDescending(order) && forall k :: 0 <= k < |order| ==> order[k] >= 0
    requires forall k :: 0 <= k < |triagIdx| ==> triagIdx[k] >= 0 && triagIdx[k] !in order
    ensures |r| == |triagIdx|
    ensures forall k :: 0 <= k < |r| ==> r[k] == Renumbered(triagIdx[k], Elems(order))
  {
    r := triagIdx;
    assert order[..0] == [] && Elems([]) == {};
    forall k | 0 <= k < |r| ensures r[k] == Renumbered(triagIdx[k], {}) {
      DroppedNone({}, triagIdx[k]);
    }
    for j := 0 to |order|
      invariant |r| == |triagIdx|
      invariant forall k :: 0 <= k < |r| ==> r[k] == Renumbered(triagIdx[k], Elems(order[..j]))
    {
      var v := order[j];
      ghost var P := Elems(order[..j]);
      assert Elems(order[..j + 1]) == P + {v} by {
        assert order[..j + 1] == order[..j] + [v];
      }
      forall k | 0 <= k < |r|
        ensures (if r[k] > v then r[k] - 1 else r[k]) == Renumbered(triagIdx[k], P + {v})
      {
        RenumberStep(triagIdx[k], P, v);
      }
      r := Decrement(r, v);
    }
    assert order[..|order|] == order;
  }

  /** Decrementing above v, after the larger deleted positions P, counts v exactly when it
      lies below the surviving index w. */
  lemma RenumberStep(w: nat, P: set<int>, v: nat)
    requires v !in P && w != v && w !in P && forall d :: d in P ==> d > v
    ensures var cur := Renumbered(w, P);
      (if cur > v then cur - 1 else cur) == Renumbered(w, P + {v})
  {
    DroppedAdd(P, v, w);
    if w < v {
      DroppedNone(P, w);
    } else {
      DroppedNone(P, v + 1);
      DroppedMonotone(P, v + 1, w);
    }
  }

  // ---------------------------------------------------------------------------------------
  // The whole operation

  /** The component-wise sum of the positions, accumulated in list order; n copies of one
      position sum to n times it. */
  function Sum(coords: seq<U.Vec3>): (r: U.Vec3)
    ensures |coords| > 0 && (forall k :: 0 <= k < |coords| ==> coords[k] == coords[0]) ==>
      r == U.Scale(|coords| as real, coords[0])
  {
    if |coords| == 1 then coords[0]
    else if |coords| == 0 then U.Vec3(0.0, 0.0, 0.0)
    else U.Add(Sum(coords[..|coords| - 1]), coords[|coords| - 1])
  }

  /** Line 71: the centre of the cubes. */
  function Average(coords: seq<U.Vec3>): (r: U.Vec3)
    requires |coords| > 0
    ensures (forall k :: 0 <= k < |coords| ==> coords[k] == coords[0]) ==> r == coords[0]
  {
    var n := |coords| as real;
    var c := coords[0];
    assert (1.0 / n) * (n * c.x) == c.x && (1.0 / n) * (n * c.y) == c.y && (1.0 / n) * (n * c.z) == c.z;
    U.Scale(1.0 / (|coords| as real), Sum(coords))
  }

  function Translate(vs: seq<U.Vec3>, offset: U.Vec3): (r: seq<U.Vec3>)
    ensures |r| == |vs| && forall k :: 0 <= k < |vs| ==> r[k] == U.Sub(vs[k], offset)
  {
    seq(|vs|, k requires 0 <= k < |vs| => U.Sub(vs[k], offset))
  }

  /** The triangles of an index list. */
  function Triangles(idx: seq<int>): (tris: seq<Tri>)
    requires |idx| % 3 == 0
    ensures |tris| == |idx| / 3 && forall t :: 0 <= t < |tris| ==> tris[t] == TriangleAt(idx, t)
  {
    seq(|idx| / 3, t requires 0 <= t < |idx| / 3 => TriangleAt(idx, t))
  }

  /** The deleted positions: the corners of the flagged triangles, each once. */
  function Deleted(mesh: Mesh, inside: seq<bool>): seq<int>
    requires |mesh.triangles| % 3 == 0 && |inside| == |mesh.triangles| / 3
  {
    Dedup(FlaggedCorners(Triangles(mesh.triangles), inside, |inside|))
  }

  /** A position is deleted exactly when it is a corner of a flagged triangle, so it names a
      vertex. */
  lemma DeletedAreFlaggedCorners(mesh: Mesh, coordCount: nat, inside: seq<bool>)
    requires WellFormed(mesh, coordCount) && |inside| == |mesh.triangles| / 3
    ensures var tris := Triangles(mesh.triangles);
      forall v :: v in Deleted(mesh, inside) <==> exists t :: 0 <= t < |tris| && inside[t] && IsCorner(v, tris[t])
    ensures forall v :: v in Deleted(mesh, inside) ==> 0 <= v < |mesh.vertices|
  {
    var tris := Triangles(mesh.triangles);
    FlaggedCornersAreCorners(tris, inside, |tris|);
    forall v | v in Deleted(mesh, inside) ensures 0 <= v < |mesh.vertices| {
      var t :| 0 <= t < |tris| && inside[t] && IsCorner(v, tris[t]);
      assert mesh.triangles[3 * t] == tris[t].x && mesh.triangles[3 * t + 1] == tris[t].y
        && mesh.triangles[3 * t + 2] == tris[t].z;
      assert mesh.triangles[3 * t] in mesh.triangles && mesh.triangles[3 * t + 1] in mesh.triangles
        && mesh.triangles[3 * t + 2] in mesh.triangles;
    }
  }

  /** An index renumbered past the deleted positions names, in what is kept, the vertex it
      named before. */
  lemma RenumberedNamesKept<T>(s: seq<T>, D: set<int>, kept: seq<int>, re: seq<int>)
    requires |re| == |kept|
    requires forall k :: 0 <= k < |kept| ==> 0 <= kept[k] < |s| && kept[k] !in D && re[k] == Renumbered(kept[k], D)
    ensures forall k :: 0 <= k < |kept| ==> 0 <= re[k] < |Keep(s, D)| && Keep(s, D)[re[k]] == s[kept[k]]
  {
    forall k | 0 <= k < |kept| ensures 0 <= re[k] < |Keep(s, D)| && Keep(s, D)[re[k]] == s[kept[k]] {
      KeepPrefixAt(s, D, |s|, kept[k]);
    }
  }

  /** removeInsideFaces. The result keeps exactly the vertices, normals and uvs at positions
      that are no corner of a flagged triangle (see DeletedAreFlaggedCorners), shifted to the
      centre of the cubes; every index naming a deleted vertex is gone, and every other index
      still names its vertex. */
  method RemoveInsideFaces(mesh: Mesh, coords: seq<U.Vec3>, inside: seq<bool>) returns (r: Mesh)
    requires WellFormed(mesh, |coords|)
    requires |inside| == |mesh.triangles| / 3
    ensures var D := Elems(Deleted(mesh, inside));
      && r.vertices == Translate(Keep(mesh.vertices, D), Average(coords))
      && r.normals == Keep(mesh.normals, D)
      && r.uvs == Keep(mesh.uvs, D)
      && |r.vertices| == |mesh.vertices| - |Deleted(mesh, inside)|
    ensures var D := Elems(Deleted(mesh, inside));
      var kept := Filter(mesh.triangles, D);
      && |r.triangles| == |kept|
      && forall k :: 0 <= k < |kept| ==>
           && kept[k] in mesh.triangles && kept[k] !in D
           && r.triangles[k] == Renumbered(kept[k], D)
           && 0 <= r.triangles[k] < |Keep(mesh.vertices, D)| == |r.vertices|
           && Keep(mesh.vertices, D)[r.triangles[k]] == mesh.vertices[kept[k]]
           && r.normals[r.triangles[k]] == mesh.normals[kept[k]]
           && r.uvs[r.triangles[k]] == mesh.uvs[kept[k]]
  {
    var triagIdx := mesh.triangles;
    var triangles := ExtractTriangles(triagIdx);
    assert triangles[..] == Triangles(mesh.triangles);
    var flagged := CollectFlagged(triangles[..], inside);
    var vertToDelete := Dedup(flagged);
    DeletedAreFlaggedCorners(mesh, |coords|, inside);
    assert vertToDelete == Deleted(mesh, inside);
    ghost var D := Elems(vertToDelete);
    triagIdx := RemoveDeletedIndices(triagIdx, vertToDelete);
    var order := SortDescending(vertToDelete);
    assert Elems(order) == D;
    assert forall k :: 0 <= k < |order| ==> order[k] in vertToDelete;
    assert forall k :: 0 <= k < |triagIdx| ==> triagIdx[k] in mesh.triangles && triagIdx[k] !in D;
    var vertices, normals, uvs := RemoveVertices(mesh.vertices, mesh.normals, mesh.uvs, order);
    ghost var kept := triagIdx;
    triagIdx := Reindex(triagIdx, order);
    RenumberedNamesKept(mesh.vertices, D, kept, triagIdx);
    RenumberedNamesKept(mesh.normals, D, kept, triagIdx);
    RenumberedNamesKept(mesh.uvs, D, kept, triagIdx);
    var offset := Average(coords);
    vertices := Translate(vertices, offset);
    r := Mesh(vertices, normals, uvs, triagIdx);
  }
}
