/** The connected-component search of LevelEditor/Editor/LevelGenerator.cs: the editor's
    mergeBlockGeometry collects the environment blocks, indexes them by position in a
    dictionary, and repeatedly takes the first block left in its list as the seed of a
    breadth-first search over the six face neighbours, removing each block from the dictionary
    as it is enqueued and from the list as it is dequeued. Every search yields one
    component, which the editor then merges into one mesh.

    A block is identified by its grid position: the dictionary maps each position to the
    block standing there, so the set of its keys carries everything the search uses. The mesh
    merging that follows each search is not part of this model. */
module LevelGenerator {
  import opened Wrappers
  import opened Axes
  import opened Seqs

  datatype MergeError = DuplicatePosition(pos: IVec)   // Dictionary.Add on a key already present

  function Plus(a: IVec, b: IVec): IVec {
    IVec(a.x + b.x, a.y + b.y, a.z + b.z)
  }

  /** The six face neighbours, in the order addNeighbors checks them: +x, -x, +y, -y, +z, -z. */
  function Neighbors(c: IVec): (ns: seq<IVec>)
    ensures |ns| == 6 && Distinct(ns)
  {
    [Plus(c, IVec(1, 0, 0)), Plus(c, IVec(-1, 0, 0)), Plus(c, IVec(0, 1, 0)),
     Plus(c, IVec(0, -1, 0)), Plus(c, IVec(0, 0, 1)), Plus(c, IVec(0, 0, -1))]
  }

  function NeighborSet(c: IVec): set<IVec> {
    set n | n in Neighbors(c)
  }

  predicate Adjacent(a: IVec, b: IVec) {
    b in Neighbors(a)
  }

  lemma AdjacentSymmetric(a: IVec, b: IVec)
    ensures Adjacent(a, b) <==> Adjacent(b, a)
  {
  }

  /** The neighbours in `ns` still in the dictionary, in order. */
  function Present(ns: seq<IVec>, dict: set<IVec>): seq<IVec> {
    if |ns| == 0 then []
    else IfPresent(ns[0], dict) + Present(ns[1..], dict)
  }

  /** Present keeps exactly the neighbours in the dictionary, and repeats none. */
  lemma {:induction false} PresentKeepsPresent(ns: seq<IVec>, dict: set<IVec>)
    ensures forall x :: x in Present(ns, dict) <==> x in ns && x in dict
    ensures Distinct(ns) ==> Distinct(Present(ns, dict))
  {
    if |ns| > 0 {
      PresentKeepsPresent(ns[1..], dict);
      var r := Present(ns[1..], dict);
      assert forall x :: x in ns <==> x == ns[0] || x in ns[1..];
      if Distinct(ns) {
        assert Distinct(ns[1..]) by {
          forall i, j | 0 <= i < j < |ns| - 1 ensures ns[1..][i] != ns[1..][j] {
            assert ns[i + 1] != ns[j + 1];
          }
        }
        assert ns[0] !in ns[1..] by {
          forall i | 0 <= i < |ns| - 1 ensures ns[1..][i] != ns[0] {
            assert ns[0] != ns[i + 1];
          }
        }
        var full := IfPresent(ns[0], dict) + r;
        forall i, j | 0 <= i < j < |full| ensures full[i] != full[j] {
          if |IfPresent(ns[0], dict)| == 1 && i == 0 {
            assert full[j] == r[j - 1];
          } else {
            assert full[i] == r[i - |IfPresent(ns[0], dict)|] && full[j] == r[j - |IfPresent(ns[0], dict)|];
          }
        }
      }
    }
  }

  function IfPresent(n: IVec, dict: set<IVec>): seq<IVec> {
    if n in dict then [n] else []
  }

  lemma {:induction false} PresentAppend(a: seq<IVec>, b: seq<IVec>, dict: set<IVec>)
    ensures Present(a + b, dict) == Present(a, dict) + Present(b, dict)
  {
    if |a| > 0 {
      assert (a + b)[1..] == a[1..] + b;
      PresentAppend(a[1..], b, dict);
    } else {
      assert a + b == b;
    }
  }

  /** Lines 106-110 and each of the five blocks after them: enqueue the block at `n` if the
      dictionary still holds one, and remove it. */
  method TakeIfPresent(n: IVec, dict: set<IVec>, queue: seq<IVec>) returns (dict': set<IVec>, queue': seq<IVec>)
    ensures dict' == dict - {n}
    ensures queue' == queue + IfPresent(n, dict)
  {
    dict', queue' := dict, queue;
    if n in dict {
      queue' := queue' + [n];
      dict' := dict' - {n};
    }
  }

  /** After the checks of the first k neighbours, the queue has gained the present ones among
      them and the dictionary has lost them; checking the next one extends both. */
  lemma TakeStep(ns: seq<IVec>, k: nat, dict: set<IVec>, queue: seq<IVec>, dk: set<IVec>, qk: seq<IVec>)
    requires Distinct(ns) && k < |ns|
    requires qk == queue + Present(ns[..k], dict) && dk == dict - Elems(ns[..k])
    ensures qk + IfPresent(ns[k], dk) == queue + Present(ns[..k + 1], dict)
    ensures dk - {ns[k]} == dict - Elems(ns[..k + 1])
  {
    assert ns[..k + 1] == ns[..k] + [ns[k]];
    PresentAppend(ns[..k], [ns[k]], dict);
    assert Present([ns[k]], dict) == IfPresent(ns[k], dict) + Present([], dict);
    ElemsAppend(ns[..k], [ns[k]]);
    assert ns[k] !in Elems(ns[..k]) by {
      forall i | 0 <= i < k ensures ns[..k][i] != ns[k] {
        assert ns[i] != ns[k];
      }
    }
  }

  /** addNeighbors: every face neighbour still in the dictionary moves from the dictionary to
      the end of the queue, in the checking order. */
  method AddNeighbors(coord: IVec, dict: set<IVec>, queue: seq<IVec>) returns (dict': set<IVec>, queue': seq<IVec>)
    ensures dict' == dict - NeighborSet(coord)
    ensures queue' == queue + Present(Neighbors(coord), dict)
  {
    var ns := Neighbors(coord);
    assert ns[..0] == [] && Present([], dict) == [] && Elems([]) == {};
    dict', queue' := dict, queue;
    TakeStep(ns, 0, dict, queue, dict', queue');
    dict', queue' := TakeIfPresent(ns[0], dict', queue');
    TakeStep(ns, 1, dict, queue, dict', queue');
    dict', queue' := TakeIfPresent(ns[1], dict', queue');
    TakeStep(ns, 2, dict, queue, dict', queue');
    dict', queue' := TakeIfPresent(ns[2], dict', queue');
    TakeStep(ns, 3, dict, queue, dict', queue');
    dict', queue' := TakeIfPresent(ns[3], dict', queue');
    TakeStep(ns, 4, dict, queue, dict', queue');
    dict', queue' := TakeIfPresent(ns[4], dict', queue');
    TakeStep(ns, 5, dict, queue, dict', queue');
    dict', queue' := TakeIfPresent(ns[5], dict', queue');
    assert ns[..6] == ns;
  }

  /** List.Remove: the first occurrence of x, if any, is removed. */
  function RemoveFirst<T(==,!new)>(s: seq<T>, x: T): (r: seq<T>)
    ensures x !in s ==> r == s
    ensures x in s ==> |r| == |s| - 1
    ensures forall y :: y in r ==> y in s
    ensures forall y :: y in s && y != x ==> y in r
  {
    if |s| == 0 then []
    else if s[0] == x then s[1..]
    else [s[0]] + RemoveFirst(s[1..], x)
  }

  /** On a list without repeats, Remove takes out exactly x. */
  lemma {:induction false} RemoveFirstDistinct<T(!new)>(s: seq<T>, x: T)
    requires Distinct(s)
    ensures Distinct(RemoveFirst(s, x)) && x !in RemoveFirst(s, x)
  {
    if |s| > 0 && s[0] != x {
      assert Distinct(s[1..]) by {
        forall i, j | 0 <= i < j < |s| - 1 ensures s[1..][i] != s[1..][j] {
          assert s[i + 1] != s[j + 1];
        }
      }
      RemoveFirstDistinct(s[1..], x);
      var r := RemoveFirst(s[1..], x);
      assert s[0] !in s[1..] by {
        forall i | 0 <= i < |s| - 1 ensures s[1..][i] != s[0] {
          assert s[0] != s[i + 1];
        }
      }
      forall i, j | 0 <= i < j < |r| + 1 ensures ([s[0]] + r)[i] != ([s[0]] + r)[j] {
        if i == 0 { assert ([s[0]] + r)[j] in r; }
        else { assert ([s[0]] + r)[i] == r[i - 1] && ([s[0]] + r)[j] == r[j - 1]; }
      }
    } else if |s| > 0 {
      forall i | 0 <= i < |s| - 1 ensures s[1..][i] != x {
        assert s[0] != s[i + 1];
      }
    }
  }

  /** Every block of `all` face-adjacent to a block of c is in c. */
  predicate Closed(c: seq<IVec>, all: set<IVec>) {
    forall b, n :: b in c && n in all && Adjacent(b, n) ==> n in c
  }

  /** Every block after the first is face-adjacent to an earlier one: c is connected, and its
      first block reaches every other through c. */
  predicate TreeConnected(c: seq<IVec>) {
    forall k :: 0 < k < |c| ==> HasEarlierNeighbour(c, k)
  }

  predicate HasEarlierNeighbour(c: seq<IVec>, k: nat)
    requires k < |c|
  {
    exists j :: 0 <= j < k && Adjacent(c[j], c[k])
  }

  function Elems(s: seq<IVec>): set<IVec> {
    set x | x in s
  }

  lemma ElemsAppend(a: seq<IVec>, b: seq<IVec>)
    ensures Elems(a + b) == Elems(a) + Elems(b)
  {
  }

  function Covered(comps: seq<seq<IVec>>): set<IVec> {
    if |comps| == 0 then {} else Covered(comps[..|comps| - 1]) + Elems(comps[|comps| - 1])
  }

  lemma CoveredContains(comps: seq<seq<IVec>>, i: nat, x: IVec)
    requires i < |comps| && x in comps[i]
    ensures x in Covered(comps)
  {
    if i < |comps| - 1 {
      CoveredContains(comps[..|comps| - 1], i, x);
    }
  }

  lemma CoveredWitness(comps: seq<seq<IVec>>, x: IVec) returns (i: nat)
    requires x in Covered(comps)
    ensures i < |comps| && x in comps[i]
  {
    if x in comps[|comps| - 1] {
      i := |comps| - 1;
    } else {
      i := CoveredWitness(comps[..|comps| - 1], x);
    }
  }

  /** The components found so far: non-empty, without repeats, closed and connected within
      `all`, and pairwise disjoint. */
  predicate ComponentsOk(comps: seq<seq<IVec>>, all: set<IVec>) {
    && (forall i :: 0 <= i < |comps| ==> |comps[i]| > 0 && Distinct(comps[i]))
    && (forall i :: 0 <= i < |comps| ==> Closed(comps[i], all) && TreeConnected(comps[i]))
    && (forall i, j, x :: 0 <= i < j < |comps| && x in comps[i] ==> x !in comps[j])
  }

  /** mergeBlockGeometry's result: the components partition the blocks, each is closed under
      face adjacency and connected, so each is exactly the connected component of its first
      block. */
  predicate IsComponentPartition(blocks: seq<IVec>, comps: seq<seq<IVec>>) {
    var all := set b | b in blocks;
    ComponentsOk(comps, all) && Covered(comps) == all
  }

  /** The visit (the component so far followed by the queue) is non-empty, repeats nothing,
      and every block in it after the first is adjacent to an earlier one. */
  predicate VisitOk(visit: seq<IVec>) {
    |visit| > 0 && Distinct(visit) && TreeConnected(visit)
  }

  /** The blocks of the found components, of the visit and of the dictionary partition the
      level. */
  ghost predicate Partition(all: set<IVec>, done: set<IVec>, visit: seq<IVec>, dict: set<IVec>) {
    && (forall x :: x in visit ==> x !in done && x !in dict)
    && done !! dict
    && done + Elems(visit) + dict == all
  }

  /** The block list holds, without repeats, exactly the blocks not yet dequeued. */
  ghost predicate ListOk(list: seq<IVec>, dict: set<IVec>, queue: seq<IVec>) {
    Distinct(list) && forall x :: x in list <==> x in dict || x in queue
  }

  /** Every neighbour of a dequeued block has been visited. */
  ghost predicate DequeuedClosed(comp: seq<IVec>, visit: seq<IVec>, all: set<IVec>) {
    forall b, n :: b in comp && n in all && Adjacent(b, n) ==> n in visit
  }

  /** What the breadth-first search keeps. */
  ghost predicate BfsInv(all: set<IVec>, comps: seq<seq<IVec>>, comp: seq<IVec>, queue: seq<IVec>,
                   dict: set<IVec>, list: seq<IVec>)
  {
    && ComponentsOk(comps, all)
    && VisitOk(comp + queue)
    && Partition(all, Covered(comps), comp + queue, dict)
    && ListOk(list, dict, queue)
    && DequeuedClosed(comp, comp + queue, all)
  }

  /** Appending blocks taken from the dictionary keeps the visit free of repeats. */
  lemma VisitStaysDistinct(visit: seq<IVec>, found: seq<IVec>, dict: set<IVec>)
    requires Distinct(visit) && Distinct(found)
    requires forall x :: x in found ==> x in dict
    requires forall x :: x in visit ==> x !in dict
    ensures Distinct(visit + found)
  {
    var v := visit + found;
    forall i, j | 0 <= i < j < |v| ensures v[i] != v[j] {
      if j >= |visit| {
        if i >= |visit| { assert found[i - |visit|] != found[j - |visit|]; }
        else { assert v[i] in visit && v[j] in found; }
      }
    }
  }

  /** Appending neighbours of an already visited block keeps the visit connected. */
  lemma VisitStaysConnected(visit: seq<IVec>, found: seq<IVec>, p: nat)
    requires TreeConnected(visit) && p < |visit|
    requires forall x :: x in found ==> Adjacent(visit[p], x)
    ensures TreeConnected(visit + found)
  {
    var v := visit + found;
    forall k | 0 < k < |v| ensures HasEarlierNeighbour(v, k) {
      if k >= |visit| {
        assert v[k] == found[k - |visit|];
        assert v[k] in found;
        assert v[p] == visit[p];
        assert 0 <= p < k && Adjacent(v[p], v[k]);
      } else {
        assert v[k] == visit[k];
        assert HasEarlierNeighbour(visit, k);
        var j :| 0 <= j < k && Adjacent(visit[j], visit[k]);
        assert v[j] == visit[j];
        assert 0 <= j < k && Adjacent(v[j], v[k]);
      }
    }
  }

  /** A neighbour of a block outside the closed components found so far is outside them
      too. */
  lemma NeighbourNotDone(all: set<IVec>, comps: seq<seq<IVec>>, b: IVec, n: IVec)
    requires ComponentsOk(comps, all) && b in all && b !in Covered(comps) && Adjacent(b, n)
    ensures n !in Covered(comps)
  {
    if n in Covered(comps) {
      var i := CoveredWitness(comps, n);
      AdjacentSymmetric(b, n);
      assert Closed(comps[i], all);
      assert b in comps[i];
      CoveredContains(comps, i, b);
    }
  }

  /** Moving the dictionary's neighbours of b into the visit keeps the partition. */
  lemma StepKeepsPartition(all: set<IVec>, done: set<IVec>, visit: seq<IVec>, dict: set<IVec>,
                           b: IVec, found: seq<IVec>)
    requires Partition(all, done, visit, dict)
    requires forall x :: x in found <==> x in NeighborSet(b) && x in dict
    ensures Partition(all, done, visit + found, dict - NeighborSet(b))
  {
    ElemsAppend(visit, found);
    assert Elems(found) == dict * NeighborSet(b);
  }

  /** Dequeuing b takes it out of the list and nothing else. */
  lemma StepKeepsList(list: seq<IVec>, dict: set<IVec>, queue: seq<IVec>, b: IVec, found: seq<IVec>)
    requires ListOk(list, dict, queue) && |queue| > 0 && b == queue[0]
    requires b !in dict && b !in queue[1..]
    requires forall x :: x in found <==> x in NeighborSet(b) && x in dict
    ensures ListOk(RemoveFirst(list, b), dict - NeighborSet(b), queue[1..] + found)
  {
    RemoveFirstDistinct(list, b);
    assert forall x :: x in queue <==> x == b || x in queue[1..];
  }

  /** The neighbours of the newly dequeued block are visited: those still in the dictionary
      are found now, and none lies in a closed component. */
  lemma StepKeepsClosed(all: set<IVec>, comps: seq<seq<IVec>>, comp: seq<IVec>, visit: seq<IVec>,
                        dict: set<IVec>, b: IVec, found: seq<IVec>)
    requires ComponentsOk(comps, all) && Partition(all, Covered(comps), visit, dict)
    requires DequeuedClosed(comp, visit, all) && b in visit
    requires forall x :: x in found <==> x in NeighborSet(b) && x in dict
    ensures DequeuedClosed(comp + [b], visit + found, all)
  {
    assert b in all by { assert b in Elems(visit); }
    forall c, n | c in comp + [b] && n in all && Adjacent(c, n) ensures n in visit + found {
      if c == b {
        NeighbourNotDone(all, comps, b, n);
        if n in dict {
          assert n in found;
        } else {
          assert n in Elems(visit);
        }
      } else {
        assert c in comp;
      }
    }
  }

  /** One dequeue: the search keeps its invariant and the component grows by one block, which
      is in the level. */
  lemma BfsStep(all: set<IVec>, comps: seq<seq<IVec>>, comp: seq<IVec>, queue: seq<IVec>,
                dict: set<IVec>, list: seq<IVec>)
    requires BfsInv(all, comps, comp, queue, dict, list) && |queue| > 0
    ensures var b := queue[0];
      BfsInv(all, comps, comp + [b], queue[1..] + Present(Neighbors(b), dict),
             dict - NeighborSet(b), RemoveFirst(list, b))
    ensures |comp| < |all|
  {
    var b := queue[0];
    var found := Present(Neighbors(b), dict);
    var visit := comp + queue;
    assert (comp + [b]) + (queue[1..] + found) == visit + found;
    assert b == visit[|comp|];
    PresentKeepsPresent(Neighbors(b), dict);
    assert forall x :: x in found <==> x in NeighborSet(b) && x in dict;
    VisitStaysDistinct(visit, found, dict);
    VisitStaysConnected(visit, found, |comp|);
    StepKeepsPartition(all, Covered(comps), visit, dict, b, found);
    StepKeepsClosed(all, comps, comp, visit, dict, b, found);
    assert b !in queue[1..] by {
      forall i | 0 <= i < |queue| - 1 ensures queue[1..][i] != b {
        assert visit[|comp| + 1 + i] != visit[|comp|];
      }
    }
    StepKeepsList(list, dict, queue, b, found);
    DistinctElems(visit);
    assert Elems(visit) <= all;
  }

  /** A sequence without repeats has as many elements as its set. */
  lemma {:induction false} DistinctElems(s: seq<IVec>)
    requires Distinct(s)
    ensures |Elems(s)| == |s|
  {
    if |s| > 0 {
      var t := s[..|s| - 1];
      assert Distinct(t) by {
        forall i, j | 0 <= i < j < |t| ensures t[i] != t[j] {
          assert s[i] != s[j];
        }
      }
      DistinctElems(t);
      assert s == t + [s[|s| - 1]];
      ElemsAppend(t, [s[|s| - 1]]);
      assert Elems([s[|s| - 1]]) == {s[|s| - 1]};
      assert s[|s| - 1] !in Elems(t) by {
        forall i | 0 <= i < |t| ensures t[i] != s[|s| - 1] {
          assert s[i] != s[|s| - 1];
        }
      }
    }
  }

  /** The seed starts a search: it leaves the dictionary for the queue. */
  lemma StartComponent(all: set<IVec>, comps: seq<seq<IVec>>, dict: set<IVec>, list: seq<IVec>)
    requires ComponentsOk(comps, all)
    requires Covered(comps) !! dict && Covered(comps) + dict == all
    requires |list| > 0 && Distinct(list) && forall x :: x in list <==> x in dict
    ensures BfsInv(all, comps, [], [list[0]], dict - {list[0]}, list)
  {
    assert [] + [list[0]] == [list[0]];
    assert Elems([list[0]]) == {list[0]};
  }

  /** The new component is disjoint from the earlier ones and, now that the queue is empty,
      closed: appending it keeps the components valid. */
  lemma {:induction false} FinishComponent(all: set<IVec>, comps: seq<seq<IVec>>, comp: seq<IVec>,
                                           dict: set<IVec>, list: seq<IVec>)
    requires BfsInv(all, comps, comp, [], dict, list)
    ensures ComponentsOk(comps + [comp], all)
    ensures Covered(comps + [comp]) == Covered(comps) + Elems(comp)
    ensures Covered(comps + [comp]) !! dict && Covered(comps + [comp]) + dict == all
    ensures forall x :: x in list <==> x in dict
  {
    var comps' := comps + [comp];
    assert comps'[..|comps'| - 1] == comps;
    assert comp + [] == comp;
    assert forall x :: x in comp ==> x in all by {
      forall x | x in comp ensures x in all { assert x in Elems(comp); }
    }
    forall i, j, x | 0 <= i < j < |comps'| && x in comps'[i] ensures x !in comps'[j] {
      if j == |comps'| - 1 {
        CoveredContains(comps, i, x);
      }
    }
  }

  /** mergeBlockGeometry: index the blocks by position, then take the first block left in the
      list as a seed and search its component until the list is empty. A repeated position
      makes Dictionary.Add throw; an empty level returns before any search. */
  method MergeBlockGeometry(blocks: seq<IVec>) returns (r: Result<seq<seq<IVec>>, MergeError>)
    ensures r.Err? <==> !Distinct(blocks)
    ensures r.Err? ==> exists i, j :: 0 <= i < j < |blocks| && blocks[i] == blocks[j] == r.error.pos
    ensures r.Ok? ==> IsComponentPartition(blocks, r.value)
    ensures |blocks| == 0 ==> r == Ok([])
  {
    if |blocks| == 0 {
      return Ok([]);
    }
    var dict: set<IVec> := {};
    for i := 0 to |blocks|
      invariant dict == set k | 0 <= k < i :: blocks[k]
      invariant Distinct(blocks[..i])
    {
      if blocks[i] in dict {
        var k :| 0 <= k < i && blocks[k] == blocks[i];
        return Err(DuplicatePosition(blocks[i]));
      }
      dict := dict + {blocks[i]};
    }
    assert blocks[..|blocks|] == blocks;
    var all := set b | b in blocks;
    assert dict == all;
    var list := blocks;
    var comps: seq<seq<IVec>> := [];
    while |list| > 0
      invariant ComponentsOk(comps, all)
      invariant Covered(comps) !! dict && Covered(comps) + dict == all
      invariant Distinct(list) && forall x :: x in list <==> x in dict
      decreases |list|
    {
      var seed := list[0];
      StartComponent(all, comps, dict, list);
      var comp: seq<IVec> := [];
      var queue := [seed];
      dict := dict - {seed};
      ghost var list0 := list;
      while |queue| > 0
        invariant BfsInv(all, comps, comp, queue, dict, list)
        invariant |comp| == 0 ==> list == list0 && queue == [seed]
        invariant |list| <= |list0| && (|comp| > 0 ==> |list| < |list0|)
        decreases |all| - |comp|
      {
        BfsStep(all, comps, comp, queue, dict, list);
        var block := queue[0];
        queue := queue[1..];
        comp := comp + [block];
        list := RemoveFirst(list, block);
        dict, queue := AddNeighbors(block, dict, queue);
      }
      FinishComponent(all, comps, comp, dict, list);
      comps := comps + [comp];
    }
    return Ok(comps);
  }
}
