/** The particle-system pool of Scripts/MonoBehaviour/ParticleSystemsController.cs: a registry
    holding one PooledPS per prefab, and in each PooledPS a ring of instances that grows when
    the instance whose turn it is is still playing.

    A prefab is identified by a number; an instance by its prefab and the serial number of its
    instantiation within its pool, so that a fresh instance differs from every earlier one.
    Whether an instance is playing is a fact of the engine and arrives as a parameter. */
module Particles {
  import opened Seqs

  type Prefab = nat

  datatype Instance = Instance(prefab: Prefab, serial: nat)

  /** The first n instances made of a prefab. */
  function Instantiated(prefab: Prefab, n: nat): (r: seq<Instance>)
    ensures |r| == n && forall k :: 0 <= k < n ==> r[k] == Instance(prefab, k)
  {
    if n == 0 then [] else Instantiated(prefab, n - 1) + [Instance(prefab, n - 1)]
  }

  /** PooledPS: the instances of one prefab, used in turn. */
  class PooledPS {
    const ps: Prefab
    var instances: seq<Instance>
    var poolSize: int
    var nextIndex: int
    var created: nat    // instances made so far; the next one gets this serial

    /** The ring: poolSize counts the instances, nextIndex points into them, and they are
        distinct instances of this prefab. */
    predicate Valid()
      reads this
    {
      && poolSize == |instances|
      && 0 <= nextIndex < poolSize
      && Distinct(instances)
      && forall k :: 0 <= k < |instances| ==> instances[k].prefab == ps && instances[k].serial < created
    }

    /** The constructor instantiates poolSize copies of the prefab and starts at index 0. */
    constructor(prefab: Prefab, size: int)
      requires size >= 0      // List<T>(capacity) throws on a negative capacity
      ensures ps == prefab && poolSize == size && nextIndex == 0 && |instances| == size
      ensures instances == Instantiated(prefab, size) && created == size
      ensures size > 0 ==> Valid()
    {
      ps := prefab;
      poolSize := size;
      nextIndex := 0;
      instances := [];
      created := 0;
      new;
      for i := 0 to size
        invariant instances == Instantiated(prefab, i) && created == i
        invariant poolSize == size && nextIndex == 0
      {
        instances := instances + [Instance(ps, created)];
        created := created + 1;
      }
    }

    /** getInstance: if the instance whose turn it is is playing, a fresh one is inserted in
        its place and the ring grows by one; the instance now at nextIndex is returned and
        nextIndex advances by one around the ring. */
    method GetInstance(isPlaying: bool) returns (ret: Instance)
      requires Valid()
      modifies this
      ensures Valid()
      ensures isPlaying ==> var made := Instance(ps, old(created));
        && instances == old(instances)[..old(nextIndex)] + [made] + old(instances)[old(nextIndex)..]
        && poolSize == old(poolSize) + 1 && created == old(created) + 1
        && ret == made && ret !in old(instances)
      ensures !isPlaying ==>
        && instances == old(instances) && poolSize == old(poolSize) && created == old(created)
        && ret == old(instances)[old(nextIndex)]
      ensures nextIndex == (old(nextIndex) + 1) % poolSize
    {
      if isPlaying {
        var made := Instance(ps, created);
        created := created + 1;
        instances := instances[..nextIndex] + [made] + instances[nextIndex..];
        poolSize := poolSize + 1;
        assert made !in old(instances);
        InsertKeepsDistinct(old(instances), nextIndex, made);
      }
      ret := instances[nextIndex];
      nextIndex := (nextIndex + 1) % poolSize;
    }
  }

  lemma InsertKeepsDistinct(s: seq<Instance>, i: nat, x: Instance)
    requires i <= |s| && Distinct(s) && x !in s
    ensures Distinct(s[..i] + [x] + s[i..])
  {
    var r := s[..i] + [x] + s[i..];
    forall a, b | 0 <= a < b < |r| ensures r[a] != r[b] {
      if a < i && b < i { assert r[a] == s[a] && r[b] == s[b]; }
      else if a < i && b == i { assert r[a] in s; }
      else if a < i { assert r[a] == s[a] && r[b] == s[b - 1]; }
      else if a == i { assert r[b] == s[b - 1]; assert r[b] in s; }
      else { assert r[a] == s[a - 1] && r[b] == s[b - 1]; }
    }
  }

  /** List.IndexOf under PooledPS equality, which compares prefabs: the first entry for p, or
      -1. */
  function IndexOf(prefabs: seq<Prefab>, p: Prefab): (i: int)
    ensures -1 <= i < |prefabs|
    ensures i == -1 <==> p !in prefabs
    ensures i >= 0 ==> prefabs[i] == p && p !in prefabs[..i]
  {
    if |prefabs| == 0 then -1
    else if prefabs[|prefabs| - 1] == p && IndexOf(prefabs[..|prefabs| - 1], p) == -1 then |prefabs| - 1
    else
      var i := IndexOf(prefabs[..|prefabs| - 1], p);
      assert i >= 0 ==> prefabs[..|prefabs| - 1][..i] == prefabs[..i];
      assert forall q :: q in prefabs ==> q in prefabs[..|prefabs| - 1] || q == prefabs[|prefabs| - 1] by {
        assert prefabs == prefabs[..|prefabs| - 1] + [prefabs[|prefabs| - 1]];
      }
      i
  }

  /** ParticleSystemsController: the registry of pools. */
  class ParticleSystemsController {
    var pool: seq<PooledPS>

    /** The prefab of each entry, in order. */
    function Prefabs(): (r: seq<Prefab>)
      reads this
      ensures |r| == |pool| && forall k :: 0 <= k < |pool| ==> r[k] == pool[k].ps
    {
      seq(|pool|, k requires 0 <= k < |pool| reads this => pool[k].ps)
    }

    /** No prefab is pooled twice. */
    predicate Valid()
      reads this
    {
      Distinct(Prefabs())
    }

    /** Awake: the pool starts empty. */
    constructor()
      ensures pool == [] && Valid()
    {
      pool := [];
    }

    /** AddPrefabtoPool: a new entry is appended only when no entry has this prefab; the index
        of the prefab's entry is returned. */
    method AddPrefabtoPool(ps: Prefab, poolSize: int) returns (id: int)
      requires Valid() && poolSize >= 0
      modifies this
      ensures Valid()
      ensures ps in old(Prefabs()) ==> pool == old(pool)
      ensures ps !in old(Prefabs()) ==>
        (|pool| == old(|pool|) + 1 && pool[..old(|pool|)] == old(pool)
         && fresh(pool[old(|pool|)]) && pool[old(|pool|)].ps == ps)
      ensures 0 <= id < |pool| && Prefabs()[id] == ps && id == IndexOf(Prefabs(), ps)
    {
      var pps := new PooledPS(ps, poolSize);
      if ps !in Prefabs() {
        ghost var before := Prefabs();
        pool := pool + [pps];
        assert Prefabs() == before + [ps];
        forall a, b | 0 <= a < b < |pool| ensures Prefabs()[a] != Prefabs()[b] {
          if b < |pool| - 1 { assert before[a] != before[b]; }
          else { assert before[a] in before; }
        }
      }
      id := IndexOf(Prefabs(), ps);
    }

    /** GetPrefabID: -1 for a prefab without an entry, otherwise the index of its entry. */
    method GetPrefabID(ps: Prefab) returns (id: int)
      ensures id == IndexOf(Prefabs(), ps)
      ensures id == -1 <==> ps !in Prefabs()
      ensures id >= 0 ==> pool[id].ps == ps
    {
      var pps := new PooledPS(ps, 1);
      if ps !in Prefabs() {
        return -1;
      }
      id := IndexOf(Prefabs(), ps);
    }
  }

  /** Adding a prefab already in the pool changes nothing and returns its index again; after
      adding a prefab, GetPrefabID finds it at the returned index. Both follow from the
      contracts above; this states them over the prefab sequence. */
  lemma AddThenGet(prefabs: seq<Prefab>, ps: Prefab)
    requires Distinct(prefabs)
    ensures var after := if ps in prefabs then prefabs else prefabs + [ps];
      && IndexOf(after, ps) >= 0
      && (ps !in prefabs ==> IndexOf(after, ps) == |prefabs|)
      && (ps in prefabs ==> IndexOf(after, ps) == IndexOf(prefabs, ps))
  {
    if ps !in prefabs {
      assert (prefabs + [ps])[..|prefabs|] == prefabs;
    }
  }
}
