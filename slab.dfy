/** The slab allocator of src/util/slab.h: a growable vector of slots, each
    holding either a live value or the index of the next free slot, so that
    the free slots form an intrusive LIFO list headed by `next_available_`.
    Keys are slot indices; the vector never shrinks, so a key stays valid
    until it is released. */
module Slab {

  /** kInvalidSlabKey: marks the end of the free list. */
  const InvalidSlabKey: int := -1

  /** One element of `objects_`. The C++ code reuses the same raw bytes for
      the free-list link and for the value; here the tag is explicit. */
  datatype Slot<T> = Free(next: int) | Used(value: T)

  /** The fields `objects_` and `next_available_` as one value. */
  datatype SlabState<T> = SlabState(objects: seq<Slot<T>>, head: int)

  /** The link that the entry at position `i` of a free list must hold. */
  function NextLink(chain: seq<int>, i: nat): int
    requires i < |chain|
  {
    if i + 1 < |chain| then chain[i + 1] else InvalidSlabKey
  }

  /** `chain` is the free list read from `head`: it starts at `head` (and is
      empty exactly when `head` is kInvalidSlabKey), stays within the slot
      vector, never repeats a slot (so walking it terminates), each entry
      links to the next one, and the slots it visits are exactly the free
      slots. */
  ghost predicate FreeList<T>(objects: seq<Slot<T>>, head: int, chain: seq<int>)
  {
    && head == (if chain == [] then InvalidSlabKey else chain[0])
    && (forall i :: 0 <= i < |chain| ==> 0 <= chain[i] < |objects|)
    && (forall i, j :: 0 <= i < j < |chain| ==> chain[i] != chain[j])
    && (forall i {:trigger objects[chain[i]]} :: 0 <= i < |chain| ==> objects[chain[i]] == Free(NextLink(chain, i)))
    && (forall k :: 0 <= k < |objects| ==> (objects[k].Free? <==> k in chain))
  }

  /** The live keys, each with the value `get` returns for it. */
  function Live<T>(objects: seq<Slot<T>>): map<int, T>
  {
    map k | 0 <= k < |objects| && objects[k].Used? :: objects[k].value
  }

  /** 1 for a slot that holds a value, 0 for a free one. */
  function Occupancy<T>(slot: Slot<T>): nat
  {
    if slot.Used? then 1 else 0
  }

  /** The number of slots below `n` holding a value. */
  function UsedBelow<T>(objects: seq<Slot<T>>, n: nat): nat
    requires n <= |objects|
  {
    if n == 0 then 0 else UsedBelow(objects, n - 1) + Occupancy(objects[n - 1])
  }

  /** The number of slots holding a value. */
  function UsedCount<T>(objects: seq<Slot<T>>): nat
  {
    UsedBelow(objects, |objects|)
  }

  /** The key `emplace` hands out: the free-list head, or else the index of
      the slot it is about to append. */
  function EmplaceKey<T>(s: SlabState<T>): int
  {
    if s.head == InvalidSlabKey then |s.objects| else s.head
  }

  /** `emplace(v)`: pop the free-list head and store `v` there, or append a
      new slot holding `v` when the free list is empty. */
  function Emplaced<T>(s: SlabState<T>, v: T): SlabState<T>
    requires s.head == InvalidSlabKey || (0 <= s.head < |s.objects| && s.objects[s.head].Free?)
  {
    if s.head == InvalidSlabKey then SlabState(s.objects + [Used(v)], InvalidSlabKey)
    else SlabState(s.objects[s.head := Used(v)], s.objects[s.head].next)
  }

  /** `release(key)`: the slot stores the old head and becomes the head. */
  function Released<T>(s: SlabState<T>, key: int): SlabState<T>
    requires 0 <= key < |s.objects|
  {
    SlabState(s.objects[key := Free(s.head)], key)
  }

  /** Without its head, a list of distinct slots holds every other slot it
      held before and not the head. */
  lemma TailMembers(chain: seq<int>, k: int)
    requires chain != []
    requires forall i, j :: 0 <= i < j < |chain| ==> chain[i] != chain[j]
    ensures k in chain[1..] <==> k in chain && k != chain[0]
  {
    if k in chain[1..] {
      var i :| 0 <= i < |chain| - 1 && chain[1..][i] == k;
      assert chain[i + 1] == k;
    }
    if k in chain && k != chain[0] {
      var i :| 0 <= i < |chain| && chain[i] == k;
      assert chain[1..][i - 1] == k;
    }
  }

  /** Emplacing into a slab whose free list is empty appends a used slot
      and leaves the free list empty. */
  lemma EmplaceAppendKeepsFreeList<T>(s: SlabState<T>, v: T)
    requires FreeList(s.objects, s.head, [])
    ensures FreeList(Emplaced(s, v).objects, Emplaced(s, v).head, [])
  {
    assert Emplaced(s, v).objects == s.objects + [Used(v)];
  }

  /** Emplacing into a slab with free slots pops the head of the list. */
  lemma EmplacePopKeepsFreeList<T>(s: SlabState<T>, chain: seq<int>, v: T)
    requires FreeList(s.objects, s.head, chain)
    requires chain != []
    ensures FreeList(Emplaced(s, v).objects, Emplaced(s, v).head, chain[1..])
  {
    var t := Emplaced(s, v);
    var rest := chain[1..];
    assert t.objects == s.objects[chain[0] := Used(v)];
    assert t.head == NextLink(chain, 0);
    assert forall i :: 0 <= i < |rest| ==> rest[i] == chain[i + 1];
    forall i | 0 <= i < |rest|
      ensures t.objects[rest[i]] == Free(NextLink(rest, i))
    {
      assert rest[i] != chain[0];
      assert NextLink(rest, i) == NextLink(chain, i + 1);
    }
    forall k | 0 <= k < |t.objects|
      ensures t.objects[k].Free? <==> k in rest
    {
      TailMembers(chain, k);
    }
  }

  /** Emplacing keeps the free list well formed: it loses its head, or stays
      empty when a slot is appended. */
  lemma EmplaceKeepsFreeList<T>(s: SlabState<T>, chain: seq<int>, v: T)
    requires FreeList(s.objects, s.head, chain)
    ensures FreeList(Emplaced(s, v).objects, Emplaced(s, v).head, if chain == [] then [] else chain[1..])
  {
    if chain == [] {
      EmplaceAppendKeepsFreeList(s, v);
    } else {
      EmplacePopKeepsFreeList(s, chain, v);
    }
  }

  /** Pushing a slot that is not on a list of distinct slots keeps the
      slots distinct. */
  lemma PushDistinct(chain: seq<int>, key: int)
    requires key !in chain
    requires forall i, j :: 0 <= i < j < |chain| ==> chain[i] != chain[j]
    ensures forall i, j :: 0 <= i < j < |[key] + chain| ==> ([key] + chain)[i] != ([key] + chain)[j]
  {
    var c := [key] + chain;
    forall i, j | 0 <= i < j < |c| ensures c[i] != c[j] {
      assert c[j] == chain[j - 1];
      if i > 0 { assert c[i] == chain[i - 1]; }
    }
  }

  /** Releasing a live key keeps the free list well formed, with that key
      pushed on the front. */
  lemma ReleaseKeepsFreeList<T>(s: SlabState<T>, chain: seq<int>, key: int)
    requires FreeList(s.objects, s.head, chain)
    requires key in Live(s.objects)
    ensures FreeList(Released(s, key).objects, key, [key] + chain)
  {
    var t := Released(s, key);
    var c := [key] + chain;
    assert key !in chain;
    forall i | 0 <= i < |c|
      ensures t.objects[c[i]] == Free(NextLink(c, i))
    {
      if i > 0 {
        assert c[i] == chain[i - 1] != key;
        assert NextLink(c, i) == NextLink(chain, i - 1);
      }
    }
    PushDistinct(chain, key);
    forall k | 0 <= k < |t.objects|
      ensures t.objects[k].Free? <==> k in c
    {
      assert k in c <==> k == key || k in chain;
    }
  }

  /** What `emplace` hands out: a key that was not live, now live and bound
      to the new value, with every other key's value unchanged. The vector
      grows by one slot exactly when the free list was empty. */
  lemma EmplaceLive<T>(s: SlabState<T>, chain: seq<int>, v: T)
    requires FreeList(s.objects, s.head, chain)
    ensures EmplaceKey(s) !in Live(s.objects)
    ensures Live(Emplaced(s, v).objects) == Live(s.objects)[EmplaceKey(s) := v]
    ensures 0 <= EmplaceKey(s) < |Emplaced(s, v).objects|
    ensures chain == [] ==> EmplaceKey(s) == |s.objects| && |Emplaced(s, v).objects| == |s.objects| + 1
    ensures chain != [] ==> EmplaceKey(s) == chain[0] && |Emplaced(s, v).objects| == |s.objects|
  {
    var key := EmplaceKey(s);
    var t := Emplaced(s, v);
    if chain != [] {
      assert s.objects[chain[0]].Free?;
    }
    assert Live(t.objects).Keys == Live(s.objects).Keys + {key};
  }

  /** What `release` does to the live keys: the released key leaves, every
      other key keeps its value, and the vector keeps its length. */
  lemma ReleaseLive<T>(s: SlabState<T>, key: int)
    requires 0 <= key < |s.objects|
    ensures Live(Released(s, key).objects) == Live(s.objects) - {key}
    ensures |Released(s, key).objects| == |s.objects|
  {
    assert Live(Released(s, key).objects).Keys == Live(s.objects).Keys - {key};
  }

  /** LIFO reuse: releasing a live key and then emplacing hands the same
      key back, and restores the free list as it was. */
  lemma ReleaseThenEmplace<T>(s: SlabState<T>, chain: seq<int>, key: int, v: T)
    requires FreeList(s.objects, s.head, chain)
    requires key in Live(s.objects)
    ensures EmplaceKey(Released(s, key)) == key
    ensures Emplaced(Released(s, key), v) == SlabState(s.objects[key := Used(v)], s.head)
  {
    assert s.objects[key := Free(s.head)][key := Used(v)] == s.objects[key := Used(v)];
  }

  /** Overwriting slot `k` changes the count below `n` by the difference
      in that slot's occupancy when `k` is below `n`, and not at all
      otherwise. */
  lemma {:induction false} UsedBelowUpdate<T>(objects: seq<Slot<T>>, k: nat, slot: Slot<T>, n: nat)
    requires k < |objects| && n <= |objects|
    ensures k < n ==> UsedBelow(objects[k := slot], n) + Occupancy(objects[k]) == UsedBelow(objects, n) + Occupancy(slot)
    ensures n <= k ==> UsedBelow(objects[k := slot], n) == UsedBelow(objects, n)
  {
    if n > 0 {
      UsedBelowUpdate(objects, k, slot, n - 1);
    }
  }

  /** Overwriting one slot changes the number of live values by the
      difference in that slot's occupancy. */
  lemma UsedCountUpdate<T>(objects: seq<Slot<T>>, k: nat, slot: Slot<T>)
    requires k < |objects|
    ensures UsedCount(objects[k := slot]) + Occupancy(objects[k]) == UsedCount(objects) + Occupancy(slot)
  {
    UsedBelowUpdate(objects, k, slot, |objects|);
  }

  /** Appending a slot leaves the counts below the old length alone. */
  lemma {:induction false} UsedBelowAppend<T>(objects: seq<Slot<T>>, slot: Slot<T>, n: nat)
    requires n <= |objects|
    ensures UsedBelow(objects + [slot], n) == UsedBelow(objects, n)
  {
    if n > 0 {
      UsedBelowAppend(objects, slot, n - 1);
    }
  }

  /** Appending a slot adds its occupancy to the count. */
  lemma UsedCountAppend<T>(objects: seq<Slot<T>>, slot: Slot<T>)
    ensures UsedCount(objects + [slot]) == UsedCount(objects) + Occupancy(slot)
  {
    UsedBelowAppend(objects, slot, |objects|);
  }

  /** Free slots hold no value. */
  lemma {:induction false} UsedBelowAllFree<T>(objects: seq<Slot<T>>, n: nat)
    requires n <= |objects|
    requires forall k :: 0 <= k < n ==> objects[k].Free?
    ensures UsedBelow(objects, n) == 0
  {
    if n > 0 {
      UsedBelowAllFree(objects, n - 1);
    }
  }

  /** A vector of free slots holds no value. */
  lemma UsedCountAllFree<T>(objects: seq<Slot<T>>)
    requires forall k :: 0 <= k < |objects| ==> objects[k].Free?
    ensures UsedCount(objects) == 0
  {
    UsedBelowAllFree(objects, |objects|);
  }

  /** Every emplace constructs exactly one live value. */
  lemma EmplaceCount<T>(s: SlabState<T>, chain: seq<int>, v: T)
    requires FreeList(s.objects, s.head, chain)
    ensures UsedCount(Emplaced(s, v).objects) == UsedCount(s.objects) + 1
  {
    if chain == [] {
      UsedCountAppend(s.objects, Used(v));
    } else {
      UsedCountUpdate(s.objects, s.head, Used(v));
    }
  }

  /** Every release of a live key destroys exactly one live value. */
  lemma ReleaseCount<T>(s: SlabState<T>, key: int)
    requires key in Live(s.objects)
    ensures UsedCount(Released(s, key).objects) + 1 == UsedCount(s.objects)
  {
    UsedCountUpdate(s.objects, key, Free(s.head));
  }

  /** The keys below `n` that hold a value, in increasing order: the
      order in which the destructor releases them. */
  function LiveKeysBelow<T>(objects: seq<Slot<T>>, n: nat): seq<int>
    requires n <= |objects|
  {
    if n == 0 then [] else LiveKeysBelow(objects, n - 1) + (if objects[n - 1].Used? then [n - 1] else [])
  }

  /** The keys below `n` that hold a value come strictly increasing, and
      are exactly the live keys below `n`. */
  lemma {:induction false} LiveKeysBelowSpec<T>(objects: seq<Slot<T>>, n: nat)
    requires n <= |objects|
    ensures forall a, b :: 0 <= a < b < |LiveKeysBelow(objects, n)| ==> LiveKeysBelow(objects, n)[a] < LiveKeysBelow(objects, n)[b]
    ensures forall a :: 0 <= a < |LiveKeysBelow(objects, n)| ==> 0 <= LiveKeysBelow(objects, n)[a] < n
    ensures forall k :: k in LiveKeysBelow(objects, n) <==> 0 <= k < n && objects[k].Used?
  {
    if n > 0 {
      LiveKeysBelowSpec(objects, n - 1);
    }
  }

  /** Over the whole vector, those keys are the live keys. */
  lemma LiveKeysAreLive<T>(objects: seq<Slot<T>>)
    ensures forall k :: k in LiveKeysBelow(objects, |objects|) <==> k in Live(objects)
  {
    LiveKeysBelowSpec(objects, |objects|);
  }

  /** The state after the destructor's sweep has visited the first `n`
      slots: each of them that held a value has been released, in index
      order. */
  function SweptTo<T>(s: SlabState<T>, n: nat): (r: SlabState<T>)
    requires n <= |s.objects|
    ensures |r.objects| == |s.objects|
  {
    if n == 0 then s
    else
      var t := SweptTo(s, n - 1);
      if s.objects[n - 1].Used? then Released(t, n - 1) else t
  }

  /** The sweep frees every slot it has visited and leaves the rest alone. */
  lemma {:induction false} SweptToFrees<T>(s: SlabState<T>, n: nat)
    requires n <= |s.objects|
    ensures forall k :: 0 <= k < n ==> SweptTo(s, n).objects[k].Free?
    ensures forall k :: n <= k < |s.objects| ==> SweptTo(s, n).objects[k] == s.objects[k]
  {
    if n > 0 {
      SweptToFrees(s, n - 1);
    }
  }

  /** `Slab<T>` with its two fields. The ghost fields give the free list in
      walk order and count the values constructed by `emplace` and destroyed
      by `release` (explicitly or from the destructor). */
  class Slab<T> {
    var objects: seq<Slot<T>>
    var nextAvailable: int
    ghost var chain: seq<int>
    ghost var constructed: nat
    ghost var destroyed: nat

    /** The free list is well formed, and every value constructed so far is
        either destroyed or still held by a slot. */
    ghost predicate Valid()
      reads this
    {
      FreeList(objects, nextAvailable, chain) && destroyed + UsedCount(objects) == constructed
    }

    function State(): SlabState<T>
      reads this
    {
      SlabState(objects, nextAvailable)
    }

    /** A new slab has no slots and an empty free list; the reserved
        capacity has no observable effect. */
    constructor (initialCapacity: nat)
      ensures Valid()
      ensures objects == [] && nextAvailable == InvalidSlabKey
      ensures constructed == 0 && destroyed == 0
    {
      objects := [];
      nextAvailable := InvalidSlabKey;
      chain := [];
      constructed, destroyed := 0, 0;
    }

    /** `get(key)`: the value stored under a live key (any other key is
        undefined behaviour in the C++ code). */
    function Get(key: int): (v: T)
      reads this
      requires Valid()
      requires key in Live(objects)
      ensures v == Live(objects)[key]
    {
      objects[key].value
    }

    /** `emplace(args...)`: reuse the free-list head, or append a slot when
        the list is empty, and store the value there. Constructing the
        value is taken not to throw. */
    method Emplace(v: T) returns (key: int)
      requires Valid()
      modifies this
      ensures Valid()
      ensures key == EmplaceKey(old(State()))
      ensures State() == Emplaced(old(State()), v)
      ensures constructed == old(constructed) + 1 && destroyed == old(destroyed)
    {
      ghost var before := State();
      ghost var chain0 := chain;
      if nextAvailable == InvalidSlabKey {
        key := |objects|;
        objects := objects + [Used(v)];
      } else {
        key := nextAvailable;
        var storage := objects[key];
        nextAvailable := storage.next;
        objects := objects[key := Used(v)];
        chain := chain[1..];
      }
      constructed := constructed + 1;
      assert State() == Emplaced(before, v);
      EmplaceKeepsFreeList(before, chain0, v);
      EmplaceCount(before, chain0, v);
    }

    /** `release(key)` on a live key; releasing a free or unknown key is
        undefined behaviour in the C++ code. */
    method Release(key: int)
      requires Valid()
      requires key in Live(objects)
      modifies this
      ensures Valid()
      ensures State() == Released(old(State()), key)
      ensures constructed == old(constructed) && destroyed == old(destroyed) + 1
    {
      ghost var before := State();
      ReleaseKeepsFreeList(before, chain, key);
      ReleaseCount(before, key);
      objects := objects[key := Free(nextAvailable)];
      nextAvailable := key;
      chain := [key] + chain;
      destroyed := destroyed + 1;
    }

    /** The first half of `~Slab`: start with every slot marked in use, then
        walk the free list from `next_available_` and unmark each slot it
        visits. The walk ends because the list is acyclic. */
    method InUseFlags() returns (inUse: array<bool>)
      requires FreeList(objects, nextAvailable, chain)
      ensures fresh(inUse)
      ensures inUse.Length == |objects|
      ensures forall k :: 0 <= k < inUse.Length ==> (inUse[k] <==> objects[k].Used?)
    {
      inUse := new bool[|objects|];
      forall k | 0 <= k < inUse.Length {
        inUse[k] := true;
      }
      var next := nextAvailable;
      ghost var step := 0;
      while next != InvalidSlabKey
        modifies inUse
        invariant 0 <= step <= |chain|
        invariant next == if step < |chain| then chain[step] else InvalidSlabKey
        invariant forall k :: 0 <= k < inUse.Length ==> (inUse[k] <==> k !in chain[..step])
        decreases |chain| - step
      {
        assert chain[..step + 1] == chain[..step] + [next];
        inUse[next] := false;
        next := objects[next].next;
        step := step + 1;
      }
      assert chain[..step] == chain;
    }

    /** The second half of `~Slab`: visit the slots in index order and
        release each one the marks say is in use. `releasedKeys` lists the
        releases made: the keys live on entry, in increasing order. */
    method ReleaseMarked(inUse: seq<bool>) returns (releasedKeys: seq<int>)
      requires Valid()
      requires |inUse| == |objects|
      requires forall k :: 0 <= k < |inUse| ==> (inUse[k] <==> objects[k].Used?)
      modifies this
      ensures Valid()
      ensures |objects| == old(|objects|)
      ensures State() == SweptTo(old(State()), |old(objects)|)
      ensures releasedKeys == LiveKeysBelow(old(objects), |old(objects)|)
      ensures destroyed == old(destroyed) + |releasedKeys| && constructed == old(constructed)
    {
      ghost var objects0 := objects;
      ghost var state0 := State();
      releasedKeys := [];
      var i := 0;
      while i < |objects|
        invariant 0 <= i <= |objects| == |objects0| == |inUse|
        invariant Valid()
        invariant constructed == old(constructed)
        invariant State() == SweptTo(state0, i)
        invariant releasedKeys == LiveKeysBelow(objects0, i)
        invariant destroyed == old(destroyed) + |releasedKeys|
      {
        SweptToFrees(state0, i);
        if inUse[i] {
          Release(i);
          releasedKeys := releasedKeys + [i];
        }
        i := i + 1;
      }
    }

    /** `~Slab`: walk the free list to mark the unused slots, then release
        every other slot in index order. `releasedKeys` lists those
        releases: each slot live on entry, once, and nothing else, so that
        every value ever constructed has now been destroyed exactly once. */
    method Destroy() returns (releasedKeys: seq<int>)
      requires Valid()
      modifies this
      ensures Valid()
      ensures |objects| == old(|objects|)
      ensures forall k :: 0 <= k < |objects| ==> objects[k].Free?
      ensures forall a, b :: 0 <= a < b < |releasedKeys| ==> releasedKeys[a] < releasedKeys[b]
      ensures forall k :: k in releasedKeys <==> k in old(Live(objects))
      ensures destroyed == old(destroyed) + |releasedKeys|
      ensures destroyed == constructed == old(constructed)
    {
      var inUse := InUseFlags();
      ghost var objects0 := objects;
      ghost var state0 := State();
      releasedKeys := ReleaseMarked(inUse[..]);
      SweptToFrees(state0, |objects0|);
      UsedCountAllFree(objects);
      LiveKeysBelowSpec(objects0, |objects0|);
      LiveKeysAreLive(objects0);
    }
  }
}
