/**
 * FixedSizeAllocatorImpl: a closed table of N service slots. Slot k, when
 * occupied, holds the connection to the service named by the class name
 * followed by the decimal form of k; the free slots are kept in a list, and
 * allocation always takes the first entry of that list.
 */
module FixedSize {
  import opened Wrappers
  import opened Decimal
  import opened Connection
  import opened Allocator

  /** The slot table and the free-index list, as values. */
  datatype FixedPool = FixedPool(slots: seq<ChildProcessConnection?>, free: seq<nat>)

  /** The free indices are distinct, and they are exactly the empty slots of [0, N). */
  ghost predicate Partitioned(p: FixedPool) {
    && (forall i :: 0 <= i < |p.free| ==> p.free[i] < |p.slots|)
    && (forall i, j :: 0 <= i < j < |p.free| ==> p.free[i] != p.free[j])
    && (forall k :: 0 <= k < |p.slots| ==> (p.slots[k] == null <==> k in p.free))
  }

  /** No connection occupies two slots. */
  ghost predicate DistinctConnections(slots: seq<ChildProcessConnection?>) {
    forall i, j :: 0 <= i < j < |slots| && slots[i] != null ==> slots[i] != slots[j]
  }

  ghost predicate PoolInvariant(p: FixedPool) {
    Partitioned(p) && DistinctConnections(p.slots)
  }

  /** The indices lo, lo + 1, ..., hi - 1. */
  function Range(lo: nat, hi: nat): (r: seq<nat>)
    ensures |r| == if lo <= hi then hi - lo else 0
    ensures forall k :: 0 <= k < |r| ==> r[k] == lo + k
    ensures forall x :: x in r <==> lo <= x < hi
    decreases hi - lo
  {
    if lo >= hi then [] else [lo] + Range(lo + 1, hi)
  }

  function Nulls(n: nat): (r: seq<ChildProcessConnection?>)
    ensures |r| == n && forall k :: 0 <= k < n ==> r[k] == null
  {
    seq(n, _ => null)
  }

  /** The pool the constructor builds: every slot empty, every index free, in increasing order. */
  function InitialPool(n: nat): (p: FixedPool)
    ensures PoolInvariant(p) && |p.slots| == n && |p.free| == n
  {
    FixedPool(Nulls(n), Range(0, n))
  }

  ghost function OccupiedSlots(slots: seq<ChildProcessConnection?>): set<nat> {
    set k: nat | k < |slots| && slots[k] != null
  }

  ghost function EmptySlots(slots: seq<ChildProcessConnection?>): set<nat> {
    set k: nat | k < |slots| && slots[k] == null
  }

  /** List.indexOf: the first position holding c, or -1 when there is none. */
  function FirstIndexOf(slots: seq<ChildProcessConnection?>, c: ChildProcessConnection): (r: int)
    ensures -1 <= r < |slots|
    ensures r == -1 <==> c !in slots
    ensures r >= 0 ==> slots[r] == c && forall j :: 0 <= j < r ==> slots[j] != c
  {
    if slots == [] then -1
    else if slots[0] == c then 0
    else
      var r := FirstIndexOf(slots[1..], c);
      if r == -1 then -1 else r + 1
  }

  /** A successful doAllocate: c goes into the first free slot, which leaves the free list. */
  function AllocateSlot(p: FixedPool, c: ChildProcessConnection): FixedPool
    requires p.free != [] && p.free[0] < |p.slots|
  {
    FixedPool(p.slots[p.free[0] := c], p.free[1..])
  }

  /**
   * doFree: clear the first slot holding c and append its index to the free
   * list; a connection the pool does not hold changes nothing.
   */
  function ReleaseSlot(p: FixedPool, c: ChildProcessConnection): FixedPool {
    var k := FirstIndexOf(p.slots, c);
    if k == -1 then p else FixedPool(p.slots[k := null], p.free + [k])
  }

  /**
   * Allocation takes a slot that was empty, stores the new connection there
   * and nowhere else, and keeps the free and occupied slots a partition.
   */
  lemma AllocatePreservesInvariant(p: FixedPool, c: ChildProcessConnection)
    requires PoolInvariant(p) && p.free != [] && c !in p.slots
    ensures p.free[0] < |p.slots| && p.slots[p.free[0]] == null
    ensures PoolInvariant(AllocateSlot(p, c))
    ensures |AllocateSlot(p, c).free| == |p.free| - 1
  {
    var p' := AllocateSlot(p, c);
    var s := p.free[0];
    assert s in p.free;
    forall k | 0 <= k < |p'.slots|
      ensures p'.slots[k] == null <==> k in p'.free
    {
      if k == s {
        assert forall i :: 0 <= i < |p'.free| ==> p'.free[i] == p.free[i + 1] != s;
      } else {
        assert k in p.free <==> k in p'.free by {
          if k in p.free {
            var i :| 0 <= i < |p.free| && p.free[i] == k;
            assert i != 0 && p'.free[i - 1] == k;
          }
        }
      }
    }
  }

  /**
   * Releasing keeps the partition, and afterwards the connection is in no
   * slot. Releasing an untracked connection changes nothing.
   */
  lemma ReleasePreservesInvariant(p: FixedPool, c: ChildProcessConnection)
    requires PoolInvariant(p)
    ensures PoolInvariant(ReleaseSlot(p, c))
    ensures c !in ReleaseSlot(p, c).slots
    ensures c !in p.slots ==> ReleaseSlot(p, c) == p
  {
    var k := FirstIndexOf(p.slots, c);
    if k != -1 {
      var p' := ReleaseSlot(p, c);
      assert k !in p.free;
      forall j | 0 <= j < |p'.slots|
        ensures p'.slots[j] == null <==> j in p'.free
      {
        assert j in p'.free <==> j in p.free || j == k;
      }
      forall j | 0 <= j < |p'.slots| ensures p'.slots[j] != c {
      }
    }
  }

  /**
   * Releasing a connection held in slot k clears exactly slot k and appends
   * k at the end of the free list.
   */
  lemma ReleaseFreesExactlyItsSlot(p: FixedPool, c: ChildProcessConnection, k: nat)
    requires PoolInvariant(p) && k < |p.slots| && p.slots[k] == c
    ensures ReleaseSlot(p, c) == FixedPool(p.slots[k := null], p.free + [k])
  {
    var r := FirstIndexOf(p.slots, c);
    assert r != -1;
  }

  /**
   * Freeing the connection an allocation just made restores every slot; the
   * slot index goes from the front of the free list to its back.
   */
  lemma ReleaseUndoesAllocate(p: FixedPool, c: ChildProcessConnection)
    requires PoolInvariant(p) && p.free != [] && c !in p.slots
    ensures p.free[0] < |p.slots|
    ensures ReleaseSlot(AllocateSlot(p, c), c) == FixedPool(p.slots, p.free[1..] + [p.free[0]])
  {
    AllocatePreservesInvariant(p, c);
    var s := p.free[0];
    ReleaseFreesExactlyItsSlot(AllocateSlot(p, c), c, s);
    assert p.slots[s := c][s := null] == p.slots;
  }

  ghost function Elements(xs: seq<nat>): set<nat> {
    set x | x in xs
  }

  lemma {:induction false} DistinctCard(xs: seq<nat>)
    requires forall i, j :: 0 <= i < j < |xs| ==> xs[i] != xs[j]
    ensures |Elements(xs)| == |xs|
  {
    if xs == [] {
      assert Elements(xs) == {};
    } else {
      var init, last := xs[..|xs| - 1], xs[|xs| - 1];
      assert xs == init + [last];
      DistinctCard(init);
      assert Elements(xs) == Elements(init) + {last};
      assert last !in Elements(init);
    }
  }

  /** Extending the table by one slot adds its index to exactly one of the two sets. */
  lemma SlotsSnoc(init: seq<ChildProcessConnection?>, x: ChildProcessConnection?)
    ensures EmptySlots(init + [x]) == EmptySlots(init) + (if x == null then {|init|} else {})
    ensures OccupiedSlots(init + [x]) == OccupiedSlots(init) + (if x != null then {|init|} else {})
  {
    var s := init + [x];
    assert forall k :: 0 <= k < |init| ==> s[k] == init[k];
  }

  lemma {:induction false} EmptyAndOccupiedCard(s: seq<ChildProcessConnection?>)
    ensures |EmptySlots(s)| + |OccupiedSlots(s)| == |s|
  {
    if s == [] {
      assert EmptySlots(s) == {} && OccupiedSlots(s) == {};
    } else {
      var init := s[..|s| - 1];
      assert s == init + [s[|s| - 1]];
      EmptyAndOccupiedCard(init);
      SlotsSnoc(init, s[|s| - 1]);
      assert |init| !in EmptySlots(init) && |init| !in OccupiedSlots(init);
    }
  }

  /** In a partitioned pool the free list and the occupied slots together count N. */
  lemma CountOccupied(p: FixedPool)
    requires Partitioned(p)
    ensures |p.free| + |OccupiedSlots(p.slots)| == |p.slots|
  {
    DistinctCard(p.free);
    assert Elements(p.free) == EmptySlots(p.slots);
    EmptyAndOccupiedCard(p.slots);
  }

  /** Some slot is occupied exactly when the occupied set is non-empty. */
  lemma SomeOccupied(s: seq<ChildProcessConnection?>)
    ensures |OccupiedSlots(s)| > 0 <==> exists k :: 0 <= k < |s| && s[k] != null
  {
    if exists k :: 0 <= k < |s| && s[k] != null {
      var k :| 0 <= k < |s| && s[k] != null;
      assert k as nat in OccupiedSlots(s);
    }
    if |OccupiedSlots(s)| > 0 {
      var k :| k in OccupiedSlots(s);
      assert 0 <= k < |s| && s[k] != null;
    }
  }

  /** Successive successful allocations, each with the next connection of cs. */
  function AllocateEach(p: FixedPool, cs: seq<ChildProcessConnection>): FixedPool
    decreases |cs|
  {
    if cs == [] || p.free == [] || p.free[0] >= |p.slots| then p
    else AllocateEach(AllocateSlot(p, cs[0]), cs[1..])
  }

  lemma {:induction false} AllocateEachFrom(done: seq<ChildProcessConnection?>, cs: seq<ChildProcessConnection>, n: nat)
    requires |done| + |cs| <= n
    ensures AllocateEach(FixedPool(done + Nulls(n - |done|), Range(|done|, n)), cs)
         == FixedPool(done + cs + Nulls(n - |done| - |cs|), Range(|done| + |cs|, n))
    decreases |cs|
  {
    if cs == [] {
      assert done + cs == done;
    } else {
      var p := FixedPool(done + Nulls(n - |done|), Range(|done|, n));
      var done' := done + [cs[0]];
      assert p.free[0] == |done|;
      assert AllocateSlot(p, cs[0]) == FixedPool(done' + Nulls(n - |done'|), Range(|done'|, n));
      AllocateEachFrom(done', cs[1..], n);
      assert done' + cs[1..] == done + cs;
    }
  }

  /**
   * From a fresh pool of N slots, the i-th successful allocation lands in
   * slot i; after N of them the free list is empty, so the next allocation
   * fails.
   */
  lemma AllocateInSlotOrder(n: nat, cs: seq<ChildProcessConnection>)
    requires |cs| <= n
    ensures AllocateEach(InitialPool(n), cs) == FixedPool(cs + Nulls(n - |cs|), Range(|cs|, n))
    ensures |cs| == n ==> AllocateEach(InitialPool(n), cs).free == []
  {
    var none: seq<ChildProcessConnection?> := [];
    assert none + Nulls(n - |none|) == Nulls(n);
    assert InitialPool(n) == FixedPool(none + Nulls(n - |none|), Range(|none|, n));
    AllocateEachFrom(none, cs, n);
    assert none + cs == cs;
  }

  /**
   * A pool of two: two allocations take slots 0 and 1 and exhaust it;
   * freeing the first connection frees slot 0, so the next allocation gets
   * slot 0 and not slot 1.
   */
  lemma PoolOfTwoReusesFreedSlot(c0: ChildProcessConnection, c1: ChildProcessConnection,
                                 c2: ChildProcessConnection)
    ensures AllocateEach(InitialPool(2), [c0, c1]) == FixedPool([c0, c1], [])
    ensures ReleaseSlot(FixedPool([c0, c1], []), c0) == FixedPool([null, c1], [0])
    ensures AllocateSlot(FixedPool([null, c1], [0]), c2) == FixedPool([c2, c1], [])
  {
    AllocateInSlotOrder(2, [c0, c1]);
    assert [c0, c1] + Nulls(0) == [c0, c1];
  }

  /** Arrays.asList(a).indexOf(c), by a linear scan. */
  method IndexOf(a: array<ChildProcessConnection?>, c: ChildProcessConnection) returns (k: int)
    ensures k == FirstIndexOf(a[..], c)
  {
    k := 0;
    while k < a.Length
      invariant 0 <= k <= a.Length
      invariant forall j :: 0 <= j < k ==> a[j] != c
    {
      if a[k] == c {
        return;
      }
      k := k + 1;
    }
    k := -1;
  }

  class FixedSizeAllocator {
    const base: ChildConnectionAllocator
    /** Indices are the service numbers. */
    const slots: array<ChildProcessConnection?>
    /** The free (unbound) service indices, in the order they will be handed out. */
    var freeIndices: seq<nat>

    ghost function Pool(): FixedPool
      reads this, slots
    {
      FixedPool(slots[..], freeIndices)
    }

    /** The service a connection in slot k is bound to: the class name with k appended. */
    function SlotServiceName(k: nat): ComponentName {
      ComponentName(base.packageName, base.serviceClassName + NatToString(k))
    }

    /** c is what doAllocate creates for slot k. */
    ghost predicate CreatedForSlot(c: ChildProcessConnection, k: nat) {
      && c.serviceName == SlotServiceName(k)
      && c.bindToCaller == base.bindToCaller
      && c.bindAsExternalService == base.bindAsExternalService
      && c.instanceName == None
    }

    ghost predicate Valid()
      reads this, slots
    {
      && PoolInvariant(Pool())
      && forall k :: 0 <= k < slots.Length && slots[k] != null ==> CreatedForSlot(slots[k], k)
    }

    constructor (hasFreeSlotCallback: bool, packageName: string, serviceClassName: string,
                 bindToCaller: bool, bindAsExternalService: bool, useStrongBinding: bool,
                 numChildServices: nat)
      ensures Valid() && fresh(base) && fresh(slots)
      ensures base.hasFreeSlotCallback == hasFreeSlotCallback
      ensures base.packageName == packageName && base.serviceClassName == serviceClassName
      ensures base.bindToCaller == bindToCaller && base.bindAsExternalService == bindAsExternalService
      ensures base.useStrongBinding == useStrongBinding
      ensures base.pending == [] && base.trace == []
      ensures Pool() == InitialPool(numChildServices)
    {
      base := new ChildConnectionAllocator(hasFreeSlotCallback, packageName, serviceClassName,
                                           bindToCaller, bindAsExternalService, useStrongBinding);
      slots := new ChildProcessConnection?[numChildServices](_ => null);
      var free: seq<nat> := [];
      var i := 0;
      while i < numChildServices
        invariant 0 <= i <= numChildServices
        invariant |free| == i && forall k :: 0 <= k < i ==> free[k] == k
      {
        free := free + [i];
        i := i + 1;
      }
      freeIndices := free;
      new;
      assert slots[..] == Nulls(numChildServices);
      assert freeIndices == Range(0, numChildServices);
    }

    /**
     * doAllocate: null when no index is free; otherwise the first free index
     * leaves the list, its slot (empty until now) receives a new connection
     * named for that slot, and the connection is returned.
     */
    method DoAllocate() returns (c: ChildProcessConnection?)
      requires Valid()
      modifies this, slots
      ensures Valid()
      ensures old(freeIndices) == [] ==> c == null && Pool() == old(Pool())
      ensures old(freeIndices) != [] ==>
        && c != null && fresh(c)
        && old(freeIndices)[0] < slots.Length && old(slots[freeIndices[0]]) == null
        && Pool() == AllocateSlot(old(Pool()), c)
        && CreatedForSlot(c, old(freeIndices)[0])
    {
      if freeIndices == [] {
        return null;
      }
      ghost var before := Pool();
      var slot := freeIndices[0];
      freeIndices := freeIndices[1..];
      var name := ComponentName(base.packageName, base.serviceClassName + NatToString(slot));
      var conn := new ChildProcessConnection(name, base.bindToCaller, base.bindAsExternalService, None);
      AllocatePreservesInvariant(before, conn);
      slots[slot] := conn;
      c := conn;
    }

    /**
     * doFree: a tracked connection's slot is cleared and its index appended
     * to the free list; an untracked one is ignored (the source logs it).
     */
    method DoFree(c: ChildProcessConnection)
      requires Valid()
      modifies this, slots
      ensures Valid()
      ensures Pool() == ReleaseSlot(old(Pool()), c)
    {
      ReleasePreservesInvariant(Pool(), c);
      var slot := IndexOf(slots, c);
      if slot != -1 {
        slots[slot] := null;
        freeIndices := freeIndices + [slot];
      }
    }

    /**
     * free: release the slot, then run the oldest pending request if there
     * is one, notifying again only when requests are still waiting.
     */
    method Free(c: ChildProcessConnection) returns (run: Option<RequestId>)
      requires Valid()
      modifies this, slots, base
      ensures Valid()
      ensures Pool() == ReleaseSlot(old(Pool()), c)
      ensures run == Oldest(old(base.pending))
      ensures base.State() == Dispatch(old(base.State()), base.hasFreeSlotCallback)
    {
      DoFree(c);
      run := base.DispatchNext();
    }

    function IsFreeConnectionAvailable(): (r: bool)
      reads this, slots
      requires Valid()
      ensures r <==> exists k :: 0 <= k < slots.Length && slots[k] == null
    {
      assert freeIndices != [] ==> slots[freeIndices[0]] == null;
      freeIndices != []
    }

    function NumberOfServices(): (r: int)
      reads this, slots
      requires Valid()
      ensures r == |freeIndices| + |OccupiedSlots(slots[..])|
    {
      CountOccupied(Pool());
      slots.Length
    }

    function AllocatedConnectionsCount(): (r: int)
      reads this, slots
      requires Valid()
      ensures r == |OccupiedSlots(slots[..])|
    {
      CountOccupied(Pool());
      slots.Length - |freeIndices|
    }

    function AnyConnectionAllocated(): (r: bool)
      reads this, slots
      requires Valid()
      ensures r <==> exists k :: 0 <= k < slots.Length && slots[k] != null
    {
      CountOccupied(Pool());
      SomeOccupied(slots[..]);
      |freeIndices| < slots.Length
    }

    function ConnectionAtSlot(slotNumber: nat): (c: ChildProcessConnection?)
      reads this, slots
      requires Valid() && slotNumber < slots.Length
      ensures c == null <==> slotNumber in freeIndices
      ensures c != null ==> CreatedForSlot(c, slotNumber)
    {
      slots[slotNumber]
    }
  }
}
