/**
 * VariableSizeAllocatorImpl: an open set of live connections bounded by a
 * maximum, all bound to one service; each allocation is told apart by an
 * instance name taken from a counter that only ever grows.
 */
module VariableSize {
  import opened Wrappers
  import opened Decimal
  import opened Connection
  import opened Allocator

  /** The instance names of the first n allocations. */
  ghost function IssuedBelow(n: nat): set<string> {
    set k: nat | k < n :: NatToString(k)
  }

  /**
   * The name the counter gives next was never given before, and once given
   * it joins the names issued so far.
   */
  lemma NextNameIsNew(n: nat)
    ensures NatToString(n) !in IssuedBelow(n)
    ensures IssuedBelow(n + 1) == IssuedBelow(n) + {NatToString(n)}
  {
    forall k: nat | k < n
      ensures NatToString(k) != NatToString(n)
    {
      NatToStringInjective(k, n);
    }
    assert NatToString(n) in IssuedBelow(n + 1);
  }

  /** Every live connection carries an instance name issued by the first n allocations. */
  ghost predicate NamesIssuedBelow(live: set<ChildProcessConnection>, n: nat) {
    forall c :: c in live ==> c.instanceName.Some? && c.instanceName.value in IssuedBelow(n)
  }

  /** No two live connections share an instance name. */
  ghost predicate DistinctInstanceNames(live: set<ChildProcessConnection>) {
    forall c, d :: c in live && d in live && c != d ==> c.instanceName != d.instanceName
  }

  /**
   * Adding a connection named by the counter's current value keeps the live
   * names issued and distinct, once the counter has moved on.
   */
  lemma AddNamedConnection(live: set<ChildProcessConnection>, n: nat, conn: ChildProcessConnection)
    requires NamesIssuedBelow(live, n) && DistinctInstanceNames(live)
    requires conn.instanceName == Some(NatToString(n))
    ensures conn !in live
    ensures NamesIssuedBelow(live + {conn}, n + 1) && DistinctInstanceNames(live + {conn})
  {
    NextNameIsNew(n);
  }

  class VariableSizeAllocator {
    const base: ChildConnectionAllocator
    const maxAllocated: nat
    var allocatedConnections: set<ChildProcessConnection>
    var nextInstance: nat

    /** The one service every connection of this pool is bound to. */
    function ServiceName(): ComponentName {
      ComponentName(base.packageName, base.serviceClassName)
    }

    ghost function IssuedNames(): set<string>
      reads this
    {
      IssuedBelow(nextInstance)
    }

    /** c is what doAllocate creates: bound to the pool's service, with an instance name. */
    ghost predicate CreatedByPool(c: ChildProcessConnection) {
      && c.serviceName == ServiceName()
      && c.bindToCaller == base.bindToCaller
      && c.bindAsExternalService == base.bindAsExternalService
      && c.instanceName.Some?
    }

    ghost predicate Valid()
      reads this
    {
      && 0 < maxAllocated
      && |allocatedConnections| <= maxAllocated
      && (forall c :: c in allocatedConnections ==> CreatedByPool(c))
      && NamesIssuedBelow(allocatedConnections, nextInstance)
      && DistinctInstanceNames(allocatedConnections)
    }

    /**
     * The service class name is the given one followed by a suffix chosen
     * once by the platform check (a parameter here).
     */
    constructor (hasFreeSlotCallback: bool, packageName: string, serviceClassName: string,
                 serviceSuffix: string, bindToCaller: bool, bindAsExternalService: bool,
                 useStrongBinding: bool, maxAllocated: nat)
      requires maxAllocated > 0
      ensures Valid() && fresh(base)
      ensures base.hasFreeSlotCallback == hasFreeSlotCallback
      ensures base.packageName == packageName
      ensures base.serviceClassName == serviceClassName + serviceSuffix
      ensures base.bindToCaller == bindToCaller && base.bindAsExternalService == bindAsExternalService
      ensures base.useStrongBinding == useStrongBinding
      ensures base.pending == [] && base.trace == []
      ensures this.maxAllocated == maxAllocated && allocatedConnections == {} && nextInstance == 0
    {
      base := new ChildConnectionAllocator(hasFreeSlotCallback, packageName,
                                           serviceClassName + serviceSuffix, bindToCaller,
                                           bindAsExternalService, useStrongBinding);
      this.maxAllocated := maxAllocated;
      allocatedConnections := {};
      nextInstance := 0;
    }

    /**
     * doAllocate: null once the live set has reached the maximum; otherwise
     * one new connection joins the live set, named by the current counter
     * value, a name never issued before, and the counter moves on by one.
     */
    method DoAllocate() returns (c: ChildProcessConnection?)
      requires Valid()
      modifies this
      ensures Valid()
      ensures old(|allocatedConnections|) >= maxAllocated ==>
        && c == null
        && allocatedConnections == old(allocatedConnections)
        && nextInstance == old(nextInstance)
      ensures old(|allocatedConnections|) < maxAllocated ==>
        && c != null && fresh(c) && CreatedByPool(c)
        && allocatedConnections == old(allocatedConnections) + {c}
        && nextInstance == old(nextInstance) + 1
        && c.instanceName == Some(NatToString(old(nextInstance)))
        && c.instanceName.value !in old(IssuedNames())
        && IssuedNames() == old(IssuedNames()) + {c.instanceName.value}
    {
      if |allocatedConnections| >= maxAllocated {
        return null;
      }
      var live := allocatedConnections;
      var instanceName := NatToString(nextInstance);
      NextNameIsNew(nextInstance);
      var conn := new ChildProcessConnection(ServiceName(), base.bindToCaller,
                                             base.bindAsExternalService, Some(instanceName));
      AddNamedConnection(live, nextInstance, conn);
      nextInstance := nextInstance + 1;
      allocatedConnections := live + {conn};
      c := conn;
    }

    /** doFree: the connection leaves the live set; the counter is not touched. */
    method DoFree(c: ChildProcessConnection)
      requires Valid()
      modifies this
      ensures Valid()
      ensures allocatedConnections == old(allocatedConnections) - {c} && nextInstance == old(nextInstance)
    {
      allocatedConnections := allocatedConnections - {c};
    }

    /**
     * free: release the connection, then run the oldest pending request if
     * there is one, notifying again only when requests are still waiting.
     */
    method Free(c: ChildProcessConnection) returns (run: Option<RequestId>)
      requires Valid()
      modifies this, base
      ensures Valid()
      ensures allocatedConnections == old(allocatedConnections) - {c} && nextInstance == old(nextInstance)
      ensures run == Oldest(old(base.pending))
      ensures base.State() == Dispatch(old(base.State()), base.hasFreeSlotCallback)
    {
      DoFree(c);
      run := base.DispatchNext();
    }

    /** The pool has no fixed number of services: the sentinel -1 says so. */
    function NumberOfServices(): (r: int)
      ensures r == -1
    {
      -1
    }

    function AllocatedConnectionsCount(): (r: int)
      reads this
      requires Valid()
      ensures r == |allocatedConnections| && 0 <= r <= maxAllocated
    {
      |allocatedConnections|
    }

    function AnyConnectionAllocated(): (r: bool)
      reads this
      ensures r <==> allocatedConnections != {}
    {
      |allocatedConnections| > 0
    }
  }
}
