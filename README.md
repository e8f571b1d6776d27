# ChildConnectionAllocator, modelled in Dafny

This project models the connection-slot allocator that Chromium's Android
process launcher uses to hand out child-process service connections
(`ChildConnectionAllocator` and its two pool strategies).

- **Shared part** (`Allocator.ChildConnectionAllocator`): the configuration (package, service class, binding flags, whether a free-slot callback exists), the FIFO queue of allocation requests waiting for a slot, and the edge-triggered free-slot callback. `queueAllocation` and the queue-draining half of `free` are modelled, along with the values it runs on (`Backlog`, `Enqueue`, `Dispatch`). Waiting requests are abstract `RequestId`s. Running a request and running the callback are recorded as `Event`s in a trace, so order and counts can be stated.
- **Fixed-size pool** (`FixedSize.FixedSizeAllocator`): an `array` of N slots plus the ordered list of free indices. Allocation takes the first free index; the service name is the class name followed by the decimal slot number. `doFree` scans the array for the connection (`IndexOf`, a loop), clears that slot and appends the index to the free list. The methods are proved against the value model `FixedPool` / `AllocateSlot` / `ReleaseSlot`. The lemmas beside it show that the free list and the occupied slots always partition `[0, N)`.
- **Variable-size pool** (`VariableSize.VariableSizeAllocator`): a set of live connections bounded by a maximum, plus a counter that yields a fresh instance name for every allocation. The model proves that live instance names are distinct and that a name is never reissued.
- **Connections** (`Connection.ChildProcessConnection`): opaque objects that record the service name, binding flags and instance name they were created with. Identity is by reference, as with Java's `indexOf`/`remove`. A successful allocation creates a fresh object; this stands in for the connection factory.
- **Decimal names** (`Decimal`): the decimal rendering of slot numbers and counter values. A parser inverts it, which shows that different numbers give different names.
- **Counter as declared** (`InstanceCounter`): the Java `int` counter with its wrap-around, kept apart from the pool (see Findings).

`free` in the source calls the strategy's `doFree` and then drains the queue. Here each pool's `Free` method calls its own `DoFree`, then the shared part's `DispatchNext`; the shared part is a field `base` of each pool. Source line numbers refer to `android/java/src/org/chromium/base/process_launcher/ChildConnectionAllocator.java`.

## Model

| member | source | states |
|---|---|---|
| Allocator.ChildConnectionAllocator.constructor | android/java/src/org/chromium/base/process_launcher/ChildConnectionAllocator.java:156-167 | every configuration field holds the given value; the queue and trace start empty |
| Allocator.ChildConnectionAllocator.QueueAllocation | android/java/src/org/chromium/base/process_launcher/ChildConnectionAllocator.java:257-262 | the new state is `Enqueue` of the old: the request is appended at the back, and the callback fires only on the empty-to-non-empty edge |
| Allocator.ChildConnectionAllocator.DispatchNext | android/java/src/org/chromium/base/process_launcher/ChildConnectionAllocator.java:250-254 | returns the oldest pending request (none on an empty queue); the new state is `Dispatch` of the old |
| Allocator.EnqueueAppendsAndNotifiesOnEdge | android/java/src/org/chromium/base/process_launcher/ChildConnectionAllocator.java:257-262 | queueing appends at the back and runs nothing; it adds exactly one notification if and only if the queue was empty and a callback exists |
| Allocator.DispatchRunsOldest | android/java/src/org/chromium/base/process_launcher/ChildConnectionAllocator.java:246-255 | an empty queue is left unchanged; otherwise exactly the oldest request runs, once, the rest stays queued in order, and one notification is added only if requests remain |
| Allocator.ApplyIsFifo | android/java/src/org/chromium/base/process_launcher/ChildConnectionAllocator.java:246-262 | one queue or free step keeps "requests run, then requests waiting" equal to its old value extended by what the step queued |
| Allocator.ReplayIsFifo | android/java/src/org/chromium/base/process_launcher/ChildConnectionAllocator.java:246-262 | over any sequence of queueAllocation and free calls, the requests run followed by those still waiting are the initial ones followed by those queued, in order: FIFO, each request run at most once |
| Allocator.ReplayNotifiesOncePerOldest | android/java/src/org/chromium/base/process_launcher/ChildConnectionAllocator.java:246-262 | over any sequence of calls with a callback, notifications match exactly the times a request became the oldest waiting one; without a callback there are none |
| Allocator.OneQueuedRequestNotifiesOnce | android/java/src/org/chromium/base/process_launcher/ChildConnectionAllocator.java:250-261 | one request queued onto an empty queue notifies once, and the free that runs it does not notify again |
| Allocator.ThreeQueuedRequestsRunInOrder | android/java/src/org/chromium/base/process_launcher/ChildConnectionAllocator.java:250-261 | three queued requests run in order 1, 2, 3, one per free, with the notifications the source fires |
| Connection.ChildProcessConnection.constructor | android/java/src/org/chromium/base/process_launcher/ChildConnectionAllocator.java:319-321 | a new connection records the service name, binding flags and instance name it is created with |
| Decimal.NatToString | android/java/src/org/chromium/base/process_launcher/ChildConnectionAllocator.java:317 | the decimal form of a number is a non-empty string of digits, starting with '0' only for zero, one digit exactly below ten |
| Decimal.ParseNatToString | android/java/src/org/chromium/base/process_launcher/ChildConnectionAllocator.java:317 | parsing the decimal form gives the number back |
| Decimal.NatToStringInjective | android/java/src/org/chromium/base/process_launcher/ChildConnectionAllocator.java:410 | two numbers have the same decimal form if and only if they are equal |
| Decimal.SuffixedNamesDistinct | android/java/src/org/chromium/base/process_launcher/ChildConnectionAllocator.java:317 | different slot numbers give different service names for the same class name |
| FixedSize.InitialPool | android/java/src/org/chromium/base/process_launcher/ChildConnectionAllocator.java:301-306 | the pool a constructor builds (all slots empty, indices 0..N-1 free) satisfies the pool invariant |
| FixedSize.Range | android/java/src/org/chromium/base/process_launcher/ChildConnectionAllocator.java:304-306 | the initial free list holds lo..hi-1 in increasing order, each exactly once |
| FixedSize.FirstIndexOf | android/java/src/org/chromium/base/process_launcher/ChildConnectionAllocator.java:332 | indexOf: -1 exactly when the connection is absent, otherwise the first position holding it |
| FixedSize.IndexOf | android/java/src/org/chromium/base/process_launcher/ChildConnectionAllocator.java:332 | the linear scan over the slot array returns `FirstIndexOf` of its contents |
| FixedSize.AllocatePreservesInvariant | android/java/src/org/chromium/base/process_launcher/ChildConnectionAllocator.java:315-322 | the first free index is in range and its slot was empty; after allocation the free list is one shorter and still partitions `[0, N)` with the occupied slots, with no connection in two slots |
| FixedSize.ReleasePreservesInvariant | android/java/src/org/chromium/base/process_launcher/ChildConnectionAllocator.java:329-343 | doFree keeps the partition and leaves the connection in no slot; freeing an untracked connection changes nothing |
| FixedSize.ReleaseFreesExactlyItsSlot | android/java/src/org/chromium/base/process_launcher/ChildConnectionAllocator.java:336-339 | freeing the connection in slot k clears exactly slot k and appends k at the end of the free list |
| FixedSize.ReleaseUndoesAllocate | android/java/src/org/chromium/base/process_launcher/ChildConnectionAllocator.java:310-343 | freeing the connection just allocated restores every slot; its index moves from the front of the free list to the back |
| FixedSize.CountOccupied | android/java/src/org/chromium/base/process_launcher/ChildConnectionAllocator.java:356-358 | in a partitioned pool the free list length plus the number of occupied slots is N, so N - free-list length counts the allocated connections |
| FixedSize.SomeOccupied | android/java/src/org/chromium/base/process_launcher/ChildConnectionAllocator.java:366-368 | the set of occupied slots is non-empty if and only if some slot holds a connection |
| FixedSize.AllocateInSlotOrder | android/java/src/org/chromium/base/process_launcher/ChildConnectionAllocator.java:303-315 | from a fresh pool the i-th allocation takes slot i; after N allocations the free list is empty |
| FixedSize.PoolOfTwoReusesFreedSlot | android/java/src/org/chromium/base/process_launcher/ChildConnectionAllocator.java:310-339 | in a pool of two, two allocations take slots 0 and 1 and exhaust it; freeing slot 0 lets the next allocation take slot 0 again |
| FixedSize.FixedSizeAllocator.constructor | android/java/src/org/chromium/base/process_launcher/ChildConnectionAllocator.java:295-307 | the filling loop leaves every slot empty and every index free in increasing order (`InitialPool`); the configuration is passed to the shared part |
| FixedSize.FixedSizeAllocator.DoAllocate | android/java/src/org/chromium/base/process_launcher/ChildConnectionAllocator.java:310-326 | with no free index: returns null and changes nothing; otherwise returns a fresh connection in the first free slot, which was empty, named for that slot, and the pool becomes `AllocateSlot` of the old one; the invariant is kept |
| FixedSize.FixedSizeAllocator.DoFree | android/java/src/org/chromium/base/process_launcher/ChildConnectionAllocator.java:329-343 | the pool becomes `ReleaseSlot` of the old one; the invariant is kept |
| FixedSize.FixedSizeAllocator.Free | android/java/src/org/chromium/base/process_launcher/ChildConnectionAllocator.java:246-255 | releases the slot as doFree does, then runs the oldest pending request, and the queue state becomes `Dispatch` of the old |
| FixedSize.FixedSizeAllocator.IsFreeConnectionAvailable | android/java/src/org/chromium/base/process_launcher/ChildConnectionAllocator.java:346-348 | true if and only if some slot is empty |
| FixedSize.FixedSizeAllocator.NumberOfServices | android/java/src/org/chromium/base/process_launcher/ChildConnectionAllocator.java:351-353 | the number of services is the free slots plus the occupied slots |
| FixedSize.FixedSizeAllocator.AllocatedConnectionsCount | android/java/src/org/chromium/base/process_launcher/ChildConnectionAllocator.java:356-358 | N minus the free-list length is exactly the number of occupied slots |
| FixedSize.FixedSizeAllocator.AnyConnectionAllocated | android/java/src/org/chromium/base/process_launcher/ChildConnectionAllocator.java:366-368 | free-list length below N holds if and only if some slot holds a connection |
| FixedSize.FixedSizeAllocator.ConnectionAtSlot | android/java/src/org/chromium/base/process_launcher/ChildConnectionAllocator.java:361-363 | the slot is empty exactly when its index is on the free list; a connection found there is the one created for that slot |
| VariableSize.NextNameIsNew | android/java/src/org/chromium/base/process_launcher/ChildConnectionAllocator.java:410-411 | the name the counter gives next was never given before, and it joins the names issued so far |
| VariableSize.AddNamedConnection | android/java/src/org/chromium/base/process_launcher/ChildConnectionAllocator.java:410-416 | adding a connection named by the current counter adds a new member, and the live names stay issued and distinct once the counter moves on |
| VariableSize.VariableSizeAllocator.constructor | android/java/src/org/chromium/base/process_launcher/ChildConnectionAllocator.java:393-401 | requires a positive maximum; the service class is the given name plus the suffix; the live set is empty and the counter is 0 |
| VariableSize.VariableSizeAllocator.DoAllocate | android/java/src/org/chromium/base/process_launcher/ChildConnectionAllocator.java:404-418 | at the maximum: returns null and changes nothing; otherwise exactly one fresh connection joins the live set, named by the decimal form of the counter, a name never issued before, and the counter goes up by one; live-set size stays at most the maximum and live names stay distinct |
| VariableSize.VariableSizeAllocator.DoFree | android/java/src/org/chromium/base/process_launcher/ChildConnectionAllocator.java:421-423 | removes the connection from the live set and leaves the counter unchanged, so freed names are never reissued |
| VariableSize.VariableSizeAllocator.Free | android/java/src/org/chromium/base/process_launcher/ChildConnectionAllocator.java:246-255 | removes the connection as doFree does, then runs the oldest pending request, and the queue state becomes `Dispatch` of the old |
| VariableSize.VariableSizeAllocator.NumberOfServices | android/java/src/org/chromium/base/process_launcher/ChildConnectionAllocator.java:426-428 | always -1: the pool has no fixed size |
| VariableSize.VariableSizeAllocator.AllocatedConnectionsCount | android/java/src/org/chromium/base/process_launcher/ChildConnectionAllocator.java:431-433 | the live-set size, never above the maximum |
| VariableSize.VariableSizeAllocator.AnyConnectionAllocated | android/java/src/org/chromium/base/process_launcher/ChildConnectionAllocator.java:436-438 | true if and only if the live set is non-empty |
| InstanceCounter.JavaIntToString | android/java/src/org/chromium/base/process_launcher/ChildConnectionAllocator.java:410 | Integer.toString gives a non-empty string that starts with '-' exactly for negative values |
| InstanceCounter.CounterAsWrittenWraps | android/java/src/org/chromium/base/process_launcher/ChildConnectionAllocator.java:410-411 | after k allocations the Java int counter holds k reduced into the int range, two's-complement style |
| InstanceCounter.NegativeInstanceNameAsWritten | android/java/src/org/chromium/base/process_launcher/ChildConnectionAllocator.java:410-411 | as written, after 2^31 allocations the counter is -2^31 and the next instance name starts with '-' |
| InstanceCounter.InstanceNameReissuedAsWritten | android/java/src/org/chromium/base/process_launcher/ChildConnectionAllocator.java:410-411 | as written, the allocation after 2^32 others gets the same instance name as the very first |

## Left out

- `allocate` is not modelled: its wrapping of the service callbacks, the `post`/`postDelayed` re-dispatch and `connection.start` (lines 170-243) are platform scheduling and foreign calls. The model keeps only what the wrapper does to the allocator: a start-failed or died event ends in one later `free` of that connection, which is the `Free` method.
- The factory methods `create`, `createVariableSize`, `createFixedForTesting`, `createVariableSizeForTesting` and `checkServiceExists` (lines 79-154) read Android package metadata and are not modelled. Their effect on the variable pool's service name is the constructor's `serviceSuffix` parameter.
- `getServiceSuffix` (lines 377-391) depends on the SDK version and the user manager. It is the constant parameter `serviceSuffix` of `VariableSize.VariableSizeAllocator.constructor`.
- The launcher-thread check `isRunningOnLauncherThread` (lines 279-281) is left out. Every entry point runs on one thread, so the model is sequential.
- `Log` calls are left out; they have no effect on the state.
- `setConnectionFactoryForTesting`, and the `ConnectionFactory` with its context and service bundle, are left out. Each successful allocation creates a fresh `ChildProcessConnection` that records what the default factory is given.
- Pending requests are abstract `RequestId`s, and running one is an event in the trace. A real `Runnable` may call back into the allocator while it runs; that re-entry is not modelled.
- `FixedSize.FixedSizeAllocator.DoFree` does not model the debug-build `assert false` for a connection the pool does not hold (lines 333-335). It models the release build, which logs and changes nothing. The `assert` on line 338 is proved, as part of the invariant.
- `FixedSize.FixedSizeAllocator.ConnectionAtSlot` requires an in-range slot number; Java throws an exception for an out-of-range one.
- `VariableSize.VariableSizeAllocator.DoAllocate` counts with an unbounded integer, not the source's Java `int` (see Findings). The `int` counter is modelled separately in `InstanceCounter`.
- The order of the fixed pool's free indices is followed as the code has it: the first index is taken, and freed indices go to the back. Descriptions of this pool that call the choice unspecified are not followed.

## Findings

| source | as written | input that shows it | evidently intended | confidence | as-written member | corrected member |
|---|---|---|---|---|---|---|
| android/java/src/org/chromium/base/process_launcher/ChildConnectionAllocator.java:410-411 | `mNextInstance` is a Java `int` (line 375), and `mNextInstance++` wraps from 2^31 - 1 to -2^31 | 2^31 allocations give the name "-2147483648". 2^32 allocations bring the counter back to 0, so the next allocation reissues "0", the name of the very first one | instance names are non-negative, never repeat, and are never reused even after a free | low (needs 2^32 allocations in one process); not executed | InstanceCounter.InstanceNameReissuedAsWritten | VariableSize.VariableSizeAllocator.DoAllocate |
