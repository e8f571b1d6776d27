/**
 * The part of the connection allocator that both pool strategies share: the
 * configuration, the FIFO queue of allocation requests waiting for a free slot
 * and the edge-triggered free-slot callback.
 *
 * A waiting request (a Runnable in the source) is an abstract RequestId, and
 * running it, like running the callback, is recorded as an Event in a trace,
 * so that the order in which they happen can be stated.
 */
module Allocator {
  import opened Wrappers

  type RequestId = nat

  datatype Event = RequestRun(request: RequestId) | FreeSlotNotified

  /** The pending requests, oldest first, and everything run so far. */
  datatype Backlog = Backlog(pending: seq<RequestId>, trace: seq<Event>)

  /** queueAllocation: append at the back; notify only when the queue was empty. */
  function Enqueue(b: Backlog, r: RequestId, hasCallback: bool): Backlog {
    Backlog(b.pending + [r],
            b.trace + (if b.pending == [] && hasCallback then [FreeSlotNotified] else []))
  }

  /**
   * What free does once the slot itself is released: nothing on an empty
   * queue; otherwise run the oldest request and notify again only if
   * requests are still waiting after it.
   */
  function Dispatch(b: Backlog, hasCallback: bool): Backlog {
    if b.pending == [] then b
    else
      var rest := b.pending[1..];
      Backlog(rest, b.trace + [RequestRun(b.pending[0])]
                    + (if rest != [] && hasCallback then [FreeSlotNotified] else []))
  }

  /** The request that free runs next, if any. */
  function Oldest(pending: seq<RequestId>): Option<RequestId> {
    if pending == [] then None else Some(pending[0])
  }

  /** The requests run in a trace, in the order they ran. */
  function Runs(t: seq<Event>): seq<RequestId> {
    if t == [] then []
    else (if t[0].RequestRun? then [t[0].request] else []) + Runs(t[1..])
  }

  /** How many times the free-slot callback ran in a trace. */
  function Notifications(t: seq<Event>): nat {
    if t == [] then 0
    else (if t[0].FreeSlotNotified? then 1 else 0) + Notifications(t[1..])
  }

  lemma {:induction false} RunsAppend(s: seq<Event>, t: seq<Event>)
    ensures Runs(s + t) == Runs(s) + Runs(t)
    ensures Notifications(s + t) == Notifications(s) + Notifications(t)
  {
    if s != [] {
      assert (s + t)[1..] == s[1..] + t;
      RunsAppend(s[1..], t);
    } else {
      assert s + t == t;
    }
  }

  /**
   * queueAllocation keeps the oldest-first order, runs nothing, and fires the
   * callback exactly once if and only if the queue was empty before.
   */
  lemma EnqueueAppendsAndNotifiesOnEdge(b: Backlog, r: RequestId, hasCallback: bool)
    ensures Enqueue(b, r, hasCallback).pending == b.pending + [r]
    ensures Runs(Enqueue(b, r, hasCallback).trace) == Runs(b.trace)
    ensures Notifications(Enqueue(b, r, hasCallback).trace)
         == Notifications(b.trace) + (if b.pending == [] && hasCallback then 1 else 0)
  {
    var extra: seq<Event> := if b.pending == [] && hasCallback then [FreeSlotNotified] else [];
    RunsAppend(b.trace, extra);
  }

  /**
   * The dispatch after a release runs exactly the oldest request, once, and
   * fires the callback once more only when requests remain after it.
   */
  lemma DispatchRunsOldest(b: Backlog, hasCallback: bool)
    ensures b.pending == [] ==> Dispatch(b, hasCallback) == b
    ensures b.pending != [] ==>
      && Dispatch(b, hasCallback).pending == b.pending[1..]
      && Runs(Dispatch(b, hasCallback).trace) == Runs(b.trace) + [b.pending[0]]
      && Notifications(Dispatch(b, hasCallback).trace)
         == Notifications(b.trace) + (if |b.pending| > 1 && hasCallback then 1 else 0)
  {
    if b.pending != [] {
      var rest := b.pending[1..];
      var extra: seq<Event> := if rest != [] && hasCallback then [FreeSlotNotified] else [];
      RunsAppend(b.trace, [RequestRun(b.pending[0])]);
      RunsAppend(b.trace + [RequestRun(b.pending[0])], extra);
      assert Runs([RequestRun(b.pending[0])]) == [b.pending[0]];
    }
  }

  /** One entry point of the shared part, applied to a backlog. */
  datatype Step = Queue(request: RequestId) | Release

  function Apply(b: Backlog, step: Step, hasCallback: bool): Backlog {
    match step
    case Queue(r) => Enqueue(b, r, hasCallback)
    case Release => Dispatch(b, hasCallback)
  }

  function Replay(b: Backlog, steps: seq<Step>, hasCallback: bool): Backlog
    decreases |steps|
  {
    if steps == [] then b else Replay(Apply(b, steps[0], hasCallback), steps[1..], hasCallback)
  }

  /** The requests a sequence of steps queues, in order. */
  function Queued(steps: seq<Step>): seq<RequestId> {
    if steps == [] then []
    else (if steps[0].Queue? then [steps[0].request] else []) + Queued(steps[1..])
  }

  function HasOldest(pending: seq<RequestId>): nat {
    if pending == [] then 0 else 1
  }

  /**
   * FIFO: over any sequence of queueAllocation and free calls, the requests
   * run so far followed by those still waiting are exactly the requests
   * waiting at the start followed by those queued, in the same order. So each
   * request runs at most once, and in the order it was queued.
   */
  lemma {:induction false} ReplayIsFifo(b: Backlog, steps: seq<Step>, hasCallback: bool)
    ensures Runs(Replay(b, steps, hasCallback).trace) + Replay(b, steps, hasCallback).pending
         == Runs(b.trace) + b.pending + Queued(steps)
    decreases |steps|
  {
    if steps != [] {
      var b1 := Apply(b, steps[0], hasCallback);
      var last := Replay(b1, steps[1..], hasCallback);
      assert Replay(b, steps, hasCallback) == last;
      ReplayIsFifo(b1, steps[1..], hasCallback);
      ApplyIsFifo(b, steps[0], hasCallback);
      var start, first, rest := Runs(b.trace) + b.pending, Queued([steps[0]]), Queued(steps[1..]);
      assert Queued(steps) == first + rest;
      assert Runs(last.trace) + last.pending == (start + first) + rest;
    }
  }

  lemma ApplyIsFifo(b: Backlog, step: Step, hasCallback: bool)
    ensures Runs(Apply(b, step, hasCallback).trace) + Apply(b, step, hasCallback).pending
         == Runs(b.trace) + b.pending + Queued([step])
  {
    var b1 := Apply(b, step, hasCallback);
    match step
    case Queue(r) =>
      EnqueueAppendsAndNotifiesOnEdge(b, r, hasCallback);
      assert Queued([step]) == [r];
    case Release =>
      DispatchRunsOldest(b, hasCallback);
      assert Queued([step]) == [];
      if b.pending != [] {
        assert b.pending == [b.pending[0]] + b.pending[1..];
        assert Runs(b1.trace) + b1.pending == Runs(b.trace) + [b.pending[0]] + b.pending[1..];
      }
  }

  /**
   * The callback is edge-triggered: it fires once each time a request becomes
   * the oldest waiting one, whether by being queued onto an empty queue or by
   * the request ahead of it being run. Counted over any sequence of steps:
   * notifications plus the oldest request waiting at the start equal the
   * requests run plus the oldest request still waiting at the end. Without a
   * callback nothing is ever notified.
   */
  lemma {:induction false} ReplayNotifiesOncePerOldest(b: Backlog, steps: seq<Step>, hasCallback: bool)
    ensures hasCallback ==>
      Notifications(Replay(b, steps, hasCallback).trace) + |Runs(b.trace)| + HasOldest(b.pending)
      == Notifications(b.trace) + |Runs(Replay(b, steps, hasCallback).trace)|
         + HasOldest(Replay(b, steps, hasCallback).pending)
    ensures !hasCallback ==>
      Notifications(Replay(b, steps, hasCallback).trace) == Notifications(b.trace)
    decreases |steps|
  {
    if steps != [] {
      var b1 := Apply(b, steps[0], hasCallback);
      ReplayNotifiesOncePerOldest(b1, steps[1..], hasCallback);
      match steps[0]
      case Queue(r) =>
        EnqueueAppendsAndNotifiesOnEdge(b, r, hasCallback);
      case Release =>
        DispatchRunsOldest(b, hasCallback);
    }
  }

  /**
   * One request queued on an exhausted pool notifies once; the free that runs
   * it leaves the queue empty and so does not notify again.
   */
  lemma OneQueuedRequestNotifiesOnce(r: RequestId)
    ensures Dispatch(Enqueue(Backlog([], []), r, true), true) == Backlog([], [FreeSlotNotified, RequestRun(r)])
  {
  }

  /**
   * Three requests queued behind an exhausted pool run in queue order, one
   * per free, with a notification when the first is queued and after each
   * free that leaves a request waiting.
   */
  lemma ThreeQueuedRequestsRunInOrder()
    ensures Replay(Backlog([], []), [Queue(1), Queue(2), Queue(3), Release, Release, Release], true)
         == Backlog([], [FreeSlotNotified, RequestRun(1), FreeSlotNotified, RequestRun(2),
                         FreeSlotNotified, RequestRun(3)])
  {
  }

  /**
   * The state of ChildConnectionAllocator itself: its configuration, the
   * queue of pending allocations and the trace of what it has run. The
   * strategy-specific slot bookkeeping lives in the pool classes, each of
   * which owns one of these.
   */
  class ChildConnectionAllocator {
    const hasFreeSlotCallback: bool
    const packageName: string
    const serviceClassName: string
    const bindToCaller: bool
    const bindAsExternalService: bool
    const useStrongBinding: bool

    var pending: seq<RequestId>
    var trace: seq<Event>

    ghost function State(): Backlog
      reads this
    {
      Backlog(pending, trace)
    }

    constructor (hasFreeSlotCallback: bool, packageName: string, serviceClassName: string,
                 bindToCaller: bool, bindAsExternalService: bool, useStrongBinding: bool)
      ensures this.hasFreeSlotCallback == hasFreeSlotCallback
      ensures this.packageName == packageName && this.serviceClassName == serviceClassName
      ensures this.bindToCaller == bindToCaller
      ensures this.bindAsExternalService == bindAsExternalService
      ensures this.useStrongBinding == useStrongBinding
      ensures pending == [] && trace == []
    {
      this.hasFreeSlotCallback := hasFreeSlotCallback;
      this.packageName := packageName;
      this.serviceClassName := serviceClassName;
      this.bindToCaller := bindToCaller;
      this.bindAsExternalService := bindAsExternalService;
      this.useStrongBinding := useStrongBinding;
      pending := [];
      trace := [];
    }

    /** Queue a request to be run when a slot is freed. */
    method QueueAllocation(r: RequestId)
      modifies this
      ensures State() == Enqueue(old(State()), r, hasFreeSlotCallback)
    {
      var wasEmpty := pending == [];
      pending := pending + [r];
      if wasEmpty && hasFreeSlotCallback {
        trace := trace + [FreeSlotNotified];
      }
    }

    /** The queue-draining half of free, run after the pool released the slot. */
    method DispatchNext() returns (run: Option<RequestId>)
      modifies this
      ensures run == Oldest(old(pending))
      ensures State() == Dispatch(old(State()), hasFreeSlotCallback)
    {
      if pending == [] {
        return None;
      }
      var r := pending[0];
      pending := pending[1..];
      trace := trace + [RequestRun(r)];
      if pending != [] && hasFreeSlotCallback {
        trace := trace + [FreeSlotNotified];
      }
      run := Some(r);
    }
  }
}
