/**
 * The event queue: a FIFO channel of boxed events. Producers append with
 * `emit`; the consumer takes everything pending at once with `get_events`,
 * after a single `try_lock` of the receiver.
 *
 * The channel is the sequence `pending`; a channel whose receiving end is gone
 * is the flag `disconnected`.
 */
module EventQueue {
  import opened Wrappers
  import opened Events
  import opened Locking

  datatype QueueError =
    | UnableToEmitToEventQueue(rejected: Event)  // carries the event `send` handed back
    | UnableToFetchEventsFromQueue               // the receiver's lock was busy
    | EmptyQueue                                 // nothing was pending

  /** Equality of boxed events: by name only. */
  predicate BoxedEq(a: Event, b: Event)
  {
    a.name == b.name
  }

  /** Name equality is an equivalence that ignores the payload: it is coarser than equality of events. */
  lemma BoxedEqIsCoarseEquivalence(a: Event, b: Event, c: Event)
    ensures BoxedEq(a, a)
    ensures BoxedEq(a, b) ==> BoxedEq(b, a)
    ensures BoxedEq(a, b) && BoxedEq(b, c) ==> BoxedEq(a, c)
    ensures a == b ==> BoxedEq(a, b)
  {
  }

  /** Two exit events with different reasons are equal as boxed events. */
  lemma BoxedEqIgnoresPayload()
    ensures exists a: Event, b: Event :: a != b && BoxedEq(a, b)
  {
    var a := Event("Exit", Some(DynamicStore(ExitReasonValue(ExitHandlers.Normal))));
    var b := Event("Exit", Some(DynamicStore(ExitReasonValue(ExitHandlers.Error(1)))));
    assert a != b && BoxedEq(a, b);
  }

  /** The result of a drain, what stays pending, and the lock schedule after it. */
  datatype Drained = Drained(result: Result<seq<Event>, QueueError>, pending: seq<Event>, locks: seq<bool>)

  /** `get_events` on a channel holding `pending`. */
  function Drain(pending: seq<Event>, locks: seq<bool>): (d: Drained)
    ensures d.locks == Rest(locks)
    ensures d.result.Success? ==> d.result.value != [] && d.result.value == pending && d.pending == []
    ensures d.result == Failure(EmptyQueue) <==> Granted(locks) && pending == []
    ensures d.result == Failure(UnableToFetchEventsFromQueue) <==> !Granted(locks)
    ensures d.result.Failure? ==> d.pending == pending && !d.result.error.UnableToEmitToEventQueue?
  {
    if !Granted(locks) then Drained(Failure(UnableToFetchEventsFromQueue), pending, Rest(locks))
    else if pending == [] then Drained(Failure(EmptyQueue), [], Rest(locks))
    else Drained(Success(pending), [], Rest(locks))
  }

  class Queue {
    var pending: seq<Event>
    var disconnected: bool

    /** `EventQueue::new`: a connected channel with nothing pending. */
    constructor ()
      ensures pending == [] && !disconnected
    {
      pending := [];
      disconnected := false;
    }

    /** The channel's receiving end goes away; what was pending stays with it. */
    method Disconnect()
      modifies this
      ensures disconnected && pending == old(pending)
    {
      disconnected := true;
    }

    /** `emit`: append `e` at the tail, or hand it back when nobody can receive it. */
    method Emit(e: Event) returns (r: Result<(), QueueError>)
      modifies this
      ensures disconnected == old(disconnected)
      ensures !disconnected ==> r == Success(()) && pending == old(pending) + [e]
      ensures disconnected ==> r == Failure(UnableToEmitToEventQueue(e)) && pending == old(pending)
    {
      if disconnected {
        return Failure(UnableToEmitToEventQueue(e));
      }
      pending := pending + [e];
      return Success(());
    }

    /**
     * `get_events`: one `try_lock` of the receiver; when granted, receive
     * events one by one until none is left and return them in order, or
     * `EmptyQueue` when there were none.
     */
    method GetEvents(locks: seq<bool>) returns (r: Result<seq<Event>, QueueError>, rest: seq<bool>)
      modifies this
      ensures disconnected == old(disconnected)
      ensures Drained(r, pending, rest) == Drain(old(pending), locks)
    {
      var events := [];
      rest := Rest(locks);
      if !Granted(locks) {
        return Failure(UnableToFetchEventsFromQueue), rest;
      }
      while pending != []
        invariant events + pending == old(pending)
        invariant disconnected == old(disconnected)
        decreases |pending|
      {
        events := events + [pending[0]];
        pending := pending[1..];
      }
      assert events == old(pending) by {
        assert events + [] == events;
      }
      if events == [] {
        return Failure(EmptyQueue), rest;
      }
      return Success(events), rest;
    }
  }

  /** Emitting e1 then e2 and draining yields exactly [e1, e2] and empties the queue. */
  method EmitTwiceThenDrain(e1: Event, e2: Event) returns (r: Result<seq<Event>, QueueError>, left: seq<Event>)
    ensures r == Success([e1, e2]) && left == []
  {
    var q := new Queue();
    var ok1 := q.Emit(e1);
    var ok2 := q.Emit(e2);
    assert q.pending == [e1, e2];
    var rest;
    r, rest := q.GetEvents([]);
    left := q.pending;
  }

  /** Draining a new queue reports `EmptyQueue`. */
  method DrainNewQueue() returns (r: Result<seq<Event>, QueueError>)
    ensures r == Failure(EmptyQueue)
  {
    var q := new Queue();
    var rest;
    r, rest := q.GetEvents([]);
  }

  /** With the receiver's lock held elsewhere, the drain fails at once and the event stays pending. */
  method DrainWhileReceiverBusy(e: Event) returns (r: Result<seq<Event>, QueueError>, left: seq<Event>)
    ensures r == Failure(UnableToFetchEventsFromQueue) && left == [e]
  {
    var q := new Queue();
    var ok := q.Emit(e);
    var rest;
    r, rest := q.GetEvents([false]);
    left := q.pending;
  }

  /** Emitting into a channel without a receiver hands the event back. */
  method EmitWithoutReceiver(e: Event) returns (r: Result<(), QueueError>, left: seq<Event>)
    ensures r == Failure(UnableToEmitToEventQueue(e)) && left == []
  {
    var q := new Queue();
    q.Disconnect();
    r := q.Emit(e);
    left := q.pending;
  }
}
