/**
 * A dispatcher: one event name and an ordered list of handlers. It runs its
 * handlers, in registration order, for events carrying its name, and takes the
 * handler list's lock with at most `MaxLockAttempts` `try_lock` attempts.
 */
module EventDispatcher {
  import opened Wrappers
  import opened Events
  import opened Locking
  import opened Handlers

  datatype DispatcherError = UnableToAddHandler

  /** A dispatcher's state as a value: its name and its handlers. */
  datatype DispatcherView = DispatcherView(eventName: string, handlers: seq<Handler>)

  /** The outcome of a dispatch and the world after it. */
  datatype Dispatched = Dispatched(result: Result<bool, DispatcherError>, world: World)

  /**
   * Dispatching `e` with dispatcher `d`: `Ok(false)` without taking the lock
   * when the names differ; otherwise the retry loop, then every handler in
   * order, `Ok(true)`; or the error when every attempt was refused.
   */
  function DispatchSpec(d: DispatcherView, e: Event, w: World): (r: Dispatched)
    ensures e.name != d.eventName ==> r == Dispatched(Success(false), w)
    ensures r.result.Failure? ==> r.world.calls == w.calls && r.world.exitFlag == w.exitFlag
    ensures r.result.Failure? <==> e.name == d.eventName && Acquire(w.locks, MaxLockAttempts).Exhausted?
    ensures r.result == Success(true) <==> e.name == d.eventName && Acquire(w.locks, MaxLockAttempts).Acquired?
  {
    if e.name != d.eventName then Dispatched(Success(false), w)
    else
      var a := Acquire(w.locks, MaxLockAttempts);
      var w1 := w.(locks := Skip(w.locks, Used(a, MaxLockAttempts)));
      if a.Acquired? then Dispatched(Success(true), RunAll(d.handlers, e, w1))
      else Dispatched(Failure(UnableToAddHandler), w1)
  }

  class Dispatcher {
    const eventName: string
    var handlers: seq<Handler>

    function View(): DispatcherView
      reads this
    {
      DispatcherView(eventName, handlers)
    }

    /** `EventDispatcher::new`: the given name, no handlers. */
    constructor (eventName: string)
      ensures this.eventName == eventName && handlers == []
    {
      this.eventName := eventName;
      handlers := [];
    }

    /**
     * `add_handlers`: up to five `try_lock` attempts. The first that is granted
     * appends `cb` behind the handlers already there; when all five are refused
     * the list is unchanged and the error is returned.
     */
    method AddHandlers(cb: Handler, locks: seq<bool>) returns (r: Result<(), DispatcherError>, rest: seq<bool>)
      modifies this
      ensures r.Success? <==> Acquire(locks, MaxLockAttempts).Acquired?
      ensures r.Failure? ==> r.error == UnableToAddHandler
      ensures handlers == if r.Success? then old(handlers) + [cb] else old(handlers)
      ensures rest == Skip(locks, Used(Acquire(locks, MaxLockAttempts), MaxLockAttempts))
    {
      var counter := 0;
      rest := locks;
      while true
        invariant 0 <= counter < MaxLockAttempts
        invariant rest == Skip(locks, counter)
        invariant Acquire(locks, MaxLockAttempts) == Later(Acquire(rest, MaxLockAttempts - counter), counter)
        invariant handlers == old(handlers)
        decreases MaxLockAttempts - counter
      {
        var granted := Granted(rest);
        SkipRest(locks, counter);
        rest := Rest(rest);
        if granted {
          handlers := handlers + [cb];
          return Success(()), rest;
        }
        if counter == 4 {
          return Failure(UnableToAddHandler), rest;
        }
        counter := counter + 1;
      }
    }

    /**
     * `dispatch`: a name check, then the same retry loop, then each handler of
     * a snapshot of the list, in order. The dispatcher itself is not changed.
     */
    method Dispatch(e: Event, w: World) returns (r: Result<bool, DispatcherError>, w': World)
      ensures Dispatched(r, w') == DispatchSpec(View(), e, w)
    {
      if eventName != e.name {
        return Success(false), w;
      }
      var counter := 0;
      var rest := w.locks;
      while true
        invariant 0 <= counter < MaxLockAttempts
        invariant rest == Skip(w.locks, counter)
        invariant Acquire(w.locks, MaxLockAttempts) == Later(Acquire(rest, MaxLockAttempts - counter), counter)
        decreases MaxLockAttempts - counter
      {
        var granted := Granted(rest);
        SkipRest(w.locks, counter);
        rest := Rest(rest);
        if granted {
          w' := InvokeAll(handlers, e, w.(locks := rest));
          return Success(true), w';
        }
        if counter == 4 {
          return Failure(UnableToAddHandler), w.(locks := rest);
        }
        counter := counter + 1;
      }
    }
  }

  /** Calls each handler of `hs` with `e`, in order (`for_each` over the cloned list). */
  method InvokeAll(hs: seq<Handler>, e: Event, w: World) returns (w': World)
    ensures w' == RunAll(hs, e, w)
  {
    w' := w;
    for i := 0 to |hs|
      invariant w' == RunAll(hs[..i], e, w)
    {
      assert hs[..i + 1][..i] == hs[..i];
      w' := Apply(hs[i], e, w');
    }
    assert hs[..|hs|] == hs;
  }

  /**
   * A dispatch whose name matches and whose lock is granted invokes each
   * registered handler exactly once, in registration order, and reports
   * `Ok(true)` (unless a handler panics).
   */
  lemma DispatchInvokesAllInOrder(d: DispatcherView, e: Event, w: World)
    requires e.name == d.eventName && Acquire(w.locks, MaxLockAttempts).Acquired?
    requires !w.aborted && forall h :: h in d.handlers ==> !Panics(h, e)
    ensures var r := DispatchSpec(d, e, w);
      && r.result == Success(true)
      && !r.world.aborted
      && r.world.calls == w.calls + CallsOf(d.handlers, e)
      && r.world.counter == w.counter + Increments(d.handlers)
  {
    var w1 := w.(locks := Skip(w.locks, Used(Acquire(w.locks, MaxLockAttempts), MaxLockAttempts)));
    RunAllInvokesInOrder(d.handlers, e, w1);
  }

  /** Five refused attempts in a row: the error, and no handler runs. */
  lemma DispatchUnderContention(d: DispatcherView, e: Event, w: World)
    requires e.name == d.eventName
    requires MaxLockAttempts <= |w.locks| && forall i :: 0 <= i < MaxLockAttempts ==> !w.locks[i]
    ensures var r := DispatchSpec(d, e, w);
      r.result == Failure(UnableToAddHandler) && r.world.calls == w.calls &&
      r.world.locks == w.locks[MaxLockAttempts..]
  {
    AcquireExhaustedIff(w.locks, MaxLockAttempts);
  }

  /** Three handlers adding 1, 2 and 3, dispatched once with a matching event, leave the counter at 6. */
  method ThreeHandlersScenario() returns (r: Result<bool, DispatcherError>, counter: int)
    ensures r == Success(true) && counter == 6
  {
    var d := new Dispatcher("Test Event");
    var added, rest := d.AddHandlers(Counting(1), []);
    added, rest := d.AddHandlers(Counting(2), rest);
    added, rest := d.AddHandlers(Counting(3), rest);
    var hs := [Counting(1), Counting(2), Counting(3)];
    assert d.handlers == hs;
    assert Increments([Counting(1)]) == 1 by {
      assert [Counting(1)][..0] == [];
    }
    assert Increments([Counting(1), Counting(2)]) == 3 by {
      assert [Counting(1), Counting(2)][..1] == [Counting(1)];
    }
    assert Increments(hs) == 6 by {
      assert hs[..2] == [Counting(1), Counting(2)];
    }
    var w := World(rest, None, 0, [], false);
    DispatchInvokesAllInOrder(d.View(), Event("Test Event", None), w);
    var w';
    r, w' := d.Dispatch(Event("Test Event", None), w);
    counter := w'.counter;
  }

  /** An event with another name reaches no handler. */
  method OtherNameScenario() returns (r: Result<bool, DispatcherError>, calls: seq<Call>)
    ensures r == Success(false) && calls == []
  {
    var d := new Dispatcher("Test Event");
    var added, rest := d.AddHandlers(Counting(1), []);
    var w';
    r, w' := d.Dispatch(Event("Some other event", None), World(rest, None, 0, [], false));
    calls := w'.calls;
  }

  /** While another holder keeps the handler lock, registration fails instead of blocking. */
  method HeldLockScenario() returns (r: Result<(), DispatcherError>, handlers: seq<Handler>)
    ensures r == Failure(UnableToAddHandler) && handlers == []
  {
    var d := new Dispatcher("TestEvent");
    AcquireExhaustedIff([false, false, false, false, false], MaxLockAttempts);
    var rest;
    r, rest := d.AddHandlers(Counting(1), [false, false, false, false, false]);
    handlers := d.handlers;
  }
}
