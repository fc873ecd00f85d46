/**
 * The application: its dispatchers, the registration of handlers, the
 * fan-out of one event to every dispatcher, and one tick of the run loop
 * (drain the queue, dispatch each drained event, then check the exit flag).
 *
 * The exit flag is a cell shared between the application and its `Exit`
 * handler; it lives in the `World` that handlers act on, and the application
 * reads and clears it there. A tick reports whether the loop goes on or the
 * process ends, with which status, instead of calling `exit`.
 */
module Applications {
  import opened Wrappers
  import opened ExitHandlers
  import opened Events
  import opened Locking
  import opened Handlers
  import opened EventDispatcher
  import opened EventQueue
  import opened ApplicationEvents

  /** What happens after a tick: loop again, exit with a status, or a handler panicked. */
  datatype TickOutcome = Continue | Terminate(code: i32) | Aborted

  /**
   * Offering `e` to each dispatcher of `ds` in turn; an error is logged and the
   * next dispatcher still runs. A handler's panic unwinds the loop: no later
   * dispatcher is offered anything.
   */
  function FanOut(ds: seq<DispatcherView>, e: Event, w: World): World
  {
    if ds == [] then w
    else
      var w1 := FanOut(ds[..|ds| - 1], e, w);
      if w1.aborted then w1 else DispatchSpec(ds[|ds| - 1], e, w1).world
  }

  /** Offering each event of `es` in turn to all dispatchers. */
  function DispatchBatch(ds: seq<DispatcherView>, es: seq<Event>, w: World): World
  {
    if es == [] then w else FanOut(ds, es[|es| - 1], DispatchBatch(ds, es[..|es| - 1], w))
  }

  datatype Checked = Checked(outcome: TickOutcome, world: World)

  /**
   * The exit check: one `try_lock` of the flag; when granted, the flag is
   * taken (left empty) and a stored reason ends the process with its status.
   */
  function ExitCheck(w: World): (c: Checked)
    ensures c.world == w.(locks := Rest(w.locks), exitFlag := c.world.exitFlag)
    ensures Granted(w.locks) ==> c.world.exitFlag == None
    ensures !Granted(w.locks) ==> c.world.exitFlag == w.exitFlag && c.outcome == Continue
    ensures w.exitFlag == None ==> c.outcome == Continue
    ensures Granted(w.locks) && w.exitFlag == Some(Normal) ==> c.outcome == Terminate(0)
    ensures Granted(w.locks) && w.exitFlag.Some? && w.exitFlag.value.Error? ==>
      c.outcome == Terminate(w.exitFlag.value.code)
    ensures c.outcome != Aborted
  {
    if Granted(w.locks) then
      match w.exitFlag
      case Some(reason) => Checked(Terminate(ExitCode(reason)), w.(locks := Rest(w.locks), exitFlag := None))
      case None => Checked(Continue, w.(locks := Rest(w.locks)))
    else Checked(Continue, w.(locks := Rest(w.locks)))
  }

  datatype Ticked = Ticked(outcome: TickOutcome, pending: seq<Event>, world: World)

  /** One iteration of `run`'s loop. */
  function TickSpec(ds: seq<DispatcherView>, pending: seq<Event>, w: World): Ticked
  {
    var d := Drain(pending, w.locks);
    var w1 := w.(locks := d.locks);
    var w2 := if d.result.Success? then DispatchBatch(ds, d.result.value, w1) else w1;
    if w2.aborted then Ticked(Aborted, d.pending, w2)
    else
      var c := ExitCheck(w2);
      Ticked(c.outcome, d.pending, c.world)
  }

  /** Dispatchers whose name differs from the event's leave the world as it was. */
  lemma {:induction false} FanOutNoMatch(ds: seq<DispatcherView>, e: Event, w: World)
    requires forall i :: 0 <= i < |ds| ==> ds[i].eventName != e.name
    ensures FanOut(ds, e, w) == w
  {
    if ds != [] {
      FanOutNoMatch(ds[..|ds| - 1], e, w);
    }
  }

  /** Once a handler has panicked, neither a fan-out nor the rest of the batch changes anything. */
  lemma {:induction false} DispatchAfterAbort(ds: seq<DispatcherView>, es: seq<Event>, e: Event, w: World)
    requires w.aborted
    ensures FanOut(ds, e, w) == w
    ensures DispatchBatch(ds, es, w) == w
    decreases |ds| + |es|
  {
    if ds != [] {
      DispatchAfterAbort(ds[..|ds| - 1], [], e, w);
    }
    if es != [] {
      DispatchAfterAbort(ds, es[..|es| - 1], es[|es| - 1], w);
    }
  }

  /** Fanning out to `ds1 + ds2` is fanning out to `ds1` and then to `ds2`, whatever the results. */
  lemma {:induction false} FanOutAppend(ds1: seq<DispatcherView>, ds2: seq<DispatcherView>, e: Event, w: World)
    ensures FanOut(ds1 + ds2, e, w) == FanOut(ds2, e, FanOut(ds1, e, w))
    decreases |ds2|
  {
    if ds2 == [] {
      assert ds1 + ds2 == ds1;
    } else {
      var ds := ds1 + ds2;
      assert ds[..|ds| - 1] == ds1 + ds2[..|ds2| - 1];
      FanOutAppend(ds1, ds2[..|ds2| - 1], e, w);
    }
  }

  /**
   * A batch is dispatched event after event: splitting it anywhere (after an
   * `Exit`, say) dispatches the second part in the world the first left.
   */
  lemma {:induction false} DispatchBatchAppend(ds: seq<DispatcherView>, es1: seq<Event>, es2: seq<Event>, w: World)
    ensures DispatchBatch(ds, es1 + es2, w) == DispatchBatch(ds, es2, DispatchBatch(ds, es1, w))
    decreases |es2|
  {
    if es2 == [] {
      assert es1 + es2 == es1;
    } else {
      var es := es1 + es2;
      assert es[..|es| - 1] == es1 + es2[..|es2| - 1];
      DispatchBatchAppend(ds, es1, es2[..|es2| - 1], w);
    }
  }

  /** A tick whose drain fails dispatches nothing and goes straight to the exit check. */
  lemma TickWithoutEvents(ds: seq<DispatcherView>, pending: seq<Event>, w: World)
    requires Drain(pending, w.locks).result.Failure? && !w.aborted
    ensures var t := TickSpec(ds, pending, w);
      && t.world.calls == w.calls && t.world.counter == w.counter
      && t.pending == pending
      && t == Ticked(ExitCheck(w.(locks := Rest(w.locks))).outcome, pending, ExitCheck(w.(locks := Rest(w.locks))).world)
  {
  }

  /**
   * With the internal `Exit` dispatcher registered and no lock contention, a
   * drained `Exit(r)` makes the same tick end the process with the status of `r`.
   */
  lemma ExitEndsTick(r: ExitReason, w: World)
    requires w.locks == [] && !w.aborted
    ensures TickSpec([DispatcherView("Exit", [RecordExit])], [AsEvent(Exit(r))], w).outcome == Terminate(ExitCode(r))
    ensures TickSpec([DispatcherView("Exit", [RecordExit])], [AsEvent(Exit(r))], w).world.exitFlag == None
  {
    var ds := [DispatcherView("Exit", [RecordExit])];
    var e := AsEvent(Exit(r));
    var es := [e];
    assert es[..0] == [] && ds[..0] == [];
    assert [RecordExit][..0] == [];
    assert GetExitReason(e.data.value) == Some(r);
    assert Drain(es, w.locks) == Drained(Success(es), [], []);
    var w0 := w.(locks := []);
    assert w0 == w;
    assert Acquire(w0.locks, MaxLockAttempts) == Acquired(1);
    var w1 := Apply(RecordExit, e, w0);
    assert w1.exitFlag == Some(r) && !w1.aborted && w1.locks == [];
    assert RunAll([RecordExit], e, w0) == w1;
    assert DispatchSpec(ds[0], e, w0).world == w1;
    assert FanOut(ds, e, w0) == w1;
    assert DispatchBatch(ds, es, w0) == w1;
  }

  class Application {
    var dispatchers: seq<Dispatcher>

    /** The dispatchers as values, in order. */
    function Views(): seq<DispatcherView>
      reads this, dispatchers
    {
      seq(|dispatchers|, i reads this, dispatchers requires 0 <= i < |dispatchers| => dispatchers[i].View())
    }

    /** `Application::default()`: no dispatchers. */
    constructor ()
      ensures dispatchers == []
    {
      dispatchers := [];
    }

    /**
     * `on_event`: a new dispatcher for `name` holding `cb`, appended to the
     * list even when `name` already has one; when the handler cannot be
     * added, the error and no new dispatcher.
     */
    method OnEvent(name: string, cb: Handler, locks: seq<bool>) returns (err: Option<DispatcherError>, rest: seq<bool>)
      modifies this
      ensures err.None? <==> Acquire(locks, MaxLockAttempts).Acquired?
      ensures err.Some? ==> err.value == UnableToAddHandler && dispatchers == old(dispatchers)
      ensures err.None? ==> (|dispatchers| == |old(dispatchers)| + 1 &&
        dispatchers[..|old(dispatchers)|] == old(dispatchers) && fresh(dispatchers[|old(dispatchers)|]))
      ensures Views() == if err.None? then old(Views()) + [DispatcherView(name, [cb])] else old(Views())
      ensures rest == Skip(locks, Used(Acquire(locks, MaxLockAttempts), MaxLockAttempts))
    {
      ghost var before := Views();
      var dispatcher := new Dispatcher(name);
      var r;
      r, rest := dispatcher.AddHandlers(cb, locks);
      if r.Failure? {
        return Some(r.error), rest;
      }
      dispatchers := dispatchers + [dispatcher];
      forall i | 0 <= i < |dispatchers|
        ensures Views()[i] == (before + [DispatcherView(name, [cb])])[i]
      {
      }
      assert Views() == before + [DispatcherView(name, [cb])];
      return None, rest;
    }

    /**
     * `initalize`: registers the internal `Exit` handler. A failure here is a
     * panic in the source; it is returned as the error.
     */
    method Initialize(locks: seq<bool>) returns (r: Result<(), DispatcherError>, rest: seq<bool>)
      modifies this
      ensures r.Success? <==> Acquire(locks, MaxLockAttempts).Acquired?
      ensures Views() == if r.Success? then old(Views()) + [DispatcherView("Exit", [RecordExit])] else old(Views())
      ensures rest == Skip(locks, Used(Acquire(locks, MaxLockAttempts), MaxLockAttempts))
    {
      var err;
      err, rest := OnEvent("Exit", RecordExit, locks);
      r := if err.Some? then Failure(err.value) else Success(());
    }

    /** `dispatch`: offers `e` to every dispatcher, in list order. */
    method Dispatch(e: Event, w: World) returns (w': World)
      ensures w' == FanOut(Views(), e, w)
    {
      w' := w;
      for i := 0 to |dispatchers|
        invariant w' == FanOut(Views()[..i], e, w)
      {
        assert Views()[..i + 1][..i] == Views()[..i];
        if !w'.aborted {
          var r;
          r, w' := dispatchers[i].Dispatch(e, w');
        }
      }
      assert Views()[..|dispatchers|] == Views();
    }

    /**
     * One tick of `run`: drain the queue, dispatch every drained event in
     * order, then, unless a handler panicked, check the exit flag.
     */
    method Tick(q: Queue, w: World) returns (o: TickOutcome, w': World)
      modifies q
      ensures q.disconnected == old(q.disconnected)
      ensures Ticked(o, q.pending, w') == TickSpec(Views(), old(q.pending), w)
    {
      var drained, rest := q.GetEvents(w.locks);
      ghost var left := q.pending;
      w' := w.(locks := rest);
      if drained.Success? {
        var events := drained.value;
        for i := 0 to |events|
          invariant q.pending == left && q.disconnected == old(q.disconnected)
          invariant w' == DispatchBatch(Views(), events[..i], w.(locks := rest))
        {
          assert events[..i + 1][..i] == events[..i];
          w' := Dispatch(events[i], w');
        }
        assert events[..|events|] == events;
      }
      if w'.aborted {
        return Aborted, w';
      }
      var c := ExitCheck(w');
      o, w' := c.outcome, c.world;
    }
  }

  /**
   * The run loop end to end: after `initalize`, emitting `Exit(ERROR(42))`
   * and running one tick terminates with status 42.
   */
  method ExitErrorScenario() returns (o: TickOutcome)
    ensures o == Terminate(42)
  {
    var app := new Application();
    var init, rest := app.Initialize([]);
    var q := new Queue();
    var sent := q.Emit(AsEvent(Exit(Error(42))));
    var w := World(rest, None, 0, [], false);
    ExitEndsTick(Error(42), w);
    var w';
    o, w' := app.Tick(q, w);
  }

  /** Registering twice for one name makes two separate dispatchers, each with its own handler. */
  method DuplicateRegistrationScenario() returns (views: seq<DispatcherView>)
    ensures views == [DispatcherView("ExampleEvent", [Counting(1)]), DispatcherView("ExampleEvent", [Counting(2)])]
  {
    var app := new Application();
    var err, rest := app.OnEvent("ExampleEvent", Counting(1), []);
    err, rest := app.OnEvent("ExampleEvent", Counting(2), rest);
    views := app.Views();
  }
}
