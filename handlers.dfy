/**
 * Dispatcher callbacks, as pure transformers of the state they can reach.
 *
 * A Rust handler is an `Fn(&dyn Event)` closure over shared cells. The core
 * registers one such closure itself (the application's `Exit` handler) and its
 * tests register closures that add a constant to a shared counter; this model
 * has exactly those two kinds. What a handler can touch is a `World`: the lock
 * schedule, the application's exit flag, the test counter, a log of every
 * invocation, and whether a handler panicked.
 */
module Handlers {
  import opened Wrappers
  import opened ExitHandlers
  import opened Events
  import opened Locking

  datatype Handler =
    | Counting(amount: int)  // `counter.fetch_add(amount)`, as in the dispatcher tests
    | RecordExit             // the application's internal `Exit` handler

  /** One handler invocation: which handler, with which event. */
  datatype Call = Call(handler: Handler, event: Event)

  datatype World = World(
    locks: seq<bool>,                // the try_lock schedule still to come
    exitFlag: Option<ExitReason>,    // contents of the application's `exit_flag` cell
    counter: int,                    // the tests' shared counter
    calls: seq<Call>,                // every handler invocation so far, in order
    aborted: bool)                   // a handler panicked: nothing runs afterwards

  /** The handler panics on this event: the Exit handler `unwrap`s a missing payload. */
  predicate Panics(h: Handler, e: Event)
  {
    h.RecordExit? && e.data.None?
  }

  /** Invoking handler `h` with event `e`. A panicked world stays as it is. */
  function Apply(h: Handler, e: Event, w: World): World
  {
    if w.aborted then w
    else
      var w1 := w.(calls := w.calls + [Call(h, e)]);
      match h
      case Counting(n) => w1.(counter := w1.counter + n)
      case RecordExit =>
        if e.data.None? then w1.(aborted := true)
        else match GetExitReason(e.data.value)
          case None => w1
          case Some(reason) =>
            if Granted(w1.locks) then w1.(locks := Rest(w1.locks), exitFlag := Some(reason))
            else w1.(locks := Rest(w1.locks))
  }

  /** Invoking every handler of `hs` in order, each with `e`. */
  function RunAll(hs: seq<Handler>, e: Event, w: World): World
  {
    if hs == [] then w else Apply(hs[|hs| - 1], e, RunAll(hs[..|hs| - 1], e, w))
  }

  /** The log entries a run of `hs` with `e` adds: one per handler, in order. */
  function CallsOf(hs: seq<Handler>, e: Event): (cs: seq<Call>)
    ensures |cs| == |hs|
    ensures forall i :: 0 <= i < |hs| ==> cs[i] == Call(hs[i], e)
  {
    if hs == [] then [] else CallsOf(hs[..|hs| - 1], e) + [Call(hs[|hs| - 1], e)]
  }

  /** The sum of the increments of the counting handlers in `hs`. */
  function Increments(hs: seq<Handler>): int
  {
    if hs == [] then 0
    else Increments(hs[..|hs| - 1]) + (if hs[|hs| - 1].Counting? then hs[|hs| - 1].amount else 0)
  }

  /**
   * The Exit handler: an `ExitReason` payload is written into the flag when
   * the flag's lock is free, replacing any earlier reason; under contention the
   * flag keeps its value. The handler touches nothing but the flag, the lock
   * schedule and the log.
   */
  lemma ExitHandlerStores(e: Event, w: World)
    requires !w.aborted && e.data.Some?
    ensures var w' := Apply(RecordExit, e, w);
      && !w'.aborted && w'.counter == w.counter && w'.calls == w.calls + [Call(RecordExit, e)]
      && (GetExitReason(e.data.value).Some? && Granted(w.locks) ==>
            w'.exitFlag == GetExitReason(e.data.value) && w'.locks == Rest(w.locks))
      && (GetExitReason(e.data.value).Some? && !Granted(w.locks) ==>
            w'.exitFlag == w.exitFlag && w'.locks == Rest(w.locks))
      && (GetExitReason(e.data.value).None? ==> w'.exitFlag == w.exitFlag && w'.locks == w.locks)
  {
  }

  /** Once a handler has panicked, running more handlers changes nothing. */
  lemma {:induction false} RunAllAfterAbort(hs: seq<Handler>, e: Event, w: World)
    requires w.aborted
    ensures RunAll(hs, e, w) == w
  {
    if hs != [] {
      RunAllAfterAbort(hs[..|hs| - 1], e, w);
    }
  }

  /** Running two lists one after the other is running their concatenation. */
  lemma {:induction false} RunAllAppend(hs1: seq<Handler>, hs2: seq<Handler>, e: Event, w: World)
    ensures RunAll(hs1 + hs2, e, w) == RunAll(hs2, e, RunAll(hs1, e, w))
    decreases |hs2|
  {
    if hs2 == [] {
      assert hs1 + hs2 == hs1;
    } else {
      var hs := hs1 + hs2;
      assert hs[..|hs| - 1] == hs1 + hs2[..|hs2| - 1];
      RunAllAppend(hs1, hs2[..|hs2| - 1], e, w);
    }
  }

  /**
   * When no handler panics, a run invokes every handler of `hs` exactly once
   * and in order, each with `e`, and the counter grows by their increments.
   */
  lemma {:induction false} RunAllInvokesInOrder(hs: seq<Handler>, e: Event, w: World)
    requires !w.aborted
    requires forall h :: h in hs ==> !Panics(h, e)
    ensures !RunAll(hs, e, w).aborted
    ensures RunAll(hs, e, w).calls == w.calls + CallsOf(hs, e)
    ensures RunAll(hs, e, w).counter == w.counter + Increments(hs)
  {
    if hs != [] {
      var init := hs[..|hs| - 1];
      assert forall h :: h in init ==> h in hs;
      assert hs[|hs| - 1] in hs;
      RunAllInvokesInOrder(init, e, w);
    }
  }
}
