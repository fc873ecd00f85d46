# Event bus of the aloy engine, modelled in Dafny

This project models the event-dispatch core of the aloy engine (Rust): the
event envelope and its type-erased payload container, the per-name
dispatcher, the FIFO event queue, the application catalog of events, and one
tick of the application's run loop with its exit protocol.

Modules, one per source file (plus two helpers):

- `Wrappers` — `Option` and `Result`.
- `ExitHandlers` — `ExitReason = Normal | Error(i32)` and the exit status of a
  reason. Its Rust module (`core/runner/exit_handlers`) is not part of this
  model; the two variants and the `i32` code are those the run loop matches on.
- `Events` (`event.rs`) — `DynamicStore` as a closed tagged union of the two
  payload types the engine stores (`Vec<i128>` and `ExitReason`); `GetRef`
  is `get_ref::<T>()` with `T` given by a type tag; `Event` is what the bus
  sees of an event: its name and optional payload.
- `ApplicationEvents` (`application_events.rs`) — the three application
  events, `GetName`, `HasEvent`, `GetData`, `GetCategory`,
  `GetParentCategory`, and `AsEvent`, the envelope of an application event.
- `Locking` — lock contention as an oracle. Every `try_lock` the core makes
  reads the next entry of one schedule `locks: seq<bool>` in program order
  (`true`: granted); an exhausted schedule grants every further attempt.
  `Acquire(locks, 5)` is the dispatcher's bounded retry loop.
- `Handlers` — dispatcher callbacks as pure transformers of a `World`: the
  lock schedule, the application's exit-flag cell, the tests' shared
  counter, a log of every invocation, and whether a handler panicked. Two
  kinds exist: `Counting(k)` (the closures of the dispatcher tests) and
  `RecordExit` (the application's internal `Exit` handler). `Apply` invokes
  one handler, `RunAll` a list of them in order.
- `EventDispatcher` (`event_dispatcher.rs`) — class `Dispatcher` with a
  constant name and a `handlers` sequence; `AddHandlers` and `Dispatch` run
  the source's retry loops; `DispatchSpec` is the value-level meaning of a
  dispatch.
- `EventQueue` (`event_queue.rs`) — class `Queue` with the pending events and
  a `disconnected` flag; `Emit`, `GetEvents` (one `try_lock`, then a receive
  loop); `Drain` is the value-level meaning of a drain; `BoxedEq` is the
  name-based equality of boxed events.
- `Applications` (`applications.rs`) — class `Application` with its
  dispatchers; `OnEvent`, `Initialize`, `Dispatch` (fan-out) and `Tick` (one
  iteration of `run`). `FanOut`, `DispatchBatch`, `ExitCheck` and `TickSpec`
  are their value-level meanings.

Two behaviours of the run loop worth stating:

- An `Exit` event drained in a tick ends the process in that same tick,
  because the exit flag is checked right after the batch is dispatched
  (src/core/runner/applications.rs:73-97).
- A dispatch that cannot take the handler lock returns `UnableToAddHandler`,
  the dispatcher's only error variant.

## Model

| member | source | states |
|---|---|---|
| `Locking.Acquire` | src/event_system/event_dispatcher.rs:36-57 | A bounded retry loop that succeeds does so on an attempt numbered 1 to the budget (at most 5 `try_lock` calls) |
| `Locking.AcquireExhaustedIff` | src/event_system/event_dispatcher.rs:43-47 | The retry loop gives up exactly when each of its 5 attempts is refused |
| `Locking.AcquireFirstGranted` | src/event_system/event_dispatcher.rs:37-41 | A successful retry loop stops at the first granted attempt; all earlier attempts were refused |
| `EventDispatcher.Dispatcher.constructor` | src/event_system/event_dispatcher.rs:25-30 | A new dispatcher has the given name and no handlers |
| `EventDispatcher.Dispatcher.AddHandlers` | src/event_system/event_dispatcher.rs:32-58 | Succeeds iff one of 5 attempts is granted; on success `cb` is appended after the earlier handlers; on failure `UnableToAddHandler` and the list is unchanged; exactly the attempts made are consumed |
| `EventDispatcher.DispatchSpec` | src/event_system/event_dispatcher.rs:60-91 | A name mismatch gives `Ok(false)` and changes nothing (no lock taken); `Ok(true)` iff the name matches and the lock is acquired; the error iff the name matches and 5 attempts fail, and then no handler ran and the exit flag is untouched |
| `EventDispatcher.Dispatcher.Dispatch` | src/event_system/event_dispatcher.rs:60-91 | The dispatch loop computes exactly `DispatchSpec` of the dispatcher's name and handlers; it modifies no dispatcher |
| `EventDispatcher.InvokeAll` | src/event_system/event_dispatcher.rs:71-73 | Calling each handler of the snapshot in order yields the in-order fold `RunAll` |
| `EventDispatcher.DispatchInvokesAllInOrder` | src/event_system/event_dispatcher.rs:68-74 | A matching, acquired dispatch returns `Ok(true)`, invokes each registered handler exactly once in registration order (the call log grows by exactly one entry per handler) and adds their increments to the counter |
| `EventDispatcher.DispatchUnderContention` | src/event_system/event_dispatcher.rs:76-88 | Five refused attempts: `UnableToAddHandler`, no handler invoked, five attempts consumed |
| `EventDispatcher.ThreeHandlersScenario` | src/event_system/event_dispatcher.rs:161-208 | Handlers adding 1, 2 and 3, dispatched once with a matching event: `Ok(true)` and the counter is 6 |
| `EventDispatcher.OtherNameScenario` | src/event_system/event_dispatcher.rs:211-240 | An event with another name: `Ok(false)` and no handler invoked |
| `EventDispatcher.HeldLockScenario` | src/event_system/event_dispatcher.rs:243-271 | With the handler lock held elsewhere, registration fails with `UnableToAddHandler` instead of blocking, and the list stays empty |
| `Handlers.ExitHandlerStores` | src/core/runner/applications.rs:31-36 | The Exit handler writes an `ExitReason` payload into the flag when the flag's lock is granted, replacing any earlier reason; when refused the flag keeps its value; a payload of another type leaves the flag and the locks alone |
| `Handlers.RunAllAfterAbort` | src/core/runner/applications.rs:32 | After a handler has panicked (`unwrap` of a missing payload) no further handler has any effect |
| `Handlers.RunAllAppend` | src/event_system/event_dispatcher.rs:71-73 | Running two handler lists one after the other equals running their concatenation |
| `Handlers.RunAllInvokesInOrder` | src/event_system/event_dispatcher.rs:71-73 | Without panics, a run logs exactly one call per handler, in list order, and adds the handlers' increments to the counter |
| `EventQueue.BoxedEqIsCoarseEquivalence` | src/event_system/event_queue.rs:14-18 | Name equality of boxed events is reflexive, symmetric and transitive, and holds of equal events |
| `EventQueue.BoxedEqIgnoresPayload` | src/event_system/event_queue.rs:14-18 | Two different events (exit events with different reasons) compare equal as boxed events |
| `EventQueue.Drain` | src/event_system/event_queue.rs:61-83 | Exactly one lock attempt; success only with a non-empty result holding all pending events in emission order, leaving nothing pending; `EmptyQueue` iff granted with nothing pending; `UnableToFetchEventsFromQueue` iff refused; on any error nothing is removed |
| `EventQueue.Queue.constructor` | src/event_system/event_queue.rs:42-48 | A new queue is connected and has no pending events |
| `EventQueue.Queue.Emit` | src/event_system/event_queue.rs:54-59 | Connected: `Ok` and the event is appended at the tail; disconnected: `UnableToEmitToEventQueue` carrying the rejected event and the pending events unchanged |
| `EventQueue.Queue.Disconnect` | src/event_system/event_queue.rs:177-182 | The channel loses its receiver; pending events stay |
| `EventQueue.Queue.GetEvents` | src/event_system/event_queue.rs:61-83 | The receive loop computes exactly `Drain` of the pending events and the lock schedule |
| `EventQueue.EmitTwiceThenDrain` | src/event_system/event_queue.rs:143-158 | Emitting e1 then e2 and draining yields exactly `[e1, e2]` and empties the queue |
| `EventQueue.DrainNewQueue` | src/event_system/event_queue.rs:161-172 | Draining a new queue gives `EmptyQueue` |
| `EventQueue.DrainWhileReceiverBusy` | src/event_system/event_queue.rs:197-219 | With the receiver lock held, the drain fails with `UnableToFetchEventsFromQueue` and the event stays pending |
| `EventQueue.EmitWithoutReceiver` | src/event_system/event_queue.rs:175-194 | Emitting without a receiver gives `UnableToEmitToEventQueue` carrying that event |
| `Applications.ExitCheck` | src/core/runner/applications.rs:87-99 | One lock attempt on the flag; when granted the flag is taken (left empty), NORMAL terminates with 0 and ERROR(c) with c; an empty flag or a refused lock continues the loop; nothing else in the world changes |
| `Applications.FanOutNoMatch` | src/core/runner/applications.rs:57-63 | Offering an event to dispatchers none of which has its name changes nothing |
| `Applications.FanOutAppend` | src/core/runner/applications.rs:57-63 | Fan-out over `ds1 + ds2` is fan-out over `ds1` then over `ds2`, whatever each dispatcher returned: an error does not stop the rest |
| `Applications.DispatchBatchAppend` | src/core/runner/applications.rs:73-79 | A drained batch is dispatched event by event; the events after any point (an `Exit`, say) are still dispatched, in the world the earlier ones left |
| `Applications.TickWithoutEvents` | src/core/runner/applications.rs:80-84 | A tick whose drain fails dispatches nothing, keeps the pending events and goes straight to the exit check |
| `Applications.ExitEndsTick` | src/core/runner/applications.rs:73-97 | With the Exit dispatcher registered and no contention, draining `Exit(r)` for any reason `r` terminates that same tick with `r`'s status (0 for NORMAL, c for ERROR(c)) and leaves the flag empty |
| `Applications.DispatchAfterAbort` | src/core/runner/applications.rs:32 | Once a handler has panicked, no later dispatcher and no later event of the batch is offered anything: the world stays as it was at the panic |
| `Applications.Application.constructor` | src/core/runner/applications.rs:21-25 | A default application has no dispatchers |
| `Applications.Application.OnEvent` | src/core/runner/applications.rs:43-54 | A fresh dispatcher holding only `cb` is appended on every call, even for a name already registered; if the handler cannot be added, `Some(UnableToAddHandler)` and the list is unchanged |
| `Applications.Application.Initialize` | src/core/runner/applications.rs:28-41 | Registers the internal Exit handler as a new dispatcher named "Exit"; a registration failure (a panic in the source) is returned as the error |
| `Applications.Application.Dispatch` | src/core/runner/applications.rs:57-63 | The loop offers the event to every dispatcher in list order, stopping only when a handler panics, and computes `FanOut`; no dispatcher is changed |
| `Applications.Application.Tick` | src/core/runner/applications.rs:71-101 | One loop iteration computes `TickSpec`: drain, dispatch each drained event in order, then the exit check unless a handler panicked |
| `Applications.ExitErrorScenario` | src/core/runner/applications.rs:65-101 | After `initalize`, emitting `Exit(ERROR(42))` and running one tick gives `Terminate(42)` |
| `Applications.DuplicateRegistrationScenario` | src/core/runner/applications.rs:48-53 | Two registrations under one name give two separate dispatchers, each with its own handler |
| `Events.GetCoords` | src/event_system/event.rs:13-15 | Typed retrieval as `Vec<i128>` succeeds exactly when generic retrieval with that type does, and returns the stored coordinates |
| `Events.GetExitReason` | src/event_system/event.rs:13-15 | Typed retrieval as `ExitReason` succeeds exactly when generic retrieval with that type does, and returns the stored reason |
| `Events.GetRefOwnType` | src/event_system/event.rs:9-15 | A store built from `v` returns `v` when asked for `v`'s own type |
| `Events.GetRefOtherType` | src/event_system/event.rs:13-15 | Asked for any other type, the store returns nothing |
| `Events.GetRefAtMostOneType` | src/event_system/event.rs:13-15 | At most one requested type succeeds on a given store |
| `ApplicationEvents.AsEvent` | src/event_system/engine_events/application_events.rs:36-61 | The envelope of an application event carries its name and payload, and its name passes `has_event` |
| `ApplicationEvents.GetNameIdentifiesKind` | src/event_system/engine_events/application_events.rs:37-44 | Two events have the same name exactly when they are of the same kind |
| `ApplicationEvents.HasEventExactlyNames` | src/event_system/engine_events/application_events.rs:27-44 | `has_event` accepts exactly the names `get_name` produces |
| `ApplicationEvents.HasEventNames` | src/event_system/engine_events/application_events.rs:27-33 | `has_event` holds of "ExampleEvent", "ExampleEventWithData" and "Exit" and of no other string |
| `ApplicationEvents.GetDataRetrieval` | src/event_system/engine_events/application_events.rs:46-60 | `ExampleEventWithData(x, y)` carries `[x, y]` retrievable as `Vec<i128>` only; `Exit(r)` carries `r` retrievable as `ExitReason` only; `ExampleEvent` carries nothing |
| `ApplicationEvents.CategoryIsApplication` | src/event_system/engine_events/application_events.rs:17-25 | Every application event is in the Application category and has no parent category |

## Left out

- Threads, `Arc`/`Mutex` and real lock contention: each `try_lock` outcome comes from the `locks` schedule; interleaving of several producers is not modelled, so the queue's order is that of a single producer.
- The channel is a sequence; its dropped-receiver state is the `disconnected` flag, set by `Disconnect`.
- The `lazy_static` global queue and `EventQueue::initalize`: the queue is passed to `Tick` explicitly.
- `std::process::exit` and the endless `loop` of `run`: one iteration is `Tick`, which returns `Terminate(code)` or `Continue`.
- `Application`'s `exit_flag` field is the `exitFlag` of the `World` the caller passes to `Dispatch` and `Tick`; its initial `None` under `Default` is the caller's `World(…, None, …)`, so the constructor does not state it.
- The `panic!` in `initalize` is the `Failure` result of `Initialize`; the panic of the Exit handler's `unwrap` on an `Exit`-named event without payload is the `aborted` flag of the world and the `Aborted` tick outcome.
- Handlers are the two kinds the source uses (the tests' counting closures and the internal Exit handler); arbitrary user closures, and a handler that re-enters its own dispatcher while the handler lock is held, are not modelled.
- The tests' counter is an `AtomicU8`; the model's counter is an unbounded integer, so its wrap-around at 256 is not modelled.
- `Box<dyn Any>` downcasting: the payload is a closed union of the two types the engine stores, and `get_ref` is a tag comparison.
- `get_data` builds a new payload on every call; the envelope holds one payload value, which is the same thing for immutable values.
- Logging (`info!`, `warn!`, `error!`, `trace!`) and the `Debug` impl of the dispatcher: no functional effect.
- `src/core/logger.rs` and `src/lib.rs`: logger set-up and the C entry point are I/O.
- The keyboard, window, mouse and input event catalogs: their enums have no values and `has_event` is constantly false; only the category enum of `engine_events.rs` is copied.
