/**
 * The event envelope and the type-erased payload container.
 *
 * Rust's `Box<dyn Any>` can hold a value of any type; the engine only ever
 * stores two: the coordinates `Vec<i128>` of `ExampleEventWithData` and an
 * `ExitReason`. The container is therefore a closed tagged union, and
 * `get_ref::<T>()` becomes a comparison of the stored value's tag with the
 * tag of the requested type.
 */
module Events {
  import opened Wrappers
  import opened ExitHandlers

  /** Rust's `i128`, the coordinate type of `ExampleEventWithData`. */
  newtype i128 = x: int | -0x8000_0000_0000_0000_0000_0000_0000_0000 <= x < 0x8000_0000_0000_0000_0000_0000_0000_0000

  /** The concrete types a payload can have: stands for Rust's `TypeId`. */
  datatype TypeTag = VecI128Type | ExitReasonType

  /** A value of one of those types. */
  datatype AnyValue = VecI128(items: seq<i128>) | ExitReasonValue(reason: ExitReason)

  function TypeOf(v: AnyValue): TypeTag
  {
    match v
    case VecI128(_) => VecI128Type
    case ExitReasonValue(_) => ExitReasonType
  }

  /** `DynamicStore::new(value)`: the store owns exactly the value it was built from. */
  datatype DynamicStore = DynamicStore(value: AnyValue)

  /**
   * `get_ref::<T>()`, with `T` given by its tag: the stored value when its
   * concrete type is `T`, nothing otherwise. Never fails and never changes the store.
   */
  function GetRef(store: DynamicStore, t: TypeTag): Option<AnyValue>
  {
    if TypeOf(store.value) == t then Some(store.value) else None
  }

  /** `get_ref::<Vec<i128>>()`, typed. */
  function GetCoords(store: DynamicStore): (r: Option<seq<i128>>)
    ensures r.Some? <==> GetRef(store, VecI128Type).Some?
    ensures r.Some? ==> GetRef(store, VecI128Type) == Some(VecI128(r.value))
  {
    match store.value
    case VecI128(items) => Some(items)
    case _ => None
  }

  /** `get_ref::<ExitReason>()`, typed. */
  function GetExitReason(store: DynamicStore): (r: Option<ExitReason>)
    ensures r.Some? <==> GetRef(store, ExitReasonType).Some?
    ensures r.Some? ==> GetRef(store, ExitReasonType) == Some(ExitReasonValue(r.value))
  {
    match store.value
    case ExitReasonValue(reason) => Some(reason)
    case _ => None
  }

  /** Retrieving with the stored value's own type yields that value. */
  lemma GetRefOwnType(v: AnyValue)
    ensures GetRef(DynamicStore(v), TypeOf(v)) == Some(v)
  {
  }

  /** Retrieving with any other type yields nothing. */
  lemma GetRefOtherType(v: AnyValue, t: TypeTag)
    requires t != TypeOf(v)
    ensures GetRef(DynamicStore(v), t) == None
  {
  }

  /** At most one requested type succeeds on a given store. */
  lemma GetRefAtMostOneType(store: DynamicStore, t: TypeTag, u: TypeTag)
    requires GetRef(store, t).Some? && GetRef(store, u).Some?
    ensures t == u
  {
  }

  /**
   * What the bus sees of an event (the `Event` trait): its name, the dispatch
   * key shared by every event of one kind, and an optional payload.
   */
  datatype Event = Event(name: string, data: Option<DynamicStore>)
}
