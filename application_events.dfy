/**
 * The application event catalog: three event kinds, their names, their
 * payloads and their category. Every operation is a single `match`.
 */
module ApplicationEvents {
  import opened Wrappers
  import opened ExitHandlers
  import opened Events

  /** The categories an engine event can belong to. */
  datatype EngineEventCategory = Application | Window | Input | Keyboard | Mouse

  datatype ApplicationEvent =
    | Exit(reason: ExitReason)
    | ExampleEvent
    | ExampleEventWithData(x: i128, y: i128)

  function GetName(v: ApplicationEvent): string
  {
    match v
    case ExampleEvent => "ExampleEvent"
    case ExampleEventWithData(_, _) => "ExampleEventWithData"
    case Exit(_) => "Exit"
  }

  /** The static membership test of the category. */
  predicate HasEvent(name: string)
  {
    match name
    case "ExampleEvent" => true
    case "ExampleEventWithData" => true
    case "Exit" => true
    case _ => false
  }

  /** A fresh payload: the coordinates `[x, y]`, the exit reason, or nothing. */
  function GetData(v: ApplicationEvent): Option<DynamicStore>
  {
    match v
    case ExampleEventWithData(x, y) => Some(DynamicStore(VecI128([x, y])))
    case Exit(reason) => Some(DynamicStore(ExitReasonValue(reason)))
    case ExampleEvent => None
  }

  function GetCategory(v: ApplicationEvent): EngineEventCategory
  {
    Application
  }

  function GetParentCategory(v: ApplicationEvent): Option<EngineEventCategory>
  {
    None
  }

  /** The envelope of an application event, as the queue and the dispatchers see it. */
  function AsEvent(v: ApplicationEvent): (e: Event)
    ensures e.name == GetName(v) && e.data == GetData(v)
    ensures HasEvent(e.name)
  {
    Event(GetName(v), GetData(v))
  }

  /** Each kind has its own fixed name: names identify kinds, not instances. */
  lemma GetNameIdentifiesKind(a: ApplicationEvent, b: ApplicationEvent)
    ensures GetName(a) == GetName(b) <==>
      (a.Exit? && b.Exit?) || (a.ExampleEvent? && b.ExampleEvent?) ||
      (a.ExampleEventWithData? && b.ExampleEventWithData?)
  {
  }

  /** The names the catalog produces are exactly the ones it claims to hold. */
  lemma HasEventExactlyNames(name: string)
    ensures HasEvent(name) <==> exists v :: GetName(v) == name
  {
    if HasEvent(name) {
      var kind :=
        if name == "Exit" then Exit(Normal)
        else if name == "ExampleEvent" then ExampleEvent
        else ExampleEventWithData(0, 0);
      assert GetName(kind) == name;
    }
  }

  /** `has_event` holds of exactly the three kind names. */
  lemma HasEventNames(name: string)
    ensures HasEvent(name) <==> name in {"ExampleEvent", "ExampleEventWithData", "Exit"}
  {
  }

  /** Typed retrieval of the payloads: `[x, y]` as a `Vec<i128>`, the reason as an `ExitReason`. */
  lemma GetDataRetrieval(v: ApplicationEvent)
    ensures v.ExampleEventWithData? ==>
      GetData(v).Some? && GetCoords(GetData(v).value) == Some([v.x, v.y]) &&
      GetExitReason(GetData(v).value) == None
    ensures v.Exit? ==>
      GetData(v).Some? && GetExitReason(GetData(v).value) == Some(v.reason) &&
      GetCoords(GetData(v).value) == None
    ensures v.ExampleEvent? ==> GetData(v) == None
  {
  }

  /** Every application event is in the Application category, which has no parent. */
  lemma CategoryIsApplication(v: ApplicationEvent)
    ensures GetCategory(v) == Application && GetParentCategory(v) == None
  {
  }
}
