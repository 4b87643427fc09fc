/** The named-event bus: `addEventListener` appends a listener to an event's list and
    `emitEvent` calls that list in registration order. Listeners are opaque; a call of
    listener `l` with emission `e` is recorded as `Delivery(l, e)`. */
module Events {
  import opened Protocol

  /** One `emitEvent(name, payload)` call. */
  datatype Emission = Emission(name: string, payload: Option<string>)

  /** One call of a listener. */
  datatype Delivery = Delivery(listener: nat, event: Emission)

  type ListenerTable = map<string, seq<nat>>

  const ProgramStart := Emission("programStart", None)
  const ProgramComplete := Emission("programComplete", None)
  const ErrorEvent := Emission("error", None)

  /** `this.listeners[event] || []`. */
  function ListenersOf(table: ListenerTable, name: string): seq<nat> {
    if name in table then table[name] else []
  }

  /** The calls one emission makes: every listener in `ls`, in order, each once. */
  function Fanout(ls: seq<nat>, e: Emission): (r: seq<Delivery>)
    ensures |r| == |ls|
    ensures forall i :: 0 <= i < |ls| ==> r[i] == Delivery(ls[i], e)
  {
    if ls == [] then [] else Fanout(ls[..|ls| - 1], e) + [Delivery(ls[|ls| - 1], e)]
  }
}
