/**
 * dispatchEvent of pkg/streamdeck/events.go: the same choice as the newer
 * generation's, but with typed handler interfaces for six event kinds
 * only; every other name goes to the target's generic handler, if any.
 * The route is followed as in the newer generation (Events.Perform).
 */
module LegacyEvents {
  import opened Wrappers
  import opened Core
  import opened Received
  import opened Events
  import LegacyTypes

  /** The target implements the typed handler the name selects, among the six this generation has. */
  predicate Claims(caps: Capabilities, name: EventName)
  {
    Parse(name).Some? && Parse(name).value in LegacyTypes.TypedKinds && Parse(name).value in caps.typed
  }

  /**
   * The route of one message: one of the six claimed names is decoded and
   * either rejected or handed, decoded, to its handler alone; any other
   * name goes, unchanged, to the generic handler if there is one, and
   * otherwise nowhere.
   */
  function RouteOf(caps: Capabilities, name: EventName, m: Message): (r: Route)
    ensures r.Invoke? && r.call.TypedCall? ==>
      Name(r.call.event.kind) == name && r.call.event.kind in LegacyTypes.TypedKinds && r.call.event.kind in caps.typed
      && Decode(r.call.event.kind, m) == Ok(r.call.event)
    ensures Claims(caps, name) && Decode(Parse(name).value, m).Ok? ==>
      r == Invoke(TypedCall(Decode(Parse(name).value, m).value))
    ensures r.Reject? <==> Claims(caps, name) && Decode(Parse(name).value, m).Err?
    ensures r.Reject? ==> r.error == UnmarshalEvent(name)
    ensures !Claims(caps, name) && caps.raw <==> r == Invoke(RawCall(m))
    ensures r.Ignore? <==> !Claims(caps, name) && !caps.raw
  {
    if Claims(caps, name) then
      match Decode(Parse(name).value, m)
      case Err(e) => Reject(e)
      case Ok(event) => Invoke(TypedCall(event))
    else if caps.raw then Invoke(RawCall(m))
    else Ignore
  }
}
