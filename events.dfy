/**
 * dispatchEvent of events.go: choose the typed handler an event name
 * selects, if the target implements it; decode the message into that
 * handler's struct only then; otherwise hand the raw message to the
 * target's generic handler, if it has one.
 */
module Events {
  import opened Wrappers
  import opened Core
  import opened Received

  /**
   * The handler interfaces a target implements: the typed ones, by the
   * event kind each receives, and whether it is a streamdeckcore.Handler.
   */
  datatype Capabilities = Capabilities(typed: set<EventKind>, raw: bool)

  /** A handler call: a typed handler with its decoded struct, or HandleEvent with the raw message. */
  datatype Invocation = TypedCall(event: TypedEvent) | RawCall(message: Message)

  /** What dispatchEvent does with one message. */
  datatype Route = Invoke(call: Invocation) | Reject(error: Error) | Ignore

  /** The target implements the typed handler the name selects. */
  predicate Claims(caps: Capabilities, name: EventName)
  {
    Parse(name).Some? && Parse(name).value in caps.typed
  }

  /**
   * The route of one message: a claimed name is decoded and either
   * rejected or handed, decoded, to its handler alone; an unclaimed name
   * goes, unchanged, to the generic handler if there is one, and otherwise
   * nowhere.
   */
  function RouteOf(caps: Capabilities, name: EventName, m: Message): (r: Route)
    ensures Claims(caps, name) ==> r != Invoke(RawCall(m)) && !r.Ignore?
    ensures Claims(caps, name) && Decode(Parse(name).value, m).Ok? ==>
      r == Invoke(TypedCall(Decode(Parse(name).value, m).value))
    ensures Claims(caps, name) && Decode(Parse(name).value, m).Err? ==> r == Reject(UnmarshalEvent(name))
    ensures r.Reject? ==> Claims(caps, name) && r.error == UnmarshalEvent(name)
    ensures r.Invoke? && r.call.TypedCall? ==>
      Name(r.call.event.kind) == name && r.call.event.kind in caps.typed && Decode(r.call.event.kind, m) == Ok(r.call.event)
    ensures !Claims(caps, name) && caps.raw <==> r == Invoke(RawCall(m))
    ensures r.Ignore? <==> !Claims(caps, name) && !caps.raw
  {
    if Claims(caps, name) then
      match Decode(Parse(name).value, m)
      case Err(e) => Reject(e)
      case Ok(event) => Invoke(TypedCall(event))
    else if caps.raw then Invoke(RawCall(m))
    else Ignore
  }

  /** A target without the typed handler never sees a decode error, whatever the message. */
  lemma UnclaimedNeverDecoded(caps: Capabilities, name: EventName, m: Message, m': Message)
    requires !Claims(caps, name)
    ensures !RouteOf(caps, name, m).Reject?
    ensures RouteOf(caps, name, m).Ignore? == RouteOf(caps, name, m').Ignore?
  {
  }

  /** A target that implements only the generic handler (a DefaultAction) always receives the raw message. */
  lemma GenericOnlyTargetGetsRaw(name: EventName, m: Message)
    ensures RouteOf(Capabilities({}, true), name, m) == Invoke(RawCall(m))
  {
  }

  /** What following a route yields: the invoked handler's result, the rejection's error, or success. */
  function Perform(r: Route, handler: Invocation -> Option<Error>): Option<Error>
  {
    match r
    case Invoke(call) => handler(call)
    case Reject(e) => Some(e)
    case Ignore => None
  }

  /**
   * dispatchEvent: for a name whose typed handler the target implements,
   * the decode error or that handler's result on the decoded event; for any
   * other name, the generic handler's result on the raw message, or success
   * when the target has no generic handler.
   */
  function DispatchEvent(caps: Capabilities, name: EventName, m: Message, handler: Invocation -> Option<Error>): (err: Option<Error>)
    ensures Claims(caps, name) && Decode(Parse(name).value, m).Err? ==> err == Some(UnmarshalEvent(name))
    ensures Claims(caps, name) && Decode(Parse(name).value, m).Ok? ==> err == handler(TypedCall(Decode(Parse(name).value, m).value))
    ensures !Claims(caps, name) ==> err == (if caps.raw then handler(RawCall(m)) else None)
  {
    Perform(RouteOf(caps, name, m), handler)
  }

  /**
   * Sends each value of table to outcome, in an unspecified order, stopping
   * at the first failure: it fails iff some value fails, and then reports
   * the key of a failing value and its error. Every key it visited before
   * the failing one succeeded; without a failure every key was visited
   * exactly once.
   */
  method Broadcast<K(==), V>(table: map<K, V>, outcome: V -> Option<Error>)
    returns (failure: Option<(K, Error)>, ghost visited: seq<K>)
    ensures failure.None? <==> forall k :: k in table ==> outcome(table[k]).None?
    ensures failure.Some? ==> failure.value.0 in table && outcome(table[failure.value.0]) == Some(failure.value.1)
    ensures forall i, j :: 0 <= i < j < |visited| ==> visited[i] != visited[j]
    ensures forall k :: k in visited ==> k in table
    ensures failure.None? ==> forall k :: k in table ==> k in visited
    ensures failure.Some? ==> |visited| > 0 && visited[|visited| - 1] == failure.value.0
    ensures forall i :: 0 <= i < |visited| - 1 ==> outcome(table[visited[i]]).None?
  {
    var pending := table.Keys;
    visited := [];
    while pending != {}
      invariant pending <= table.Keys
      invariant forall k :: k in visited <==> k in table && k !in pending
      invariant forall i, j :: 0 <= i < j < |visited| ==> visited[i] != visited[j]
      invariant forall i :: 0 <= i < |visited| ==> outcome(table[visited[i]]).None?
      decreases |pending|
    {
      var k :| k in pending;
      var e := outcome(table[k]);
      visited := visited + [k];
      if e.Some? {
        return Some((k, e.value)), visited;
      }
      pending := pending - {k};
    }
    failure := None;
  }
}
