/**
 * The identities, the inbound message and the error values shared by both
 * generations of the framework (the streamdeckcore packages).
 *
 * JSON is not parsed here. An inbound message is either malformed or an
 * object whose top-level fields are abstract values. Malformed stands for
 * whatever a Go struct decoder rejects outright: bytes that are not JSON,
 * and a top-level string, number, boolean or array. A top-level null
 * decodes into a struct without error and leaves it zero, so it is the
 * object with no fields (NullMessage). A Go struct decoder fails on an
 * object only when a field it reads holds a value of the wrong kind;
 * absent fields and null leave the zero value.
 */
module Core {
  import opened Wrappers

  type PluginUUID = string
  type ActionUUID = string
  type EventContext = string
  type DeviceUUID = string
  type EventName = string

  /** Bytes passed through unparsed (json.RawMessage); wellFormed says whether they are valid JSON. */
  datatype Raw = Raw(text: string, wellFormed: bool)

  /** One top-level field of an inbound object. */
  datatype Value =
    | Null                               // JSON null
    | Str(s: string)                     // a JSON string
    | Compound(text: string, fits: bool) // a number, boolean, object or array; fits: matches the typed shape read from it

  /** An inbound message: not a JSON object at all, or an object keyed by field name. */
  datatype Message = Malformed(text: string) | Envelope(fields: map<string, Value>)

  /** The message JSON null: it reads exactly as an object with no fields. */
  const NullMessage: Message := Envelope(map[])

  /** The value a decoder sees under key (absent reads as null). */
  function Field(m: Message, key: string): Value
    requires m.Envelope?
  {
    if key in m.fields then m.fields[key] else Null
  }

  /** What a Go string field receives from v, when v decodes into it at all. */
  function Text(v: Value): string
  {
    if v.Str? then v.s else ""
  }

  /** The errors the code returns, one constructor per message format it uses. */
  datatype Error =
    | UnmarshalHeader                                                   // "unmarshalling action and eventHeader"
    | UnmarshalActionAndEvent                                           // "unmarshalling action and event"
    | UnmarshalEvent(event: EventName)                                  // "unmarshalling %s"
    | UnknownAction(action: ActionUUID)                                 // "unknown action %q"
    | DispatchToInstance(event: EventName, context: EventContext, cause: Error)  // "dispatching event %q to action instance %q"
    | DispatchToAction(event: EventName, action: ActionUUID, cause: Error)       // "dispatching event %q to action %q"
    | DispatchToMuxInstance(context: EventContext, cause: Error)                 // "dispatching to instance %q"
    | DispatchToHolderInstance(action: ActionUUID, context: EventContext, cause: Error) // "dispatching to action %q, instance %q"
    | InvalidJson                                                       // encoding/json refused the bytes
    | MarshalEvent(event: EventName, cause: Error)                      // "marshaling event %q"
    | PublishEvent(event: EventName, cause: Error)                      // "publishing event %q"
    | SendFailed                                                        // the connection's write failed
    | HandlerFailed(reason: string)                                     // returned by an instance's own handler
    | NoSettings(context: EventContext)                                 // "no settings for context %q"
    | Annotated(note: string, cause: Error)                             // any other "note: %w" wrapping

  /** The routing fields a header decoder may read. */
  datatype HeaderKey = EventKey | ActionKey | ContextKey

  function KeyName(k: HeaderKey): string
  {
    match k
    case EventKey => "event"
    case ActionKey => "action"
    case ContextKey => "context"
  }

  /** The anonymous eventHeader struct; a field the decoder does not read stays empty. */
  datatype Header = Header(event: EventName, action: ActionUUID, context: EventContext) {
    function Get(k: HeaderKey): string
    {
      match k
      case EventKey => event
      case ActionKey => action
      case ContextKey => context
    }
  }

  function ReadKey(m: Message, keys: set<HeaderKey>, k: HeaderKey): string
    requires m.Envelope?
  {
    if k in keys then Text(Field(m, KeyName(k))) else ""
  }

  /**
   * json.Unmarshal of the raw message into a header struct declaring the
   * given keys: it fails when the message is not an object or a declared
   * key holds a non-string, and otherwise copies each declared string,
   * reading an absent one as empty.
   */
  function DecodeHeader(m: Message, keys: set<HeaderKey>): (r: Result<Header, Error>)
    ensures r.Ok? <==> m.Envelope? && forall k :: k in keys ==> !Field(m, KeyName(k)).Compound?
    ensures r.Err? ==> r.error == UnmarshalHeader
    ensures r.Ok? ==> forall k :: k !in keys ==> r.value.Get(k) == ""
    ensures r.Ok? ==> forall k :: k in keys && Field(m, KeyName(k)).Str? ==> r.value.Get(k) == Field(m, KeyName(k)).s
    ensures r.Ok? ==> forall k :: k in keys && !Field(m, KeyName(k)).Str? ==> r.value.Get(k) == ""
  {
    if m.Malformed? then Err(UnmarshalHeader)
    else if exists k :: k in keys && Field(m, KeyName(k)).Compound? then Err(UnmarshalHeader)
    else Ok(Header(ReadKey(m, keys, EventKey), ReadKey(m, keys, ActionKey), ReadKey(m, keys, ContextKey)))
  }

  /**
   * A null message decodes, whatever header struct reads it, to the zero
   * header: an empty event, action and context.
   */
  lemma NullMessageReadsAsZero(keys: set<HeaderKey>)
    ensures DecodeHeader(NullMessage, keys) == Ok(Header("", "", ""))
  {
    assert forall k :: DecodeHeader(NullMessage, keys).value.Get(k) == "";
  }
}
