/**
 * The fifteen inbound events of streamdeckevent/received.go: their names,
 * the routing fields each typed struct declares, where each struct reads
 * its payload from, and the typed decode that events.go performs.
 */
module Received {
  import opened Wrappers
  import opened Core

  datatype EventKind =
    | ApplicationDidLaunch
    | ApplicationDidTerminate
    | DeviceDidConnect
    | DeviceDidDisconnect
    | DidReceiveGlobalSettings
    | DidReceiveSettings
    | KeyDown
    | KeyUp
    | PropertyInspectorDidAppear
    | PropertyInspectorDidDisappear
    | SendToPlugin
    | SystemDidWakeUp
    | TitleParametersDidChange
    | WillAppear
    | WillDisappear

  /** The event-name constant of each kind. */
  function Name(k: EventKind): EventName
  {
    match k
    case ApplicationDidLaunch => "applicationDidLaunch"
    case ApplicationDidTerminate => "applicationDidTerminate"
    case DeviceDidConnect => "deviceDidConnect"
    case DeviceDidDisconnect => "deviceDidDisconnect"
    case DidReceiveGlobalSettings => "didReceiveGlobalSettings"
    case DidReceiveSettings => "didReceiveSettings"
    case KeyDown => "keyDown"
    case KeyUp => "keyUp"
    case PropertyInspectorDidAppear => "propertyInspectorDidAppear"
    case PropertyInspectorDidDisappear => "propertyInspectorDidDisappear"
    case SendToPlugin => "sendToPlugin"
    case SystemDidWakeUp => "systemDidWakeUp"
    case TitleParametersDidChange => "titleParametersDidChange"
    case WillAppear => "willAppear"
    case WillDisappear => "willDisappear"
  }

  /** The case of the dispatcher's switch that a name selects, if any. */
  function Parse(name: EventName): (r: Option<EventKind>)
    ensures forall k :: Name(k) == name <==> r == Some(k)
  {
    if name == "applicationDidLaunch" then Some(ApplicationDidLaunch)
    else if name == "applicationDidTerminate" then Some(ApplicationDidTerminate)
    else if name == "deviceDidConnect" then Some(DeviceDidConnect)
    else if name == "deviceDidDisconnect" then Some(DeviceDidDisconnect)
    else if name == "didReceiveGlobalSettings" then Some(DidReceiveGlobalSettings)
    else if name == "didReceiveSettings" then Some(DidReceiveSettings)
    else if name == "keyDown" then Some(KeyDown)
    else if name == "keyUp" then Some(KeyUp)
    else if name == "propertyInspectorDidAppear" then Some(PropertyInspectorDidAppear)
    else if name == "propertyInspectorDidDisappear" then Some(PropertyInspectorDidDisappear)
    else if name == "sendToPlugin" then Some(SendToPlugin)
    else if name == "systemDidWakeUp" then Some(SystemDidWakeUp)
    else if name == "titleParametersDidChange" then Some(TitleParametersDidChange)
    else if name == "willAppear" then Some(WillAppear)
    else if name == "willDisappear" then Some(WillDisappear)
    else None
  }

  /** The fifteen names are pairwise distinct. */
  lemma NamesDistinct(a: EventKind, b: EventKind)
    ensures Name(a) == Name(b) ==> a == b
  {
    var _ := Parse(Name(a));
  }

  /** Where a typed struct takes its payload from: nowhere, a struct under a key, or raw bytes under a key. */
  datatype PayloadSlot = NoPayload | StructAt(key: string, fields: seq<string>) | RawAt(key: string)

  /** Which routing fields a typed struct declares, besides its event name, and its payload. */
  datatype Shape = Shape(action: bool, context: bool, device: bool, payload: PayloadSlot)

  const KeyPayloadFields: seq<string> := ["settings", "coordinates", "state", "userDesiredState", "isInMultiAction"]

  /** The struct declarations with their json tags exactly as written. */
  function LayoutAsWritten(k: EventKind): Shape
  {
    match k
    case ApplicationDidLaunch => Shape(false, false, false, StructAt("payload", ["application"]))
    case ApplicationDidTerminate => Shape(false, false, false, StructAt("payload", ["application"]))
    case DeviceDidConnect => Shape(false, false, true, StructAt("deviceInfo", ["type", "size", "deviceName"]))
    case DeviceDidDisconnect => Shape(false, false, true, NoPayload)
    case DidReceiveGlobalSettings => Shape(false, false, false, StructAt("settings", ["settings"]))
    case DidReceiveSettings => Shape(true, true, true, StructAt("payload", ["settings", "coordinates", "isInMultiAction"]))
    case KeyDown => Shape(true, true, true, StructAt("payload", KeyPayloadFields))
    case KeyUp => Shape(true, true, true, StructAt("payload", ["settings", "coordinates", "state", "userDesiredState", "isInMultiAction"]))
    case PropertyInspectorDidAppear => Shape(true, true, true, NoPayload)
    case PropertyInspectorDidDisappear => Shape(true, true, true, NoPayload)
    case SendToPlugin => Shape(true, true, false, RawAt("payload"))
    case SystemDidWakeUp => Shape(false, false, false, NoPayload)
    case TitleParametersDidChange => Shape(true, true, true, StructAt("payload", ["coordinates", "settings", "state", "title"]))
    case WillAppear => Shape(true, true, true, StructAt("payload", ["settings", "coordinates", "state", "isInMultiAction"]))
    case WillDisappear => Shape(true, true, true, StructAt("payload", ["settings", "coordinates", "state", "isInMultiAction"]))
  }

  /**
   * The layouts the rest of the model decodes with: as written, except that
   * DidReceiveGlobalSettings reads its payload from the envelope's
   * "payload" key, where the host puts the global settings.
   */
  function Layout(k: EventKind): (l: Shape)
    ensures k != DidReceiveGlobalSettings ==> l == LayoutAsWritten(k)
    ensures l.payload.StructAt? && k != DeviceDidConnect ==> l.payload.key == "payload"
    ensures l.payload.RawAt? ==> l.payload.key == "payload"
  {
    if k == DidReceiveGlobalSettings then Shape(false, false, false, StructAt("payload", ["settings"]))
    else LayoutAsWritten(k)
  }

  /** The events that concern the plugin as a whole declare neither action nor context. */
  lemma PluginEventsCarryNoAddress(k: EventKind)
    ensures !Layout(k).action && !Layout(k).context <==>
      k in {ApplicationDidLaunch, ApplicationDidTerminate, DeviceDidConnect, DeviceDidDisconnect, DidReceiveGlobalSettings, SystemDidWakeUp}
    ensures Layout(k).action <==> Layout(k).context
  {
  }

  /** SendToPlugin is addressed to an instance but carries no device and takes its payload unparsed. */
  lemma SendToPluginShape()
    ensures Layout(SendToPlugin) == Shape(true, true, false, RawAt("payload"))
  {
  }

  /** The KeyDown and KeyUp payloads declare the same fields. */
  lemma KeyPayloadsAlike()
    ensures Layout(KeyDown) == Layout(KeyUp)
  {
  }

  /** The events about one key or its property inspector declare action, context and device alike. */
  lemma AddressedKindsCarryDevice(k: EventKind)
    requires k in {KeyDown, KeyUp, WillAppear, WillDisappear, DidReceiveSettings, TitleParametersDidChange,
                   PropertyInspectorDidAppear, PropertyInspectorDidDisappear}
    ensures Layout(k).action && Layout(k).context && Layout(k).device
  {
  }

  /** A decoded typed event: the kind it was decoded as and the fields its struct declares. */
  datatype TypedEvent = TypedEvent(
    kind: EventKind,
    event: EventName,
    action: Option<ActionUUID>,
    context: Option<EventContext>,
    device: Option<DeviceUUID>,
    payload: Option<Value>)

  function StringAt(declared: bool, m: Message, key: string): Option<string>
    requires m.Envelope?
  {
    if declared then Some(Text(Field(m, key))) else None
  }

  /** A string field accepts null or a string. */
  predicate StringFits(declared: bool, m: Message, key: string)
    requires m.Envelope?
  {
    declared ==> !Field(m, key).Compound?
  }

  /** A struct payload accepts null or a value of its shape; a raw payload accepts anything. */
  predicate SlotFits(slot: PayloadSlot, m: Message)
    requires m.Envelope?
  {
    match slot
    case NoPayload => true
    case StructAt(key, _) => Field(m, key).Null? || (Field(m, key).Compound? && Field(m, key).fits)
    case RawAt(_) => true
  }

  function PayloadOf(slot: PayloadSlot, m: Message): Option<Value>
    requires m.Envelope?
  {
    match slot
    case NoPayload => None
    case StructAt(key, _) => Some(Field(m, key))
    case RawAt(key) => Some(Field(m, key))
  }

  predicate Decodable(l: Shape, m: Message)
  {
    && m.Envelope?
    && StringFits(true, m, "event")
    && StringFits(l.action, m, "action")
    && StringFits(l.context, m, "context")
    && StringFits(l.device, m, "device")
    && SlotFits(l.payload, m)
  }

  /** json.Unmarshal of the raw message into the typed struct of kind k laid out as l. */
  function DecodeWith(l: Shape, k: EventKind, m: Message): Result<TypedEvent, Error>
  {
    if !Decodable(l, m) then Err(UnmarshalEvent(Name(k)))
    else Ok(TypedEvent(
      k,
      Text(Field(m, "event")),
      StringAt(l.action, m, "action"),
      StringAt(l.context, m, "context"),
      StringAt(l.device, m, "device"),
      PayloadOf(l.payload, m)))
  }

  /**
   * The typed decode: a failure names the event; a success has exactly the
   * routing fields the struct declares, copied from the message unchanged.
   */
  function Decode(k: EventKind, m: Message): (r: Result<TypedEvent, Error>)
    ensures m.Malformed? ==> r.Err?
    ensures r.Err? ==> r.error == UnmarshalEvent(Name(k))
    ensures r.Ok? <==> Decodable(Layout(k), m)
    ensures r.Ok? ==> r.value.kind == k
    ensures r.Ok? ==> (r.value.action.Some? <==> Layout(k).action) && (r.value.context.Some? <==> Layout(k).context)
    ensures r.Ok? ==> (r.value.device.Some? <==> Layout(k).device) && (r.value.payload.Some? <==> !Layout(k).payload.NoPayload?)
    ensures r.Ok? && Layout(k).action ==> r.value.action == Some(Text(Field(m, "action")))
    ensures r.Ok? && Layout(k).context ==> r.value.context == Some(Text(Field(m, "context")))
  {
    DecodeWith(Layout(k), k, m)
  }

  /**
   * With the corrected layout every payload the host sends under "payload"
   * reaches the typed event unchanged; DeviceDidConnect is the one struct
   * whose payload lives elsewhere ("deviceInfo").
   */
  lemma PayloadDelivered(k: EventKind, m: Message)
    requires Decode(k, m).Ok? && !Layout(k).payload.NoPayload? && k != DeviceDidConnect
    ensures Decode(k, m).value.payload == Some(Field(m, "payload"))
  {
  }

  /** A didReceiveGlobalSettings message as the host sends it, settings inside "payload". */
  const GlobalSettingsMessage: Message :=
    Envelope(map["event" := Str("didReceiveGlobalSettings"), "payload" := Compound("{\"settings\":{\"enabled\":true}}", true)])

  /**
   * As written, the struct reads its payload from a top-level "settings"
   * key: decoding the host's message succeeds but yields an empty payload,
   * so the settings never reach the handler. The corrected decode keeps them.
   */
  lemma GlobalSettingsDroppedAsWritten()
    ensures DecodeWith(LayoutAsWritten(DidReceiveGlobalSettings), DidReceiveGlobalSettings, GlobalSettingsMessage).Ok?
    ensures DecodeWith(LayoutAsWritten(DidReceiveGlobalSettings), DidReceiveGlobalSettings, GlobalSettingsMessage).value.payload == Some(Null)
    ensures Decode(DidReceiveGlobalSettings, GlobalSettingsMessage).value.payload
         == Some(Compound("{\"settings\":{\"enabled\":true}}", true))
  {
    var m := GlobalSettingsMessage;
    assert Field(m, "settings") == Null;
    assert Field(m, "event") == Str("didReceiveGlobalSettings");
    assert Field(m, "payload") == Compound("{\"settings\":{\"enabled\":true}}", true);
  }
}
