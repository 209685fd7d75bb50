/**
 * The thirteen outbound events of streamdeckevent/sent.go: their names, the
 * top-level and payload keys each one puts on the wire, and json.Marshal of
 * one, which fails only when an embedded json.RawMessage is not valid JSON.
 */
module Sent {
  import opened Wrappers
  import opened Core

  /** Where SetImage and SetTitle apply (streamdeckevent.Target). */
  datatype Target = HardwareAndSoftware | OnlyHardware | OnlySoftware

  function TargetCode(t: Target): int
  {
    match t
    case HardwareAndSoftware => 0
    case OnlyHardware => 1
    case OnlySoftware => 2
  }

  /** The Target a wire code stands for, if any. */
  function TargetOf(code: int): (r: Option<Target>)
    ensures forall t :: TargetCode(t) == code <==> r == Some(t)
  {
    if code == 0 then Some(HardwareAndSoftware)
    else if code == 1 then Some(OnlyHardware)
    else if code == 2 then Some(OnlySoftware)
    else None
  }

  datatype ImagePayload = ImagePayload(image: string, target: Target, state: Option<int>)

  datatype TitlePayload = TitlePayload(title: string, target: Target, state: Option<int>)

  /** An outbound event record; context is the plugin UUID for the two global-settings events. */
  datatype Outbound =
    | GetGlobalSettings(context: PluginUUID)
    | GetSettings(context: EventContext)
    | LogMessage(message: string)
    | OpenURL(url: string)
    | SendToPropertyInspector(action: ActionUUID, context: EventContext, data: Raw)
    | SetGlobalSettings(context: PluginUUID, settings: Raw)
    | SetImage(context: EventContext, image: ImagePayload)
    | SetSettings(context: EventContext, settings: Raw)
    | SetState(context: EventContext, state: int)
    | SetTitle(context: EventContext, title: TitlePayload)
    | ShowAlert(context: EventContext)
    | ShowOK(context: EventContext)
    | SwitchToProfile(context: EventContext, device: DeviceUUID, profile: string)

  datatype OutboundKind =
    | GetGlobalSettingsKind | GetSettingsKind | LogMessageKind | OpenURLKind
    | SendToPropertyInspectorKind | SetGlobalSettingsKind | SetImageKind | SetSettingsKind
    | SetStateKind | SetTitleKind | ShowAlertKind | ShowOKKind | SwitchToProfileKind

  function KindOf(e: Outbound): OutboundKind
  {
    match e
    case GetGlobalSettings(_) => GetGlobalSettingsKind
    case GetSettings(_) => GetSettingsKind
    case LogMessage(_) => LogMessageKind
    case OpenURL(_) => OpenURLKind
    case SendToPropertyInspector(_, _, _) => SendToPropertyInspectorKind
    case SetGlobalSettings(_, _) => SetGlobalSettingsKind
    case SetImage(_, _) => SetImageKind
    case SetSettings(_, _) => SetSettingsKind
    case SetState(_, _) => SetStateKind
    case SetTitle(_, _) => SetTitleKind
    case ShowAlert(_) => ShowAlertKind
    case ShowOK(_) => ShowOKKind
    case SwitchToProfile(_, _, _) => SwitchToProfileKind
  }

  /** The event-name constant of each outbound kind. */
  function KindName(k: OutboundKind): EventName
  {
    match k
    case GetGlobalSettingsKind => "getGlobalSettings"
    case GetSettingsKind => "getSettings"
    case LogMessageKind => "logMessage"
    case OpenURLKind => "openUrl"
    case SendToPropertyInspectorKind => "sendToPropertyInspector"
    case SetGlobalSettingsKind => "setGlobalSettings"
    case SetImageKind => "setImage"
    case SetSettingsKind => "setSettings"
    case SetStateKind => "setState"
    case SetTitleKind => "setTitle"
    case ShowAlertKind => "showAlert"
    case ShowOKKind => "showOk"
    case SwitchToProfileKind => "switchToProfile"
  }

  /** The outbound kind a name stands for; the names are pairwise distinct. */
  function ParseKind(name: EventName): (r: Option<OutboundKind>)
    ensures forall k :: KindName(k) == name <==> r == Some(k)
  {
    if name == "getGlobalSettings" then Some(GetGlobalSettingsKind)
    else if name == "getSettings" then Some(GetSettingsKind)
    else if name == "logMessage" then Some(LogMessageKind)
    else if name == "openUrl" then Some(OpenURLKind)
    else if name == "sendToPropertyInspector" then Some(SendToPropertyInspectorKind)
    else if name == "setGlobalSettings" then Some(SetGlobalSettingsKind)
    else if name == "setImage" then Some(SetImageKind)
    else if name == "setSettings" then Some(SetSettingsKind)
    else if name == "setState" then Some(SetStateKind)
    else if name == "setTitle" then Some(SetTitleKind)
    else if name == "showAlert" then Some(ShowAlertKind)
    else if name == "showOk" then Some(ShowOKKind)
    else if name == "switchToProfile" then Some(SwitchToProfileKind)
    else None
  }

  /** The "event" field of an outbound record. */
  function Name(e: Outbound): EventName
  {
    KindName(KindOf(e))
  }

  /** The top-level keys of the marshalled record; none is omitempty, so each is always present. */
  function Keys(e: Outbound): set<string>
  {
    match e
    case LogMessage(_) => {"event", "payload"}
    case OpenURL(_) => {"event", "payload"}
    case SendToPropertyInspector(_, _, _) => {"action", "event", "context", "payload"}
    case SwitchToProfile(_, _, _) => {"event", "context", "device", "payload"}
    case GetGlobalSettings(_) => {"event", "context"}
    case GetSettings(_) => {"event", "context"}
    case ShowAlert(_) => {"event", "context"}
    case ShowOK(_) => {"event", "context"}
    case _ => {"event", "context", "payload"}
  }

  /** The keys inside a typed payload object; "state" is omitted when it is nil. */
  function PayloadKeys(e: Outbound): set<string>
  {
    match e
    case LogMessage(_) => {"message"}
    case OpenURL(_) => {"url"}
    case SetImage(_, p) => {"image", "target"} + (if p.state.Some? then {"state"} else {})
    case SetState(_, _) => {"state"}
    case SetTitle(_, p) => {"title", "target"} + (if p.state.Some? then {"state"} else {})
    case SwitchToProfile(_, _, _) => {"profile"}
    case _ => {}
  }

  /** Every outbound event names its kind; only LogMessage and OpenURL are not addressed by a context. */
  lemma OutboundShape(e: Outbound)
    ensures "event" in Keys(e)
    ensures "context" in Keys(e) <==> !(e.LogMessage? || e.OpenURL?)
    ensures "payload" in Keys(e) <==> !(e.GetGlobalSettings? || e.GetSettings? || e.ShowAlert? || e.ShowOK?)
    ensures "action" in Keys(e) <==> e.SendToPropertyInspector?
    ensures "device" in Keys(e) <==> e.SwitchToProfile?
    ensures e.SetImage? ==> ("state" in PayloadKeys(e) <==> e.image.state.Some?)
    ensures e.SetTitle? ==> ("state" in PayloadKeys(e) <==> e.title.state.Some?)
  {
  }

  /** The json.RawMessage values embedded in a record. */
  function Embedded(e: Outbound): seq<Raw>
  {
    match e
    case SendToPropertyInspector(_, _, data) => [data]
    case SetGlobalSettings(_, settings) => [settings]
    case SetSettings(_, settings) => [settings]
    case _ => []
  }

  /** What goes to the core publisher: a marshalled record, or bytes passed through as they are. */
  datatype Wire = Encoded(event: Outbound) | Verbatim(raw: Raw)

  /**
   * json.Marshal of an outbound record: it fails exactly when an embedded
   * raw value is not valid JSON, and otherwise the bytes carry the record
   * unchanged.
   */
  function Marshal(e: Outbound): (r: Result<Wire, Error>)
    ensures r.Ok? <==> forall raw :: raw in Embedded(e) ==> raw.wellFormed
    ensures r.Ok? ==> r.value == Encoded(e)
    ensures r.Err? ==> r.error == InvalidJson
    ensures |Embedded(e)| == 0 ==> r.Ok?
  {
    if exists raw :: raw in Embedded(e) && !raw.wellFormed then Err(InvalidJson) else Ok(Encoded(e))
  }
}
