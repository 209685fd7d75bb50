/**
 * pkg/streamdeck/streamdeckcore/types.go: the older generation's fifteen
 * event-name constants (six inbound, nine outbound), its Target values and
 * the layouts of its six inbound structs.
 */
module LegacyTypes {
  import opened Wrappers
  import opened Core
  import Received
  import Sent

  datatype LegacyName =
    | DidReceiveSettings | DidReceiveGlobalSettings | GetGlobalSettings | GetSettings
    | KeyDown | KeyUp | SetGlobalSettings | SetImage | SetSettings | SetState
    | SetTitle | ShowAlert | ShowOK | WillAppear | WillDisappear

  function Name(n: LegacyName): EventName
  {
    match n
    case DidReceiveSettings => "didReceiveSettings"
    case DidReceiveGlobalSettings => "didReceiveGlobalSettings"
    case GetGlobalSettings => "getGlobalSettings"
    case GetSettings => "getSettings"
    case KeyDown => "keyDown"
    case KeyUp => "keyUp"
    case SetGlobalSettings => "setGlobalSettings"
    case SetImage => "setImage"
    case SetSettings => "setSettings"
    case SetState => "setState"
    case SetTitle => "setTitle"
    case ShowAlert => "showAlert"
    case ShowOK => "showOk"
    case WillAppear => "willAppear"
    case WillDisappear => "willDisappear"
  }

  /** The constant a name spells, if any; the fifteen spellings are pairwise distinct. */
  function Parse(name: EventName): (r: Option<LegacyName>)
    ensures forall n :: Name(n) == name <==> r == Some(n)
  {
    if name == "didReceiveSettings" then Some(DidReceiveSettings)
    else if name == "didReceiveGlobalSettings" then Some(DidReceiveGlobalSettings)
    else if name == "getGlobalSettings" then Some(GetGlobalSettings)
    else if name == "getSettings" then Some(GetSettings)
    else if name == "keyDown" then Some(KeyDown)
    else if name == "keyUp" then Some(KeyUp)
    else if name == "setGlobalSettings" then Some(SetGlobalSettings)
    else if name == "setImage" then Some(SetImage)
    else if name == "setSettings" then Some(SetSettings)
    else if name == "setState" then Some(SetState)
    else if name == "setTitle" then Some(SetTitle)
    else if name == "showAlert" then Some(ShowAlert)
    else if name == "showOk" then Some(ShowOK)
    else if name == "willAppear" then Some(WillAppear)
    else if name == "willDisappear" then Some(WillDisappear)
    else None
  }

  /** The six inbound constants, as the newer generation's event kinds. */
  function Inbound(n: LegacyName): Option<Received.EventKind>
  {
    match n
    case DidReceiveSettings => Some(Received.DidReceiveSettings)
    case DidReceiveGlobalSettings => Some(Received.DidReceiveGlobalSettings)
    case KeyDown => Some(Received.KeyDown)
    case KeyUp => Some(Received.KeyUp)
    case WillAppear => Some(Received.WillAppear)
    case WillDisappear => Some(Received.WillDisappear)
    case _ => None
  }

  /** The nine outbound constants, as the newer generation's outbound kinds. */
  function Outbound(n: LegacyName): Option<Sent.OutboundKind>
  {
    match n
    case GetGlobalSettings => Some(Sent.GetGlobalSettingsKind)
    case GetSettings => Some(Sent.GetSettingsKind)
    case SetGlobalSettings => Some(Sent.SetGlobalSettingsKind)
    case SetImage => Some(Sent.SetImageKind)
    case SetSettings => Some(Sent.SetSettingsKind)
    case SetState => Some(Sent.SetStateKind)
    case SetTitle => Some(Sent.SetTitleKind)
    case ShowAlert => Some(Sent.ShowAlertKind)
    case ShowOK => Some(Sent.ShowOKKind)
    case _ => None
  }

  /** The inbound kinds that have a typed path in this generation. */
  const TypedKinds: set<Received.EventKind> :=
    {Received.DidReceiveSettings, Received.DidReceiveGlobalSettings, Received.KeyDown,
     Received.KeyUp, Received.WillAppear, Received.WillDisappear}

  /**
   * Every constant is inbound or outbound and not both, and each is spelled
   * exactly as the newer generation spells the same event.
   */
  lemma {:induction false} SpellingsAgree(n: LegacyName)
    ensures Inbound(n).Some? != Outbound(n).Some?
    ensures Inbound(n).Some? ==> Received.Name(Inbound(n).value) == Name(n) && Inbound(n).value in TypedKinds
    ensures Outbound(n).Some? ==> Sent.KindName(Outbound(n).value) == Name(n)
  {
    match n
    case DidReceiveSettings =>
    case DidReceiveGlobalSettings =>
    case GetGlobalSettings =>
    case GetSettings =>
    case KeyDown =>
    case KeyUp =>
    case SetGlobalSettings =>
    case SetImage =>
    case SetSettings =>
    case SetState =>
    case SetTitle =>
    case ShowAlert =>
    case ShowOK =>
    case WillAppear =>
    case WillDisappear =>
  }

  /** Each of the six typed kinds has a constant of its own. */
  lemma TypedKindsNamed(k: Received.EventKind)
    requires k in TypedKinds
    ensures Parse(Received.Name(k)).Some? && Inbound(Parse(Received.Name(k)).value) == Some(k)
  {
    if k == Received.DidReceiveSettings {
      assert Name(DidReceiveSettings) == Received.Name(k);
    } else if k == Received.DidReceiveGlobalSettings {
      assert Name(DidReceiveGlobalSettings) == Received.Name(k);
    } else if k == Received.KeyDown {
      assert Name(KeyDown) == Received.Name(k);
    } else if k == Received.KeyUp {
      assert Name(KeyUp) == Received.Name(k);
    } else if k == Received.WillAppear {
      assert Name(WillAppear) == Received.Name(k);
    } else {
      assert Name(WillDisappear) == Received.Name(k);
    }
  }

  /** The six inbound structs, with their json tags as written. */
  function LayoutAsWritten(k: Received.EventKind): Received.Shape
    requires k in TypedKinds
  {
    match k
    case DidReceiveGlobalSettings => Received.Shape(false, false, false, Received.StructAt("settings", ["settings"]))
    case DidReceiveSettings => Received.Shape(true, true, true, Received.StructAt("payload", ["settings", "coordinates", "isInMultiAction"]))
    case KeyDown => Received.Shape(true, true, true, Received.StructAt("payload", ["settings", "coordinates", "state", "userDesiredState", "isInMultiAction"]))
    case KeyUp => Received.Shape(true, true, true, Received.StructAt("payload", ["settings", "coordinates", "state", "userDesiredState", "isInMultiAction"]))
    case WillAppear => Received.Shape(true, true, true, Received.StructAt("payload", ["settings", "coordinates", "state", "isInMultiAction"]))
    case WillDisappear => Received.Shape(true, true, true, Received.StructAt("payload", ["settings", "coordinates", "state", "isInMultiAction"]))
  }

  /**
   * The six structs are laid out exactly as in the newer generation,
   * including the "settings" tag on the global-settings payload, so the
   * same decode, and the same correction, serve both.
   */
  lemma LayoutsAgree(k: Received.EventKind)
    requires k in TypedKinds
    ensures LayoutAsWritten(k) == Received.LayoutAsWritten(k)
  {
  }

  /** As written here too, the host's global settings decode to an empty payload. */
  lemma GlobalSettingsDroppedAsWritten()
    ensures Received.DecodeWith(LayoutAsWritten(Received.DidReceiveGlobalSettings), Received.DidReceiveGlobalSettings, Received.GlobalSettingsMessage).Ok?
    ensures Received.DecodeWith(LayoutAsWritten(Received.DidReceiveGlobalSettings), Received.DidReceiveGlobalSettings, Received.GlobalSettingsMessage).value.payload == Some(Null)
    ensures Received.Decode(Received.DidReceiveGlobalSettings, Received.GlobalSettingsMessage).value.payload
         == Some(Field(Received.GlobalSettingsMessage, "payload"))
  {
    Received.GlobalSettingsDroppedAsWritten();
    var m := Received.GlobalSettingsMessage;
    assert Field(m, "payload") == Compound("{\"settings\":{\"enabled\":true}}", true);
  }

  /** Target values are exactly 0, 1 and 2, shared with the newer generation. */
  lemma TargetCodes(code: int)
    ensures Sent.TargetOf(code).Some? <==> 0 <= code <= 2
  {
    if 0 <= code <= 2 {
      assert Sent.TargetCode([Sent.HardwareAndSoftware, Sent.OnlyHardware, Sent.OnlySoftware][code]) == code;
    }
  }
}
