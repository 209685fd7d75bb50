/**
 * coreActionInstancePublisher of publish.go: the publisher an action
 * instance receives, with the plugin UUID, action UUID and event context
 * fixed when it is built. Each command stamps those identities into one
 * outbound record and writes it to the shared core publisher.
 */
module Publish {
  import opened Wrappers
  import opened Core
  import opened Sent
  import opened Transport

  /** An ActionInstancePublisher command, with what its caller supplies. */
  datatype Command =
    | GetGlobalSettingsCmd
    | GetSettingsCmd
    | LogMessageCmd(message: string)
    | OpenURLCmd(url: string)
    | SendToPropertyInspectorCmd(data: Raw)
    | SetGlobalSettingsCmd(settings: Raw)
    | SetImageCmd(image: ImagePayload)
    | SetSettingsCmd(settings: Raw)
    | SetStateCmd(state: int)
    | SetTitleCmd(title: TitlePayload)
    | ShowAlertCmd
    | ShowOKCmd
    | SwitchToProfileCmd(profile: string)

  /**
   * The identities of an outbound record that a publisher fills in itself:
   * what remains is exactly what the command's caller supplied.
   */
  function Unstamp(e: Outbound): (cmd: Command)
  {
    match e
    case GetGlobalSettings(_) => GetGlobalSettingsCmd
    case GetSettings(_) => GetSettingsCmd
    case LogMessage(message) => LogMessageCmd(message)
    case OpenURL(url) => OpenURLCmd(url)
    case SendToPropertyInspector(_, _, data) => SendToPropertyInspectorCmd(data)
    case SetGlobalSettings(_, settings) => SetGlobalSettingsCmd(settings)
    case SetImage(_, image) => SetImageCmd(image)
    case SetSettings(_, settings) => SetSettingsCmd(settings)
    case SetState(_, state) => SetStateCmd(state)
    case SetTitle(_, title) => SetTitleCmd(title)
    case ShowAlert(_) => ShowAlertCmd
    case ShowOK(_) => ShowOKCmd
    case SwitchToProfile(_, _, profile) => SwitchToProfileCmd(profile)
  }

  /** The "publishing event %q" / "marshaling event %q" contract of publish for one record. */
  predicate Published(before: seq<Wire>, after: seq<Wire>, open: bool, e: Outbound, err: Option<Error>)
  {
    if Marshal(e).Err? then err == Some(MarshalEvent(Name(e), InvalidJson)) && after == before
    else if open then err == None && after == before + [Encoded(e)]
    else err == Some(Error.PublishEvent(Name(e), SendFailed)) && after == before
  }

  datatype InstancePublisher = InstancePublisher(
    deviceUUID: DeviceUUID,
    pluginUUID: PluginUUID,
    actionUUID: ActionUUID,
    eventContext: EventContext,
    core: Connection?<Wire>)
  {
    /** Whether e carries exactly this publisher's identities where its kind has them. */
    predicate Addressed(e: Outbound)
    {
      && (e.GetGlobalSettings? || e.SetGlobalSettings? ==> e.context == pluginUUID)
      && ("context" in Keys(e) && !(e.GetGlobalSettings? || e.SetGlobalSettings?) ==> e.context == eventContext)
      && (e.SendToPropertyInspector? ==> e.action == actionUUID)
      && (e.SwitchToProfile? ==> e.device == deviceUUID)
    }

    /**
     * The record a command builds: the global-settings commands carry the
     * plugin UUID as context, SendToPropertyInspector carries the action
     * UUID and the event context, every other context-bearing record the
     * event context, SwitchToProfile the bound device; nothing the caller
     * supplied is lost.
     */
    function Stamp(cmd: Command): (e: Outbound)
      ensures Addressed(e)
      ensures Unstamp(e) == cmd
    {
      match cmd
      case GetGlobalSettingsCmd => GetGlobalSettings(pluginUUID)
      case GetSettingsCmd => GetSettings(eventContext)
      case LogMessageCmd(message) => LogMessage(message)
      case OpenURLCmd(url) => OpenURL(url)
      case SendToPropertyInspectorCmd(data) => SendToPropertyInspector(actionUUID, eventContext, data)
      case SetGlobalSettingsCmd(settings) => SetGlobalSettings(pluginUUID, settings)
      case SetImageCmd(image) => SetImage(eventContext, image)
      case SetSettingsCmd(settings) => SetSettings(eventContext, settings)
      case SetStateCmd(state) => SetState(eventContext, state)
      case SetTitleCmd(title) => SetTitle(eventContext, title)
      case ShowAlertCmd => ShowAlert(eventContext)
      case ShowOKCmd => ShowOK(eventContext)
      case SwitchToProfileCmd(profile) => SwitchToProfile(eventContext, deviceUUID, profile)
    }

    /** PublishEvent: the raw bytes go to the core publisher unchanged, and its error back unchanged. */
    method PublishEvent(raw: Raw) returns (err: Option<Error>)
      requires core != null
      modifies core`sent
      ensures core.open ==> err == None && core.sent == old(core.sent) + [Verbatim(raw)]
      ensures !core.open ==> err == Some(SendFailed) && core.sent == old(core.sent)
    {
      err := core.PublishEvent(Verbatim(raw));
    }

    /** publish: marshal the record and hand it to the core publisher, wrapping either failure with the event name. */
    method Publish(e: Outbound) returns (err: Option<Error>)
      requires core != null
      modifies core`sent
      ensures Published(old(core.sent), core.sent, core.open, e, err)
    {
      var wire := Marshal(e);
      if wire.Err? {
        return Some(MarshalEvent(Name(e), wire.error));
      }
      var sendErr := core.PublishEvent(wire.value);
      if sendErr.Some? {
        return Some(Error.PublishEvent(Name(e), sendErr.value));
      }
      return None;
    }

    /** One command method: exactly one record, stamped with this publisher's identities, per call. */
    method Send(cmd: Command) returns (err: Option<Error>)
      requires core != null
      modifies core`sent
      ensures Published(old(core.sent), core.sent, core.open, Stamp(cmd), err)
    {
      err := Publish(Stamp(cmd));
    }
  }

  /** newCoreActionInstancePublisher: the device UUID is never set. */
  function NewInstancePublisher(pluginUUID: PluginUUID, actionUUID: ActionUUID, eventContext: EventContext, core: Connection?<Wire>): InstancePublisher
  {
    InstancePublisher("", pluginUUID, actionUUID, eventContext, core)
  }

  /** A freshly built publisher stamps its three bound identities, and an empty device into SwitchToProfile. */
  lemma NewPublisherStamps(pluginUUID: PluginUUID, actionUUID: ActionUUID, eventContext: EventContext, core: Connection?<Wire>, cmd: Command)
    ensures var e := NewInstancePublisher(pluginUUID, actionUUID, eventContext, core).Stamp(cmd);
      && (e.SwitchToProfile? ==> e.device == "")
      && (e.GetGlobalSettings? || e.SetGlobalSettings? ==> e.context == pluginUUID)
      && (e.SendToPropertyInspector? ==> e.action == actionUUID && e.context == eventContext)
      && (("context" in Keys(e) && !(e.GetGlobalSettings? || e.SetGlobalSettings?)) ==> e.context == eventContext)
  {
  }

  /**
   * Stamp and Unstamp are inverse on records addressed to the publisher:
   * re-stamping what a record's caller supplied gives the record back
   * exactly when the record carries the publisher's own identities.
   */
  lemma {:induction false} StampUnstamp(p: InstancePublisher, e: Outbound)
    ensures p.Stamp(Unstamp(e)) == e <==> p.Addressed(e)
  {
    match e
    case GetGlobalSettings(_) =>
    case GetSettings(_) =>
    case LogMessage(_) =>
    case OpenURL(_) =>
    case SendToPropertyInspector(_, _, _) =>
    case SetGlobalSettings(_, _) =>
    case SetImage(_, _) =>
    case SetSettings(_, _) =>
    case SetState(_, _) =>
    case SetTitle(_, _) =>
    case ShowAlert(_) =>
    case ShowOK(_) =>
    case SwitchToProfile(_, _, _) =>
  }

  /** Nothing is cached: the same successful command twice puts two identical records on the wire. */
  lemma NoCaching(before: seq<Wire>, middle: seq<Wire>, after: seq<Wire>, e: Outbound)
    requires Published(before, middle, true, e, None) && Published(middle, after, true, e, None)
    ensures after == before + [Encoded(e), Encoded(e)]
  {
  }

  /** A record with nothing embedded always marshals, so only the socket can make it fail. */
  lemma OnlyTheSocketFails(before: seq<Wire>, after: seq<Wire>, open: bool, e: Outbound, err: Option<Error>)
    requires Embedded(e) == [] && Published(before, after, open, e, err)
    ensures err.None? <==> open
    ensures err.Some? ==> err.value == Error.PublishEvent(Name(e), SendFailed)
  {
  }
}
