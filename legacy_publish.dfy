/**
 * corePublisherAdapter of pkg/streamdeck/publish.go: the older
 * generation's per-instance publisher. It binds a plugin UUID, an action
 * UUID and an event context (no device), offers nine commands, and hands
 * marshalled records, or raw bytes, to the core event publisher.
 */
module LegacyPublish {
  import opened Wrappers
  import opened Core
  import opened Sent
  import opened Transport
  import opened Publish

  /** The nine commands of this generation's Publisher interface. */
  predicate IsAdapterCommand(cmd: Command)
  {
    || cmd.GetGlobalSettingsCmd? || cmd.GetSettingsCmd? || cmd.SetGlobalSettingsCmd?
    || cmd.SetImageCmd? || cmd.SetSettingsCmd? || cmd.SetStateCmd? || cmd.SetTitleCmd?
    || cmd.ShowAlertCmd? || cmd.ShowOKCmd?
  }

  type AdapterCommand = cmd: Command | IsAdapterCommand(cmd) witness GetGlobalSettingsCmd

  /** The nine outbound records this generation can build. */
  predicate IsAdapterRecord(e: Outbound)
  {
    || e.GetGlobalSettings? || e.GetSettings? || e.SetGlobalSettings?
    || e.SetImage? || e.SetSettings? || e.SetState? || e.SetTitle?
    || e.ShowAlert? || e.ShowOK?
  }

  datatype Adapter = Adapter(
    pluginUUID: PluginUUID,
    actionUUID: ActionUUID,
    eventContext: EventContext,
    corePublisher: Connection?<Wire>)
  {
    /** e is one of the nine records and carries this adapter's identities. */
    predicate Addressed(e: Outbound)
    {
      && IsAdapterRecord(e)
      && (e.GetGlobalSettings? || e.SetGlobalSettings? ==> e.context == pluginUUID)
      && (!(e.GetGlobalSettings? || e.SetGlobalSettings?) ==> e.context == eventContext)
    }

    /**
     * The record a command builds: the global-settings commands carry the
     * plugin UUID as context, the other seven the event context; nothing
     * the caller supplied is lost.
     */
    function Stamp(cmd: AdapterCommand): (e: Outbound)
      ensures Addressed(e)
      ensures Unstamp(e) == cmd
    {
      match cmd
      case GetGlobalSettingsCmd => GetGlobalSettings(pluginUUID)
      case GetSettingsCmd => GetSettings(eventContext)
      case SetGlobalSettingsCmd(settings) => SetGlobalSettings(pluginUUID, settings)
      case SetImageCmd(image) => SetImage(eventContext, image)
      case SetSettingsCmd(settings) => SetSettings(eventContext, settings)
      case SetStateCmd(state) => SetState(eventContext, state)
      case SetTitleCmd(title) => SetTitle(eventContext, title)
      case ShowAlertCmd => ShowAlert(eventContext)
      case ShowOKCmd => ShowOK(eventContext)
    }

    /** PublishRaw: the bytes go to the core publisher unchanged, and its error back unchanged. */
    method PublishRaw(raw: Raw) returns (err: Option<Error>)
      requires corePublisher != null
      modifies corePublisher`sent
      ensures corePublisher.open ==> err == None && corePublisher.sent == old(corePublisher.sent) + [Verbatim(raw)]
      ensures !corePublisher.open ==> err == Some(SendFailed) && corePublisher.sent == old(corePublisher.sent)
    {
      err := corePublisher.PublishEvent(Verbatim(raw));
    }

    /** publish: marshal the record and hand it on, wrapping either failure with the event name. */
    method Publish(e: Outbound) returns (err: Option<Error>)
      requires corePublisher != null
      modifies corePublisher`sent
      ensures Published(old(corePublisher.sent), corePublisher.sent, corePublisher.open, e, err)
    {
      var wire := Marshal(e);
      if wire.Err? {
        return Some(MarshalEvent(Name(e), wire.error));
      }
      var sendErr := corePublisher.PublishEvent(wire.value);
      if sendErr.Some? {
        return Some(Error.PublishEvent(Name(e), sendErr.value));
      }
      return None;
    }

    /** One of the nine command methods: exactly one stamped record per call. */
    method Send(cmd: AdapterCommand) returns (err: Option<Error>)
      requires corePublisher != null
      modifies corePublisher`sent
      ensures Published(old(corePublisher.sent), corePublisher.sent, corePublisher.open, Stamp(cmd), err)
    {
      err := Publish(Stamp(cmd));
    }
  }

  /**
   * Stamp and Unstamp are inverse on this generation's records: a record
   * is rebuilt from what its caller supplied exactly when it carries the
   * adapter's own identities.
   */
  lemma {:induction false} StampUnstamp(a: Adapter, e: Outbound)
    requires IsAdapterRecord(e)
    ensures IsAdapterCommand(Unstamp(e))
    ensures a.Stamp(Unstamp(e)) == e <==> a.Addressed(e)
  {
    match e
    case GetGlobalSettings(_) =>
    case GetSettings(_) =>
    case SetGlobalSettings(_, _) =>
    case SetImage(_, _) =>
    case SetSettings(_, _) =>
    case SetState(_, _) =>
    case SetTitle(_, _) =>
    case ShowAlert(_) =>
    case ShowOK(_) =>
  }
}
