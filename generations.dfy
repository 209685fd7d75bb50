/**
 * The two generations of the framework side by side: the root package
 * (DefaultPlugin, DefaultAction, coreActionInstancePublisher) and
 * pkg/streamdeck (Plugin, InstancedAction, corePublisherAdapter). Each
 * lemma states one place where they agree or differ.
 */
module Generations {
  import opened Wrappers
  import opened Core
  import opened Received
  import opened Sent
  import opened Transport
  import opened Events
  import opened Publish
  import Actions
  import Plugins
  import LegacyTypes
  import LegacyEvents
  import LegacyPublish
  import LegacyInstance
  import LegacyPlugin
  import Counter
  import MinimalCounter

  /** A header struct with fewer keys decodes whenever one with more does, and to the same values on the shared keys. */
  lemma HeaderNarrowing(m: Message, small: set<HeaderKey>, big: set<HeaderKey>)
    requires small <= big && DecodeHeader(m, big).Ok?
    ensures DecodeHeader(m, small).Ok?
    ensures forall k :: k in small ==> DecodeHeader(m, small).value.Get(k) == DecodeHeader(m, big).value.Get(k)
  {
    forall k | k in small
      ensures DecodeHeader(m, small).value.Get(k) == DecodeHeader(m, big).value.Get(k)
    {
      assert k in big;
    }
  }

  /**
   * Registry policy: for a non-empty action id both generations route to
   * the registered action or report it unknown, alike; an empty id is a
   * broadcast to every action in the root generation but, unless some
   * action is registered under "", an unknown action in pkg/streamdeck.
   */
  lemma EmptyActionPolicy<A>(registry: map<ActionUUID, A>, action: ActionUUID)
    ensures action != "" ==>
      && (Plugins.Targets(registry, action).Ok? <==> LegacyPlugin.Lookup(registry, action).Ok?)
      && (Plugins.Targets(registry, action).Ok? ==> Plugins.Targets(registry, action).value == {LegacyPlugin.Lookup(registry, action).value})
      && (Plugins.Targets(registry, action).Err? ==> Plugins.Targets(registry, action).error == LegacyPlugin.Lookup(registry, action).error)
    ensures action == "" && "" !in registry ==>
      Plugins.Targets(registry, action) == Ok(registry.Keys) && LegacyPlugin.Lookup(registry, action) == Err(UnknownAction(""))
  {
  }

  /**
   * The action filter exists only in the root generation: a message that
   * names another action and an unseen context leaves a DefaultAction's
   * table as it was, but makes an InstancedAction create an instance.
   */
  lemma FilterOnlyInRoot<I>(c: Actions.Binding<I>, before: map<EventContext, I>,
                            factory: EventContext -> I, publisher: Connection?<Wire>,
                            muxBefore: map<EventContext, LegacyInstance.Member<I>>, m: Message)
    requires DecodeHeader(m, Actions.ActionHeaderKeys).Ok?
    requires DecodeHeader(m, Actions.ActionHeaderKeys).value.action !in {"", c.actionUUID}
    requires DecodeHeader(m, Actions.ActionHeaderKeys).value.context != ""
    requires DecodeHeader(m, Actions.ActionHeaderKeys).value.context !in muxBefore
    ensures Actions.NextTable(c, before, m) == before
    ensures DecodeHeader(m, Actions.ActionHeaderKeys).value.context in LegacyInstance.NextTable(factory, publisher, muxBefore, m)
  {
    HeaderNarrowing(m, LegacyInstance.MuxHeaderKeys, Actions.ActionHeaderKeys);
    assert ContextKey in LegacyInstance.MuxHeaderKeys;
    assert LegacyInstance.AddressedTo(m, DecodeHeader(m, Actions.ActionHeaderKeys).value.context);
  }

  /** On the six kinds this generation types, both generations route alike. */
  lemma RoutesAgree(caps: Capabilities, k: EventKind, m: Message)
    requires k in LegacyTypes.TypedKinds
    ensures LegacyEvents.RouteOf(caps, Received.Name(k), m) == Events.RouteOf(caps, Received.Name(k), m)
  {
    assert Received.Parse(Received.Name(k)) == Some(k);
  }

  /**
   * Any other kind a target types is decoded and handed to its typed
   * handler only by the root generation; pkg/streamdeck hands the raw
   * message to the generic handler, or drops it.
   */
  lemma NewerKindsFallBack(caps: Capabilities, k: EventKind, m: Message)
    requires k !in LegacyTypes.TypedKinds && k in caps.typed
    ensures LegacyEvents.RouteOf(caps, Received.Name(k), m) == (if caps.raw then Invoke(RawCall(m)) else Ignore)
    ensures Events.RouteOf(caps, Received.Name(k), m) != LegacyEvents.RouteOf(caps, Received.Name(k), m)
  {
    assert Received.Parse(Received.Name(k)) == Some(k);
  }

  /**
   * The adapter stamps each of its nine commands exactly as the root
   * generation's publisher does when built for the same plugin, action and
   * context (with its device left empty).
   */
  lemma {:induction false} AdapterStampsAlike(a: LegacyPublish.Adapter, cmd: LegacyPublish.AdapterCommand)
    ensures a.Stamp(cmd) == NewInstancePublisher(a.pluginUUID, a.actionUUID, a.eventContext, a.corePublisher).Stamp(cmd)
  {
    match cmd
    case GetGlobalSettingsCmd =>
    case GetSettingsCmd =>
    case SetGlobalSettingsCmd(_) =>
    case SetImageCmd(_) =>
    case SetSettingsCmd(_) =>
    case SetStateCmd(_) =>
    case SetTitleCmd(_) =>
    case ShowAlertCmd =>
    case ShowOKCmd =>
  }

  /**
   * The mux reports one fixed action UUID, the minimal counter's, and not
   * the example counter's, whichever action it multiplexes.
   */
  lemma MuxNamedForMinimalCounter()
    ensures LegacyInstance.MuxUUID == MinimalCounter.MinimalCounterUUID
    ensures LegacyInstance.MuxUUID != Counter.CounterUUID
  {
  }
}
