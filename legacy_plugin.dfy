/**
 * Plugin of pkg/streamdeck/plugin.go: the older generation's registry.
 * Each registered factory gets a holder with its own instance table; a
 * message goes to the holder of the action it names, which must be
 * registered, and within it to one instance or, without a context, to all
 * of them. Instances are created from the context and a publisher adapter
 * bound to the plugin, the action and the context.
 */
module LegacyPlugin {
  import opened Wrappers
  import opened Core
  import opened Sent
  import opened Transport
  import opened Events
  import opened Registry
  import opened LegacyPublish
  import Actions
  import LegacyInstance

  /** An action factory: the action UUID it serves and how it creates an instance. */
  datatype Factory<I> = Factory(uuid: ActionUUID, create: (EventContext, Adapter) -> I)

  function FactoryUUID<I>(f: Factory<I>): ActionUUID
  {
    f.uuid
  }

  /** The keys of the plugin's eventHeader struct. */
  const PluginHeaderKeys: set<HeaderKey> := {EventKey, ActionKey, ContextKey}

  /** The registry lookup: the named action if it is registered, and otherwise an unknown action, the empty name included. */
  function Lookup<A>(registry: map<ActionUUID, A>, action: ActionUUID): (r: Result<ActionUUID, Error>)
    ensures r.Ok? <==> action in registry
    ensures r.Ok? ==> r.value == action
    ensures r.Err? ==> r.error == UnknownAction(action)
  {
    if action in registry then Ok(action) else Err(UnknownAction(action))
  }

  /** What a holder builds instances from: its factory and the identities bound into each adapter. */
  datatype Binding<I> = Binding(pluginUUID: PluginUUID, actionUUID: ActionUUID, core: Connection?<Wire>, factory: Factory<I>)
  {
    /** The instance created for a context, with an adapter bound to this plugin, this action and that context. */
    function Make(context: EventContext): I
    {
      factory.create(context, Adapter(pluginUUID, actionUUID, context, core))
    }
  }

  /** m decodes to a header naming the non-empty context k. */
  predicate AddressedTo(m: Message, k: EventContext)
  {
    var h := DecodeHeader(m, PluginHeaderKeys);
    h.Ok? && h.value.context == k && k != ""
  }

  /**
   * A holder's instance table after the plugin routes m to it: existing
   * instances stay as they are; the only one ever added is the one made
   * for the context m is addressed to, which is present afterwards.
   */
  function NextTable<I>(c: Binding<I>, table: map<EventContext, I>, m: Message): (t: map<EventContext, I>)
    ensures forall k :: k in table ==> k in t && t[k] == table[k]
    ensures forall k :: k in t && k !in table ==> AddressedTo(m, k) && t[k] == c.Make(k)
    ensures forall k :: AddressedTo(m, k) ==> k in t
  {
    var h := DecodeHeader(m, PluginHeaderKeys);
    if h.Err? || h.value.context == "" || h.value.context in table then table
    else table[h.value.context := c.Make(h.value.context)]
  }

  /**
   * What the plugin does with m within the holder it names: the table
   * grows as NextTable says; without a context the result is success iff
   * every instance succeeds, and otherwise a failing instance's error
   * wrapped with the action and the empty context; with one, the
   * instance's own result, unwrapped.
   */
  ghost predicate Handled<I>(c: Binding<I>, b: Actions.Behaviour<I>, m: Message,
                             before: map<EventContext, I>, after: map<EventContext, I>, err: Option<Error>)
    requires DecodeHeader(m, PluginHeaderKeys).Ok?
  {
    var h := DecodeHeader(m, PluginHeaderKeys).value;
    && after == NextTable(c, before, m)
    && if h.context == "" then
         && (err.None? <==> forall k :: k in before ==> LegacyInstance.Deliver(b, before[k], h.event, m).None?)
         && (err.Some? ==> exists k, e :: k in before && LegacyInstance.Deliver(b, before[k], h.event, m) == Some(e)
                                          && err == Some(DispatchToHolderInstance(h.action, "", e)))
       else err == LegacyInstance.Deliver(b, after[h.context], h.event, m)
  }

  /** actionHolder: a factory and the instances created from it. */
  class Holder<I> {
    const factory: Factory<I>
    var instances: map<EventContext, I>

    constructor (factory: Factory<I>)
      ensures this.factory == factory && instances == map[]
    {
      this.factory := factory;
      instances := map[];
    }
  }

  class Plugin<I> {
    var pluginUUID: PluginUUID
    var corePublisher: Connection?<Wire>
    const actions: map<ActionUUID, Holder<I>>

    /** Each holder is registered under its factory's UUID, so distinct keys hold distinct holders. */
    ghost predicate Valid()
    {
      forall k :: k in actions ==> actions[k].factory.uuid == k
    }

    /**
     * NewPlugin: one holder with an empty table per registered UUID, whose
     * factory is the last one given for that UUID.
     */
    constructor (factories: seq<Factory<I>>)
      ensures actions.Keys == Index(factories, FactoryUUID).Keys
      ensures forall k :: k in actions ==> actions[k].factory == Index(factories, FactoryUUID)[k] && actions[k].instances == map[]
      ensures Valid()
      ensures pluginUUID == "" && corePublisher == null
    {
      var registry: map<ActionUUID, Holder<I>> := map[];
      var i := 0;
      while i < |factories|
        invariant 0 <= i <= |factories|
        invariant registry.Keys == Index(factories[..i], FactoryUUID).Keys
        invariant forall k :: k in registry ==>
          registry[k].factory == Index(factories[..i], FactoryUUID)[k] && registry[k].instances == map[]
        invariant forall k :: k in registry ==> registry[k].factory.uuid == k
      {
        assert factories[..i + 1][..i] == factories[..i];
        var holder := new Holder(factories[i]);
        registry := registry[factories[i].uuid := holder];
        i := i + 1;
      }
      assert factories[..|factories|] == factories;
      actions := registry;
      pluginUUID := "";
      corePublisher := null;
    }

    /** The identities and factory the holder for action creates instances with. */
    function Bound(action: ActionUUID): Binding<I>
      requires action in actions
      reads this
    {
      Binding(pluginUUID, action, corePublisher, actions[action].factory)
    }

    /** Initialize: records the plugin UUID and the core publisher. */
    method Initialize(pluginUUID: PluginUUID, publisher: Connection?<Wire>)
      modifies this`pluginUUID, this`corePublisher
      ensures this.pluginUUID == pluginUUID && this.corePublisher == publisher
    {
      this.pluginUUID := pluginUUID;
      this.corePublisher := publisher;
    }

    /**
     * HandleEvent: decode the header, look the action up, then broadcast
     * within its holder or look up (creating if need be) and dispatch.
     * Only the named holder's table can change.
     */
    method HandleEvent(m: Message, b: Actions.Behaviour<I>) returns (err: Option<Error>)
      requires Valid()
      modifies set k | k in actions :: actions[k]`instances
      ensures DecodeHeader(m, PluginHeaderKeys).Err? ==>
        err == Some(UnmarshalHeader) && forall k :: k in actions ==> actions[k].instances == old(actions[k].instances)
      ensures DecodeHeader(m, PluginHeaderKeys).Ok? && DecodeHeader(m, PluginHeaderKeys).value.action !in actions ==>
        err == Some(UnknownAction(DecodeHeader(m, PluginHeaderKeys).value.action))
        && forall k :: k in actions ==> actions[k].instances == old(actions[k].instances)
      ensures DecodeHeader(m, PluginHeaderKeys).Ok? && DecodeHeader(m, PluginHeaderKeys).value.action in actions ==>
        var a := DecodeHeader(m, PluginHeaderKeys).value.action;
        && (forall k :: k in actions && k != a ==> actions[k].instances == old(actions[k].instances))
        && Handled(Bound(a), b, m, old(actions[a].instances), actions[a].instances, err)
    {
      var header := DecodeHeader(m, PluginHeaderKeys);
      if header.Err? {
        return Some(header.error);
      }
      var h := header.value;
      var lookup := Lookup(actions, h.action);
      if lookup.Err? {
        return Some(lookup.error);
      }
      var holder := actions[h.action];
      if h.context == "" {
        var failure, visited := Broadcast(holder.instances, instance => LegacyInstance.Deliver(b, instance, h.event, m));
        if failure.Some? {
          return Some(DispatchToHolderInstance(h.action, h.context, failure.value.1));
        }
        return None;
      }
      var instance;
      if h.context in holder.instances {
        instance := holder.instances[h.context];
      } else {
        var publisher := Adapter(pluginUUID, h.action, h.context, corePublisher);
        instance := holder.factory.create(h.context, publisher);
        holder.instances := holder.instances[h.context := instance];
      }
      err := LegacyInstance.Deliver(b, instance, h.event, m);
    }
  }
}
