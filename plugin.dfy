/**
 * DefaultPlugin of plugin.go: the registry of actions keyed by action
 * UUID, which routes each inbound message to the action it names, or to
 * every action when it names none.
 *
 * The registered actions are DefaultActions, which implement only the
 * generic handler interface; dispatchEvent therefore always hands them the
 * raw message (Events.GenericOnlyTargetGetsRaw), and the plugin is modelled
 * calling their HandleEvent directly.
 */
module Plugins {
  import opened Wrappers
  import opened Core
  import opened Sent
  import opened Transport
  import opened Registry
  import opened Actions

  /** The keys of the plugin's eventHeader struct. */
  const PluginHeaderKeys: set<HeaderKey> := {EventKey, ActionKey}

  /**
   * The registry's routing policy: an empty action id goes to every
   * registered action, a registered one to that action alone, and any
   * other is an unknown action.
   */
  function Targets<A>(registry: map<ActionUUID, A>, action: ActionUUID): (r: Result<set<ActionUUID>, Error>)
    ensures r.Ok? ==> r.value <= registry.Keys
    ensures r.Ok? && action != "" ==> r.value == {action}
    ensures r.Err? <==> action != "" && action !in registry
    ensures r.Err? ==> r.error == UnknownAction(action)
    ensures action == "" ==> r == Ok(registry.Keys)
  {
    if action == "" then Ok(registry.Keys)
    else if action in registry then Ok({action})
    else Err(UnknownAction(action))
  }

  function WrapAction(event: EventName, action: ActionUUID, e: Option<Error>): Option<Error>
  {
    if e.None? then None else Some(DispatchToAction(event, action, e.value))
  }

  /**
   * Under the plugin the action filter never drops an event: the action
   * reads the same "action" field the plugin routed on, which is empty or
   * the action's own UUID.
   */
  lemma FilterNeverFiresUnderPlugin<A>(registry: map<ActionUUID, A>, m: Message, k: ActionUUID)
    requires DecodeHeader(m, PluginHeaderKeys).Ok?
    requires Targets(registry, DecodeHeader(m, PluginHeaderKeys).value.action).Ok?
    requires k in Targets(registry, DecodeHeader(m, PluginHeaderKeys).value.action).value
    requires DecodeHeader(m, ActionHeaderKeys).Ok?
    ensures Accepts(k, DecodeHeader(m, ActionHeaderKeys).value)
  {
    assert ActionKey in PluginHeaderKeys && ActionKey in ActionHeaderKeys;
    assert DecodeHeader(m, ActionHeaderKeys).value.Get(ActionKey) == DecodeHeader(m, PluginHeaderKeys).value.Get(ActionKey);
  }

  class DefaultPlugin<I> {
    const actions: map<ActionUUID, DefaultAction<I>>

    /** Each action is registered under its own UUID, so distinct keys hold distinct actions. */
    ghost predicate Valid()
    {
      forall k :: k in actions ==> actions[k].actionUUID == k
    }

    /** NewDefaultPlugin: each action stored under its UUID, a later duplicate replacing an earlier one. */
    constructor (list: seq<DefaultAction<I>>)
      ensures actions == Index(list, (a: DefaultAction<I>) => a.actionUUID)
      ensures Valid()
    {
      var registry: map<ActionUUID, DefaultAction<I>> := map[];
      var i := 0;
      while i < |list|
        invariant 0 <= i <= |list|
        invariant registry == Index(list[..i], (a: DefaultAction<I>) => a.actionUUID)
        invariant forall k :: k in registry ==> registry[k].actionUUID == k
      {
        assert list[..i + 1][..i] == list[..i];
        registry := registry[list[i].UUID() := list[i]];
        i := i + 1;
      }
      assert list[..|list|] == list;
      actions := registry;
    }

    /** Initialize: every registered action gets the same plugin UUID and core publisher. */
    method Initialize(pluginUUID: PluginUUID, publisher: Connection?<Wire>)
      requires Valid()
      modifies set k | k in actions :: actions[k]`pluginUUID
      modifies set k | k in actions :: actions[k]`publisher
      ensures forall k :: k in actions ==> actions[k].pluginUUID == pluginUUID && actions[k].publisher == publisher
    {
      var pending := actions.Keys;
      while pending != {}
        invariant pending <= actions.Keys
        invariant forall k :: k in actions && k !in pending ==> actions[k].pluginUUID == pluginUUID && actions[k].publisher == publisher
        decreases |pending|
      {
        var k :| k in pending;
        actions[k].Initialize(pluginUUID, publisher);
        pending := pending - {k};
      }
    }

    /**
     * HandleEvent: decode the header; an empty action id is broadcast to
     * every action, stopping at the first error; a registered one goes to
     * that action alone; any other is an error. Only the instance tables of
     * the actions that receive the event can change.
     */
    method HandleEvent(m: Message, b: Behaviour<I>) returns (err: Option<Error>)
      requires Valid()
      modifies set k | k in actions :: actions[k]`instances
      ensures DecodeHeader(m, PluginHeaderKeys).Err? ==>
        err == Some(UnmarshalHeader) && forall k :: k in actions ==> actions[k].instances == old(actions[k].instances)
      ensures DecodeHeader(m, PluginHeaderKeys).Ok? && Targets(actions, DecodeHeader(m, PluginHeaderKeys).value.action).Err? ==>
        err == Some(UnknownAction(DecodeHeader(m, PluginHeaderKeys).value.action))
        && forall k :: k in actions ==> actions[k].instances == old(actions[k].instances)
      ensures DecodeHeader(m, PluginHeaderKeys).Ok? && DecodeHeader(m, PluginHeaderKeys).value.action in actions - {""} ==>
        var h := DecodeHeader(m, PluginHeaderKeys).value;
        && (forall k :: k in actions && k != h.action ==> actions[k].instances == old(actions[k].instances))
        && exists e :: Handled(actions[h.action].Bound(), b, m, old(actions[h.action].instances), actions[h.action].instances, e)
             && err == WrapAction(h.event, h.action, e)
      ensures DecodeHeader(m, PluginHeaderKeys).Ok? && DecodeHeader(m, PluginHeaderKeys).value.action == "" ==>
        forall k :: k in actions ==>
          actions[k].instances == old(actions[k].instances)
          || exists e :: Handled(actions[k].Bound(), b, m, old(actions[k].instances), actions[k].instances, e)
      ensures DecodeHeader(m, PluginHeaderKeys).Ok? && DecodeHeader(m, PluginHeaderKeys).value.action == "" && err.None? ==>
        forall k :: k in actions ==> Handled(actions[k].Bound(), b, m, old(actions[k].instances), actions[k].instances, None)
      ensures DecodeHeader(m, PluginHeaderKeys).Ok? && DecodeHeader(m, PluginHeaderKeys).value.action == "" && err.Some? ==>
        exists k, e :: k in actions && Handled(actions[k].Bound(), b, m, old(actions[k].instances), actions[k].instances, Some(e))
          && err == Some(DispatchToAction(DecodeHeader(m, PluginHeaderKeys).value.event, "", e))
          && forall j :: j in actions && j != k ==>
               actions[j].instances == old(actions[j].instances)
               || Handled(actions[j].Bound(), b, m, old(actions[j].instances), actions[j].instances, None)
    {
      var header := DecodeHeader(m, PluginHeaderKeys);
      if header.Err? {
        return Some(header.error);
      }
      var h := header.value;
      if h.action == "" {
        err := BroadcastEvent(m, b, h.event);
        return;
      }
      if h.action !in actions {
        return Some(UnknownAction(h.action));
      }
      var e := actions[h.action].HandleEvent(m, b);
      err := WrapAction(h.event, h.action, e);
    }

    /**
     * The empty-action branch: every action handles m in turn, in an
     * unspecified order, until one fails; its error is wrapped with the
     * event and the empty action id. Every other action either succeeded
     * before it or was never reached.
     */
    method BroadcastEvent(m: Message, b: Behaviour<I>, event: EventName) returns (err: Option<Error>)
      requires Valid()
      modifies set k | k in actions :: actions[k]`instances
      ensures err.None? ==>
        forall k :: k in actions ==> Handled(actions[k].Bound(), b, m, old(actions[k].instances), actions[k].instances, None)
      ensures err.Some? ==>
        exists k, e :: k in actions && Handled(actions[k].Bound(), b, m, old(actions[k].instances), actions[k].instances, Some(e))
          && err == Some(DispatchToAction(event, "", e))
          && forall j :: j in actions && j != k ==>
               actions[j].instances == old(actions[j].instances)
               || Handled(actions[j].Bound(), b, m, old(actions[j].instances), actions[j].instances, None)
    {
      var pending := actions.Keys;
      while pending != {}
        invariant pending <= actions.Keys
        invariant forall k :: k in pending ==> actions[k].instances == old(actions[k].instances)
        invariant forall k :: k in actions && k !in pending ==>
          Handled(actions[k].Bound(), b, m, old(actions[k].instances), actions[k].instances, None)
        decreases |pending|
      {
        var k :| k in pending;
        assert forall j :: j in actions && j != k ==> actions[j] != actions[k];
        var e := actions[k].HandleEvent(m, b);
        if e.Some? {
          return Some(DispatchToAction(event, "", e.value));
        }
        pending := pending - {k};
      }
      return None;
    }
  }
}
