/**
 * DefaultAction of action.go: one action's table of instances, keyed by
 * event context, grown lazily through the action's factory, with events
 * addressed to one context dispatched to that instance and events
 * addressed to none broadcast to all of them.
 *
 * Instances are values of a type I. What their handler code does is given
 * by a Behaviour: which handler interfaces an instance implements and what
 * each call returns.
 */
module Actions {
  import opened Wrappers
  import opened Core
  import opened Events
  import opened Sent
  import opened Transport
  import opened Publish

  /** The handler code behind the instances' interfaces. */
  datatype Behaviour<!I> = Behaviour(capabilities: I -> Capabilities, handle: I -> Invocation -> Option<Error>)

  /** dispatchEvent with one instance as its target. */
  function Deliver<I>(b: Behaviour<I>, instance: I, name: EventName, m: Message): Option<Error>
  {
    DispatchEvent(b.capabilities(instance), name, m, b.handle(instance))
  }

  /** The keys of the action's eventHeader struct. */
  const ActionHeaderKeys: set<HeaderKey> := {EventKey, ActionKey, ContextKey}

  /** The action filter: the event names no action, or this one. */
  predicate Accepts(own: ActionUUID, h: Header)
  {
    !(h.action != "" && h.action != own)
  }

  /** What an action builds instances from: its factory and the identities it binds into each instance's publisher. */
  datatype Binding<I> = Binding(
    actionUUID: ActionUUID,
    pluginUUID: PluginUUID,
    core: Connection?<Wire>,
    createInstance: (EventContext, InstancePublisher) -> I)
  {
    /** The instance created for a context, with a publisher bound to this plugin, this action and that context. */
    function Make(context: EventContext): I
    {
      createInstance(context, NewInstancePublisher(pluginUUID, actionUUID, context, core))
    }
  }

  /** m decodes to a header this action accepts, naming the non-empty context k. */
  predicate AddressedTo<I>(c: Binding<I>, m: Message, k: EventContext)
  {
    var h := DecodeHeader(m, ActionHeaderKeys);
    h.Ok? && Accepts(c.actionUUID, h.value) && h.value.context == k && k != ""
  }

  /**
   * The instance table after the action handles m: existing instances stay
   * as they are, and the only instance ever added is the one made for the
   * context m is addressed to, which is present afterwards.
   */
  function NextTable<I>(c: Binding<I>, table: map<EventContext, I>, m: Message): (t: map<EventContext, I>)
    ensures forall k :: k in table ==> k in t && t[k] == table[k]
    ensures forall k :: k in t && k !in table ==> AddressedTo(c, m, k) && t[k] == c.Make(k)
    ensures forall k :: AddressedTo(c, m, k) ==> k in t
  {
    var h := DecodeHeader(m, ActionHeaderKeys);
    if h.Err? || !Accepts(c.actionUUID, h.value) || h.value.context == "" || h.value.context in table then table
    else table[h.value.context := c.Make(h.value.context)]
  }

  function WrapInstance(event: EventName, context: EventContext, e: Option<Error>): Option<Error>
  {
    if e.None? then None else Some(DispatchToInstance(event, context, e.value))
  }

  /**
   * The result of a broadcast: success iff every instance succeeds;
   * otherwise some failing instance's error, wrapped with the event and
   * the (empty) context of the header.
   */
  ghost predicate BroadcastOutcome<I>(table: map<EventContext, I>, b: Behaviour<I>, event: EventName, m: Message, err: Option<Error>)
  {
    && (err.None? <==> forall k :: k in table ==> Deliver(b, table[k], event, m).None?)
    && (err.Some? ==> err.value.DispatchToInstance? && err.value.event == event && err.value.context == "")
    && (err.Some? ==> exists k :: k in table && Deliver(b, table[k], event, m) == Some(err.value.cause))
  }

  /** What HandleEvent does with m, relating the table before and after and the error it returns. */
  ghost predicate Handled<I>(c: Binding<I>, b: Behaviour<I>, m: Message, before: map<EventContext, I>, after: map<EventContext, I>, err: Option<Error>)
  {
    && after == NextTable(c, before, m)
    && match DecodeHeader(m, ActionHeaderKeys)
       case Err(e) => err == Some(e)
       case Ok(h) =>
         if !Accepts(c.actionUUID, h) then err == None
         else if h.context == "" then BroadcastOutcome(before, b, h.event, m, err)
         else AddressedTo(c, m, h.context) && err == WrapInstance(h.event, h.context, Deliver(b, after[h.context], h.event, m))
  }

  class DefaultAction<I> {
    const actionUUID: ActionUUID
    const createInstance: (EventContext, InstancePublisher) -> I
    var instances: map<EventContext, I>
    var pluginUUID: PluginUUID
    var publisher: Connection?<Wire>

    /** NewDefaultAction: the UUID and factory it is given, no instances, not yet initialised. */
    constructor (actionUUID: ActionUUID, createInstance: (EventContext, InstancePublisher) -> I)
      ensures this.actionUUID == actionUUID && this.createInstance == createInstance
      ensures instances == map[] && pluginUUID == "" && publisher == null
    {
      this.actionUUID := actionUUID;
      this.createInstance := createInstance;
      instances := map[];
      pluginUUID := "";
      publisher := null;
    }

    function UUID(): ActionUUID
    {
      actionUUID
    }

    /** The identities and factory this action currently creates instances with. */
    function Bound(): Binding<I>
      reads this`pluginUUID, this`publisher
    {
      Binding(actionUUID, pluginUUID, publisher, createInstance)
    }

    /** Initialize: records the plugin UUID and the core publisher; the instance table is untouched. */
    method Initialize(pluginUUID: PluginUUID, publisher: Connection?<Wire>)
      modifies this`pluginUUID, this`publisher
      ensures this.pluginUUID == pluginUUID && this.publisher == publisher
    {
      this.pluginUUID := pluginUUID;
      this.publisher := publisher;
    }

    /** HandleEvent: decode the header, filter by action, then broadcast or look up (creating if need be) and dispatch. */
    method HandleEvent(m: Message, b: Behaviour<I>) returns (err: Option<Error>)
      modifies this`instances
      ensures Handled(Bound(), b, m, old(instances), instances, err)
    {
      var header := DecodeHeader(m, ActionHeaderKeys);
      if header.Err? {
        return Some(header.error);
      }
      var h := header.value;
      if h.action != "" && h.action != actionUUID {
        return None;
      }
      if h.context == "" {
        var failure, visited := Broadcast(instances, instance => Deliver(b, instance, h.event, m));
        if failure.Some? {
          return Some(DispatchToInstance(h.event, h.context, failure.value.1));
        }
        return None;
      }
      var instance;
      if h.context in instances {
        instance := instances[h.context];
      } else {
        var publisher := NewInstancePublisher(pluginUUID, actionUUID, h.context, publisher);
        instance := createInstance(h.context, publisher);
        instances := instances[h.context := instance];
      }
      var e := Deliver(b, instance, h.event, m);
      if e.Some? {
        return Some(DispatchToInstance(h.event, h.context, e.value));
      }
      return None;
    }
  }

  /** A malformed header is an error, and the table is unchanged. */
  lemma MalformedHeaderChangesNothing<I>(c: Binding<I>, b: Behaviour<I>, m: Message, before: map<EventContext, I>, after: map<EventContext, I>, err: Option<Error>)
    requires Handled(c, b, m, before, after, err) && DecodeHeader(m, ActionHeaderKeys).Err?
    ensures after == before && err == Some(UnmarshalHeader)
  {
  }

  /** An event for another action is dropped silently: no dispatch, no creation, no error. */
  lemma ForeignActionIgnored<I>(c: Binding<I>, b: Behaviour<I>, m: Message, before: map<EventContext, I>, after: map<EventContext, I>, err: Option<Error>)
    requires Handled(c, b, m, before, after, err)
    requires DecodeHeader(m, ActionHeaderKeys).Ok? && DecodeHeader(m, ActionHeaderKeys).value.action !in {"", c.actionUUID}
    ensures after == before && err == None
  {
  }

  /** A broadcast never creates an instance, and fails iff some existing instance fails. */
  lemma BroadcastCreatesNothing<I>(c: Binding<I>, b: Behaviour<I>, m: Message, before: map<EventContext, I>, after: map<EventContext, I>, err: Option<Error>)
    requires Handled(c, b, m, before, after, err)
    requires DecodeHeader(m, ActionHeaderKeys).Ok? && Accepts(c.actionUUID, DecodeHeader(m, ActionHeaderKeys).value)
    requires DecodeHeader(m, ActionHeaderKeys).value.context == ""
    ensures after == before
    ensures err.None? <==> forall k :: k in before ==> Deliver(b, before[k], DecodeHeader(m, ActionHeaderKeys).value.event, m).None?
  {
  }

  /**
   * A JSON null decodes into the zero header, so it is a broadcast of the
   * event named "" to every instance: nothing is created, and it fails iff
   * some instance fails.
   */
  lemma NullMessageBroadcast<I>(c: Binding<I>, b: Behaviour<I>, before: map<EventContext, I>, after: map<EventContext, I>, err: Option<Error>)
    requires Handled(c, b, NullMessage, before, after, err)
    ensures after == before
    ensures err.None? <==> forall k :: k in before ==> Deliver(b, before[k], "", NullMessage).None?
  {
    NullMessageReadsAsZero(ActionHeaderKeys);
    BroadcastCreatesNothing(c, b, NullMessage, before, after, err);
  }

  /**
   * An addressed event for an unseen context creates exactly one instance,
   * the factory's for that context, and dispatches to it; for a known
   * context it reuses the stored instance and the table is unchanged.
   */
  lemma AddressedDispatch<I>(c: Binding<I>, b: Behaviour<I>, m: Message, before: map<EventContext, I>, after: map<EventContext, I>, err: Option<Error>, k: EventContext)
    requires Handled(c, b, m, before, after, err) && AddressedTo(c, m, k)
    ensures k !in before ==> after == before[k := c.Make(k)]
    ensures k in before ==> after == before
    ensures err == WrapInstance(DecodeHeader(m, ActionHeaderKeys).value.event, k, Deliver(b, after[k], DecodeHeader(m, ActionHeaderKeys).value.event, m))
  {
  }

  /** The table after a run of messages, handled one after another. */
  function Replay<I>(c: Binding<I>, table: map<EventContext, I>, ms: seq<Message>): map<EventContext, I>
    decreases |ms|
  {
    if ms == [] then table else Replay(c, NextTable(c, table, ms[0]), ms[1..])
  }

  /**
   * Over any run of messages each context gets at most one instance: an
   * instance present at the start is never replaced, every other entry is
   * the factory's instance for a context some message was addressed to,
   * and every context some message was addressed to has an entry.
   */
  lemma {:induction false} ReplayInstances<I>(c: Binding<I>, table: map<EventContext, I>, ms: seq<Message>)
    ensures forall k :: k in table ==> k in Replay(c, table, ms) && Replay(c, table, ms)[k] == table[k]
    ensures forall k :: k in Replay(c, table, ms) && k !in table ==>
      Replay(c, table, ms)[k] == c.Make(k) && exists i :: 0 <= i < |ms| && AddressedTo(c, ms[i], k)
    ensures forall i, k :: 0 <= i < |ms| && AddressedTo(c, ms[i], k) ==> k in Replay(c, table, ms)
    decreases |ms|
  {
    if ms != [] {
      var next := NextTable(c, table, ms[0]);
      ReplayInstances(c, next, ms[1..]);
      var r := Replay(c, table, ms);
      assert r == Replay(c, next, ms[1..]);
      forall k | k in r && k !in table
        ensures r[k] == c.Make(k) && exists i :: 0 <= i < |ms| && AddressedTo(c, ms[i], k)
      {
        if k in next {
          assert AddressedTo(c, ms[0], k);
        } else {
          var i :| 0 <= i < |ms[1..]| && AddressedTo(c, ms[1..][i], k);
          assert ms[1..][i] == ms[i + 1];
        }
      }
      forall i, k | 0 <= i < |ms| && AddressedTo(c, ms[i], k)
        ensures k in r
      {
        if i > 0 {
          assert ms[1..][i - 1] == ms[i];
        }
      }
    }
  }
}
