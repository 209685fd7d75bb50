/**
 * InstancedAction of pkg/streamdeck/instance.go: the older generation's
 * multiplexing action. It keeps one instance per event context, created
 * by its factory from the context alone and initialised once, at
 * creation, with the mux's event publisher. It reads only the event and
 * context of a message: there is no action filter.
 */
module LegacyInstance {
  import opened Wrappers
  import opened Core
  import opened Sent
  import opened Transport
  import opened Events
  import Actions
  import LegacyEvents

  /** The action UUID the mux reports, whatever it multiplexes. */
  const MuxUUID: ActionUUID := "com.craiggwilson.streamdeck.counter"

  /** The keys of the mux's eventAndContext struct. */
  const MuxHeaderKeys: set<HeaderKey> := {EventKey, ContextKey}

  /** A stored instance, with the event publisher it was initialised with. */
  datatype Member<I> = Member(instance: I, publisher: Connection?<Wire>)

  /** dispatchEvent of this generation with one instance as its target. */
  function Deliver<I>(b: Actions.Behaviour<I>, instance: I, name: EventName, m: Message): Option<Error>
  {
    Events.Perform(LegacyEvents.RouteOf(b.capabilities(instance), name, m), b.handle(instance))
  }

  /** m decodes to a header naming the non-empty context k, whatever action it names. */
  predicate AddressedTo(m: Message, k: EventContext)
  {
    var h := DecodeHeader(m, MuxHeaderKeys);
    h.Ok? && h.value.context == k && k != ""
  }

  /**
   * The member table after the mux handles m: existing members stay as
   * they are; the only member ever added is the factory's instance for the
   * context m is addressed to, initialised with the given publisher, and
   * it is present afterwards.
   */
  function NextTable<I>(factory: EventContext -> I, publisher: Connection?<Wire>, table: map<EventContext, Member<I>>, m: Message)
    : (t: map<EventContext, Member<I>>)
    ensures forall k :: k in table ==> k in t && t[k] == table[k]
    ensures forall k :: k in t && k !in table ==> AddressedTo(m, k) && t[k] == Member(factory(k), publisher)
    ensures forall k :: AddressedTo(m, k) ==> k in t
  {
    var h := DecodeHeader(m, MuxHeaderKeys);
    if h.Err? || h.value.context == "" || h.value.context in table then table
    else table[h.value.context := Member(factory(h.value.context), publisher)]
  }

  function WrapMember(context: EventContext, e: Option<Error>): Option<Error>
  {
    if e.None? then None else Some(DispatchToMuxInstance(context, e.value))
  }

  /** What HandleEvent does with m, relating the table before and after and the error it returns. */
  ghost predicate Handled<I>(factory: EventContext -> I, publisher: Connection?<Wire>, b: Actions.Behaviour<I>, m: Message,
                             before: map<EventContext, Member<I>>, after: map<EventContext, Member<I>>, err: Option<Error>)
  {
    && after == NextTable(factory, publisher, before, m)
    && match DecodeHeader(m, MuxHeaderKeys)
       case Err(_) => err == Some(UnmarshalActionAndEvent)
       case Ok(h) =>
         if h.context == "" then
           && (err.None? <==> forall k :: k in before ==> Deliver(b, before[k].instance, h.event, m).None?)
           && (err.Some? ==> exists k, e :: k in before && Deliver(b, before[k].instance, h.event, m) == Some(e)
                                            && err == Some(DispatchToMuxInstance("", e)))
         else err == WrapMember(h.context, Deliver(b, after[h.context].instance, h.event, m))
  }

  class InstancedAction<I> {
    const factory: EventContext -> I
    var instances: map<EventContext, Member<I>>
    var eventPublisher: Connection?<Wire>

    /** NewInstancedAction: the factory it is given, no instances, no publisher yet. */
    constructor (factory: EventContext -> I)
      ensures this.factory == factory && instances == map[] && eventPublisher == null
    {
      this.factory := factory;
      instances := map[];
      eventPublisher := null;
    }

    /** UUID: the fixed counter action UUID, for every mux. */
    function UUID(): (id: ActionUUID)
      ensures id == MuxUUID
    {
      MuxUUID
    }

    /** Initialize: records the event publisher that instances created from now on are given. */
    method Initialize(eventPublisher: Connection?<Wire>)
      modifies this`eventPublisher
      ensures this.eventPublisher == eventPublisher
    {
      this.eventPublisher := eventPublisher;
    }

    /** HandleEvent: decode event and context, then broadcast or look up (creating and initialising if need be) and dispatch. */
    method HandleEvent(m: Message, b: Actions.Behaviour<I>) returns (err: Option<Error>)
      modifies this`instances
      ensures Handled(factory, eventPublisher, b, m, old(instances), instances, err)
    {
      var header := DecodeHeader(m, MuxHeaderKeys);
      if header.Err? {
        return Some(UnmarshalActionAndEvent);
      }
      var h := header.value;
      if h.context == "" {
        var failure, visited := Broadcast(instances, (member: Member<I>) => Deliver(b, member.instance, h.event, m));
        if failure.Some? {
          return Some(DispatchToMuxInstance(h.context, failure.value.1));
        }
        return None;
      }
      var member;
      if h.context in instances {
        member := instances[h.context];
      } else {
        member := Member(factory(h.context), eventPublisher);
        instances := instances[h.context := member];
      }
      var e := Deliver(b, member.instance, h.event, m);
      if e.Some? {
        return Some(DispatchToMuxInstance(h.context, e.value));
      }
      return None;
    }
  }

  /** The table after a run of messages, handled one after another with the same publisher. */
  function Replay<I>(factory: EventContext -> I, publisher: Connection?<Wire>, table: map<EventContext, Member<I>>, ms: seq<Message>)
    : map<EventContext, Member<I>>
    decreases |ms|
  {
    if ms == [] then table else Replay(factory, publisher, NextTable(factory, publisher, table, ms[0]), ms[1..])
  }

  /**
   * Over any run of messages each instance is created and initialised at
   * most once: a member present at the start is never replaced, and every
   * other member is the factory's instance for a context some message was
   * addressed to, initialised with the mux's publisher.
   */
  lemma {:induction false} InitializedOnce<I>(factory: EventContext -> I, publisher: Connection?<Wire>,
                                              table: map<EventContext, Member<I>>, ms: seq<Message>)
    ensures forall k :: k in table ==> k in Replay(factory, publisher, table, ms) && Replay(factory, publisher, table, ms)[k] == table[k]
    ensures forall k :: k in Replay(factory, publisher, table, ms) && k !in table ==>
      Replay(factory, publisher, table, ms)[k] == Member(factory(k), publisher)
      && exists i :: 0 <= i < |ms| && AddressedTo(ms[i], k)
    decreases |ms|
  {
    if ms != [] {
      var next := NextTable(factory, publisher, table, ms[0]);
      InitializedOnce(factory, publisher, next, ms[1..]);
      var r := Replay(factory, publisher, table, ms);
      assert r == Replay(factory, publisher, next, ms[1..]);
      forall k | k in r && k !in table
        ensures r[k] == Member(factory(k), publisher) && exists i :: 0 <= i < |ms| && AddressedTo(ms[i], k)
      {
        if k in next {
          assert AddressedTo(ms[0], k);
        } else {
          var i :| 0 <= i < |ms[1..]| && AddressedTo(ms[1..][i], k);
          assert ms[1..][i] == ms[i + 1];
        }
      }
    }
  }
}
