/**
 * The shared counter of cmd/streamdeck-example/internal/synccounter: every
 * instance the factory creates is recorded in one shared list, and a key
 * press on any of them raises one shared count and shows it on all of
 * them. The lock around the shared state is not modelled: calls are
 * sequential.
 */
module SyncCounter {
  import opened Wrappers
  import opened Core
  import opened Received
  import opened Sent
  import opened Transport
  import opened Publish
  import opened Decimal
  import Counter

  const SyncCounterUUID: ActionUUID := "com.craiggwilson.streamdeck.example.synccounter"

  /** The records one display round puts on the wire: one title per instance, in list order. */
  function Titles(instances: seq<ActionInstance>, count: int): (ws: seq<Wire>)
    ensures |ws| == |instances|
    ensures forall i :: 0 <= i < |instances| ==>
      ws[i] == Encoded(SetTitle(instances[i].publisher.eventContext, TitlePayload(Itoa(count), HardwareAndSoftware, None)))
  {
    seq(|instances|, i requires 0 <= i < |instances| => Encoded(instances[i].publisher.Stamp(Counter.TitleFor(count))))
  }

  /** One more instance's title extends the round by exactly that title. */
  lemma TitlesGrow(instances: seq<ActionInstance>, count: int, i: int)
    requires 0 <= i < |instances|
    ensures Titles(instances[..i + 1], count) == Titles(instances[..i], count) + [Encoded(instances[i].publisher.Stamp(Counter.TitleFor(count)))]
  {
    assert instances[..i + 1] == instances[..i] + [instances[i]];
  }

  /** The state New closes over: the count and the instances created so far. */
  class Shared {
    var count: int
    var instances: seq<ActionInstance>

    constructor ()
      ensures count == 0 && instances == []
    {
      count := 0;
      instances := [];
    }

    /** The factory: an instance for the context and publisher, appended to the list exactly once. */
    method Create(eventContext: EventContext, publisher: InstancePublisher) returns (instance: ActionInstance)
      modifies this`instances
      ensures fresh(instance)
      ensures instance.eventContext == eventContext && instance.publisher == publisher && instance.shared == this
      ensures instances == old(instances) + [instance]
    {
      instance := new ActionInstance(eventContext, publisher, this);
      instances := instances + [instance];
    }

    /**
     * increment: the shared count goes up by exactly one, then every
     * instance in the list is shown the new count, its publisher's errors
     * ignored. All publishers write to the plugin's one core publisher.
     */
    method Increment(core: Connection<Wire>)
      requires forall i :: 0 <= i < |instances| ==> instances[i].publisher.core == core
      modifies this`count, core`sent
      ensures count == old(count) + 1
      ensures core.sent == old(core.sent) + (if core.open then Titles(instances, count) else [])
    {
      count := count + 1;
      var i := 0;
      while i < |instances|
        invariant 0 <= i <= |instances|
        invariant count == old(count) + 1
        invariant core.sent == old(core.sent) + (if core.open then Titles(instances[..i], count) else [])
      {
        instances[i].Display(count);
        TitlesGrow(instances, count, i);
        i := i + 1;
      }
      assert instances[..|instances|] == instances;
    }
  }

  class ActionInstance {
    const eventContext: EventContext
    const publisher: InstancePublisher
    const shared: Shared

    constructor (eventContext: EventContext, publisher: InstancePublisher, shared: Shared)
      ensures this.eventContext == eventContext && this.publisher == publisher && this.shared == shared
    {
      this.eventContext := eventContext;
      this.publisher := publisher;
      this.shared := shared;
    }

    function UUID(): (id: ActionUUID)
      ensures id == SyncCounterUUID
    {
      SyncCounterUUID
    }

    function Context(): (c: EventContext)
      ensures c == eventContext
    {
      eventContext
    }

    /** HandleKeyDown: the shared increment; it always succeeds, whatever the display does. */
    method HandleKeyDown(event: TypedEvent, core: Connection<Wire>) returns (err: Option<Error>)
      requires forall i :: 0 <= i < |shared.instances| ==> shared.instances[i].publisher.core == core
      modifies shared`count, core`sent
      ensures shared.count == old(shared.count) + 1
      ensures core.sent == old(core.sent) + (if core.open then Titles(shared.instances, shared.count) else [])
      ensures err == None
    {
      shared.Increment(core);
      err := None;
    }

    /** display: one SetTitle with the decimal count on hardware and software; a failure is dropped. */
    method Display(count: int)
      requires publisher.core != null
      modifies publisher.core`sent
      ensures publisher.core.sent == old(publisher.core.sent) + (if publisher.core.open then [Encoded(publisher.Stamp(Counter.TitleFor(count)))] else [])
    {
      var _ := publisher.Send(Counter.TitleFor(count));
    }
  }

  /**
   * After an increment every registered instance shows the same count,
   * the new one: the i-th title on the wire goes to the i-th registered
   * instance's context and reads back as that count.
   */
  lemma {:induction false} AllShowTheSameCount(instances: seq<ActionInstance>, count: int, i: int)
    requires 0 <= i < |instances|
    ensures Titles(instances, count)[i].event.SetTitle?
    ensures Titles(instances, count)[i].event.context == instances[i].publisher.eventContext
    ensures ParseInt(Titles(instances, count)[i].event.title.title) == Some(count)
  {
    ItoaRoundTrip(count);
  }
}
