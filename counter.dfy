/**
 * The per-instance counter of cmd/streamdeck-example/internal/counter:
 * each instance counts its own key presses and shows the count as its
 * title through its own publisher.
 */
module Counter {
  import opened Wrappers
  import opened Core
  import opened Received
  import opened Sent
  import opened Transport
  import opened Publish
  import opened Decimal

  const CounterUUID: ActionUUID := "com.craiggwilson.streamdeck.example.counter"

  /** The handler interfaces an instance implements: the typed key-down handler alone. */
  const CounterKinds: set<EventKind> := {KeyDown}

  /** The title command for a count: its decimal spelling, on hardware and software. */
  function TitleFor(count: int): (cmd: Command)
    ensures cmd.SetTitleCmd? && cmd.title.target == HardwareAndSoftware && cmd.title.state == None
    ensures ParseInt(cmd.title.title) == Some(count)
  {
    ItoaRoundTrip(count);
    SetTitleCmd(TitlePayload(Itoa(count), HardwareAndSoftware, None))
  }

  class ActionInstance {
    const eventContext: EventContext
    const publisher: InstancePublisher
    var count: int

    /** The factory's instance: the given context and publisher, and a count of zero. */
    constructor (eventContext: EventContext, publisher: InstancePublisher)
      ensures this.eventContext == eventContext && this.publisher == publisher && count == 0
    {
      this.eventContext := eventContext;
      this.publisher := publisher;
      count := 0;
    }

    function ActionUUID(): (id: ActionUUID)
      ensures id == CounterUUID
    {
      CounterUUID
    }

    function EventContext(): (c: EventContext)
      ensures c == eventContext
    {
      eventContext
    }

    /**
     * HandleKeyDown: one more press, then exactly one SetTitle showing the
     * new count, whose error is the handler's result.
     */
    method HandleKeyDown(event: TypedEvent) returns (err: Option<Error>)
      requires publisher.core != null
      modifies this`count, publisher.core`sent
      ensures count == old(count) + 1
      ensures Published(old(publisher.core.sent), publisher.core.sent, publisher.core.open, publisher.Stamp(TitleFor(count)), err)
    {
      count := count + 1;
      err := publisher.Send(TitleFor(count));
    }
  }

  /** The record a key press publishes carries the instance's context and the new count, and is always marshalled. */
  lemma TitleRecord(p: InstancePublisher, count: int)
    ensures p.Stamp(TitleFor(count)) == SetTitle(p.eventContext, TitlePayload(Itoa(count), HardwareAndSoftware, None))
    ensures Marshal(p.Stamp(TitleFor(count))).Ok?
  {
  }

  /**
   * A key press on one instance leaves another instance's count alone:
   * the count is per instance.
   */
  method PressOne(a: ActionInstance, b: ActionInstance, event: TypedEvent) returns (err: Option<Error>)
    requires a != b && a.publisher.core != null
    modifies a`count, a.publisher.core`sent
    ensures a.count == old(a.count) + 1 && b.count == old(b.count)
  {
    err := a.HandleKeyDown(event);
  }
}
