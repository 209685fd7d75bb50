/**
 * The minimal counter of cmd/streamdeck-counter/internal/counter, written
 * against pkg/streamdeck: each instance counts its key presses and
 * publishes nothing.
 */
module MinimalCounter {
  import opened Wrappers
  import opened Core
  import opened Received
  import opened Sent
  import opened Transport

  const MinimalCounterUUID: ActionUUID := "com.craiggwilson.streamdeck.counter"

  /** The handler interfaces an instance implements: the typed key-down handler alone. */
  const MinimalCounterKinds: set<EventKind> := {KeyDown}

  class Action {
    var eventPublisher: Connection?<Wire>
    var count: int

    /** The factory's instance, whatever the context: no publisher and a count of zero. */
    constructor ()
      ensures eventPublisher == null && count == 0
    {
      eventPublisher := null;
      count := 0;
    }

    function UUID(): (id: ActionUUID)
      ensures id == MinimalCounterUUID
    {
      MinimalCounterUUID
    }

    /** Initialize: stores the publisher and nothing else. */
    method Initialize(eventPublisher: Connection?<Wire>)
      modifies this`eventPublisher
      ensures this.eventPublisher == eventPublisher
    {
      this.eventPublisher := eventPublisher;
    }

    /** HandleKeyDown: one more press; it always succeeds. */
    method HandleKeyDown(event: TypedEvent) returns (err: Option<Error>)
      modifies this`count
      ensures count == old(count) + 1 && err == None
    {
      count := count + 1;
      err := None;
    }
  }
}
