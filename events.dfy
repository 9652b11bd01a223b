/**
  The event bus of src/events.py: a first-in first-out queue of typed events.
  Whether an event loop was running when the bus was built is fixed at
  construction; whether it is still running when an event is published is a
  parameter of `Publish`.
 */
module Events {
  import opened Text

  /** `EventType`: exactly five kinds. */
  datatype EventType = TriggerChat | TriggerVoice | NextPersona | PrevPersona | Shutdown

  /** The value `enum.auto()` gives each kind: 1 to 5 in declaration order. */
  function AutoValue(k: EventType): (r: int)
    ensures 1 <= r <= 5
  {
    match k
    case TriggerChat => 1
    case TriggerVoice => 2
    case NextPersona => 3
    case PrevPersona => 4
    case Shutdown => 5
  }

  /** No two kinds share a value, so the five members are distinct. */
  lemma AutoValueInjective(a: EventType, b: EventType)
    requires AutoValue(a) == AutoValue(b)
    ensures a == b
  {
  }

  /** `Event(type, data=None)`; the payload is of any type. */
  datatype Event<T> = Event(kind: EventType, data: Option<T>)

  class EventBus<T> {
    /** `asyncio.get_running_loop()` succeeded in `__init__`. */
    const hasLoop: bool
    /** The items of the `asyncio.Queue`, head first. */
    var queue: seq<Event<T>>

    constructor (loopRunningAtConstruction: bool)
      ensures hasLoop == loopRunningAtConstruction
      ensures queue == []
    {
      hasLoop := loopRunningAtConstruction;
      queue := [];
    }

    /**
      `publish(event)`: with a captured loop that is still running the event
      joins the tail of the queue; otherwise it is dropped with a warning.
     */
    method Publish(event: Event<T>, loopIsRunning: bool)
      modifies this
      ensures hasLoop && loopIsRunning ==> queue == old(queue) + [event]
      ensures !(hasLoop && loopIsRunning) ==> queue == old(queue)
    {
      if hasLoop && loopIsRunning {
        queue := queue + [event];
      }
    }

    /** `get()`: removes and returns the head, unchanged. The wait on an empty queue is left out. */
    method Get() returns (event: Event<T>)
      requires queue != []
      modifies this
      ensures event == old(queue)[0]
      ensures queue == old(queue)[1..]
    {
      event := queue[0];
      queue := queue[1..];
    }
  }

  /**
    Two events published on a bus built inside a running loop come out of
    `get` in publication order, kind and data intact.
   */
  method PublishedInOrder<T>(first: Event<T>, second: Event<T>) returns (out1: Event<T>, out2: Event<T>)
    ensures out1 == first && out2 == second
  {
    var bus := new EventBus<T>(true);
    bus.Publish(first, true);
    bus.Publish(second, true);
    out1 := bus.Get();
    out2 := bus.Get();
  }

  /** With no loop captured at construction, every publication is dropped. */
  method PublishedWithoutLoop<T>(event: Event<T>, loopIsRunning: bool) returns (queued: nat)
    ensures queued == 0
  {
    var bus := new EventBus<T>(false);
    bus.Publish(event, loopIsRunning);
    queued := |bus.queue|;
  }
}
