/**
 * The collaborators the filter talks to, reduced to what it observes of
 * them: the runtime feature-flag snapshot, the metrics store, and the
 * per-direction host callbacks that hand out the body buffered so far.
 */
module Host {

  /** What the store receives: a counter increment or a timing delivery, by name. */
  datatype Event = Counter(name: string) | Timing(name: string)

  /** The directive a callback returns to the filter chain. */
  datatype FilterStatus = Continue | StopIterationAndBuffer

  /** The metrics store: an append-only record of what was charged. */
  class Store {
    var events: seq<Event>

    constructor ()
      ensures events == []
    {
      events := [];
    }

    method Increment(name: string)
      modifies this
      ensures events == old(events) + [Counter(name)]
    {
      events := events + [Counter(name)];
    }

    /** The duration delivered alongside the name is not modelled. */
    method DeliverTiming(name: string)
      modifies this
      ensures events == old(events) + [Timing(name)]
    {
      events := events + [Timing(name)];
    }
  }

  /**
   * The runtime snapshot. `rollout` is its answer for a key and default
   * percentage; `queries` records every question asked.
   */
  class Runtime {
    const rollout: (string, nat) -> bool
    var queries: seq<(string, nat)>

    constructor (rollout: (string, nat) -> bool)
      ensures this.rollout == rollout && queries == []
    {
      this.rollout := rollout;
      queries := [];
    }

    method FeatureEnabled(key: string, defaultPercent: nat) returns (enabled: bool)
      modifies this
      ensures enabled == rollout(key, defaultPercent)
      ensures queries == old(queries) + [(key, defaultPercent)]
    {
      enabled := rollout(key, defaultPercent);
      queries := queries + [(key, defaultPercent)];
    }
  }

  /**
   * One direction's host callbacks: the bytes the host has buffered for the
   * message so far, and how often the filter asked for them.
   */
  class StreamCallbacks {
    var buffered: string
    var fetches: nat

    constructor ()
      ensures buffered == [] && fetches == 0
    {
      buffered := [];
      fetches := 0;
    }

    /** The host appends bytes to its buffer. */
    method Add(data: string)
      modifies this
      ensures buffered == old(buffered) + data && fetches == old(fetches)
    {
      buffered := buffered + data;
    }

    /** The filter asks for the body buffered so far. */
    method Buffer() returns (body: string)
      modifies this
      ensures body == buffered && buffered == old(buffered)
      ensures fetches == old(fetches) + 1
    {
      body := buffered;
      fetches := fetches + 1;
    }
  }
}
