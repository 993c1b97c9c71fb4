/**
  One proxied request from its first route to its terminal log event.  What routing, connectors, the network and
  the client do is left open: every contract holds for all their choices.
 */
module Completion {
  import opened Options

  datatype Outcome =
    | Succeeded | Cancelled | ClientRequestError | UpstreamUnavailable | ConnectTimeout | ResponseHeaderTimeout
    | UpstreamHttpError | UpstreamSseError | UpstreamBodyError | StreamIdleTimeout | ResponseTransformFailed
    | UpstreamContentEncodingUnsupported

  /** The terminal event of the request log; only its id and outcome matter here. */
  datatype Event = Event(id: nat, outcome: Outcome)

  /** The durable request log as one request sees it. */
  class RequestLogSink {
    var intents: seq<nat>
    var events: seq<Event>

    constructor ()
      ensures intents == [] && events == []
    {
      intents, events := [], [];
    }

    method Admit(id: nat) returns (ok: bool)
      modifies this`intents
      ensures intents == if ok then old(intents) + [id] else old(intents)
    {
      ok := *;
      if ok {
        intents := intents + [id];
      }
    }
  }

  /** The channel leases that are alive. */
  class ChannelPool {
    var live: set<nat>

    constructor ()
      ensures live == {}
    {
      live := {};
    }
  }

  /** Owns the request's lease and its duty to log; `context` is taken by the first `Finish`. */
  class CompletionGuard {
    const sink: RequestLogSink
    const pool: ChannelPool
    const id: nat
    var context: Option<nat>
    var lease: Option<nat>
    var attempts: nat
    ghost const logged: seq<Event>
    ghost const others: set<nat>
    ghost var result: Option<Outcome>

    function Leases(): set<nat>
      reads this
    {
      if lease.Some? then {lease.value} else {}
    }

    /** This request's only leases are the guard's own and `extra`. */
    ghost predicate Holds(extra: set<nat>)
      reads this, pool
    {
      pool.live == others + Leases() + extra && others !! Leases() !! extra
    }

    /** The request has logged its result, at most once and under its id; with the context, nothing yet. */
    ghost predicate Logs()
      reads this, sink
    {
      && (context.Some? ==> context.value == id && result.None?)
      && sink.events == logged + if result.Some? then [Event(id, result.value)] else []
    }

    ghost predicate Valid()
      reads this, sink, pool
    {
      Logs() && Holds({})
    }

    constructor (sink: RequestLogSink, pool: ChannelPool, id: nat, lease: nat, ghost others: set<nat>)
      requires pool.live == others + {lease} && lease !in others
      ensures Valid() && context == Some(id) && this.lease == Some(lease) && attempts == 1 && result == None
      ensures this.sink == sink && this.pool == pool && this.id == id && logged == sink.events
      ensures this.others == others
    {
      this.sink, this.pool, this.id := sink, pool, id;
      this.context, this.lease, this.attempts := Some(id), Some(lease), 1;
      this.logged, this.others, this.result := sink.events, others, None;
    }

    /** A request whose log admission is denied gives up its context: nothing will be logged for it. */
    method AdmitRequestLog() returns (ok: bool)
      requires Valid() && context.Some?
      modifies this, sink
      ensures Valid() && result.None? && lease == old(lease) && attempts == old(attempts)
      ensures context == if ok then old(context) else None
      ensures sink.intents == if ok then old(sink.intents) + [id] else old(sink.intents)
    {
      ok := sink.Admit(context.value);
      if !ok {
        context := None;
      }
    }

    /** Hands the request over to another route: the old lease is released, the new one is kept. */
    method ReplaceRoute(next: nat, dispatched: bool)
      requires Logs() && Holds({next}) && lease.Some?
      modifies this, pool
      ensures Valid() && lease == Some(next) && context == old(context) && result == old(result)
      ensures attempts == old(attempts) + if dispatched && context.Some? then 1 else 0
    {
      pool.live := pool.live - {lease.value};
      if context.Some? && dispatched {
        attempts := attempts + 1;
      }
      lease := Some(next);
    }

    /** Logs the outcome, unless an outcome was logged before. */
    method Finish(outcome: Outcome)
      requires Valid()
      modifies this`context, this`result, sink`events
      ensures Valid() && context.None?
      ensures result == if old(context).Some? then Some(outcome) else old(result)
    {
      if context.Some? {
        sink.events := sink.events + [Event(context.value, outcome)];
        result := Some(outcome);
        context := None;
      }
    }

    /** Whoever drops the guard, at whatever point, cancels a request that has no outcome. */
    method Drop()
      requires Valid()
      modifies this`context, this`lease, this`result, sink`events, pool
      ensures Valid() && context.None? && lease.None? && pool.live == others
      ensures result == if old(context).Some? then Some(Cancelled) else old(result)
    {
      Finish(Cancelled);
      pool.live := pool.live - Leases();
      lease := None;
    }

    method Observe(terminal: Option<Terminal>) returns (seen: Option<Terminal>)
      ensures seen == if context.Some? then terminal else None
    {
      seen := if context.Some? then terminal else None;
    }
  }

  /** What the usage collector recognises as the end of an event stream. */
  datatype Terminal = Completed | Failed

  function CompletedTransportOutcome(upstreamSucceeded: bool): Outcome {
    if upstreamSucceeded then Succeeded else UpstreamHttpError
  }

  function SseTerminalRequestOutcome(terminal: Terminal, upstreamSucceeded: bool): Outcome {
    if !upstreamSucceeded then UpstreamHttpError
    else if terminal.Completed? then Succeeded
    else UpstreamSseError
  }
}
