/** The attempt loop of a proxied request: routes are tried until one answers or the request has to give up. */
module Attempts {
  import opened Completion
  import opened Options
  import opened StreamScript
  import opened Streams

  const INLINE_ATTEMPTED_CANDIDATES: nat := 11

  predicate Distinct(s: seq<nat>) {
    forall i, j :: 0 <= i < j < |s| ==> s[i] != s[j]
  }

  predicate Below(s: seq<nat>, n: nat) {
    forall x :: x in s ==> x < n
  }

  lemma {:induction false} Pigeonhole(s: seq<nat>, n: nat)
    requires Distinct(s) && Below(s, n)
    ensures |s| <= n
  {
    if s == [] {
    } else if exists i :: 0 <= i < |s| && s[i] == n - 1 {
      var i :| 0 <= i < |s| && s[i] == n - 1;
      Remove(s, n, i);
      Pigeonhole(s[..i] + s[i + 1..], n - 1);
    } else {
      assert s[0] in s;
      Pigeonhole(s, n - 1);
    }
  }

  lemma Remove(s: seq<nat>, n: nat, i: nat)
    requires Distinct(s) && Below(s, n) && i < |s| && s[i] == n - 1
    ensures Distinct(s[..i] + s[i + 1..]) && Below(s[..i] + s[i + 1..], n - 1)
  {
    var rest := s[..i] + s[i + 1..];
    forall j | 0 <= j < |rest|
      ensures rest[j] == s[if j < i then j else j + 1] < n - 1
    {
      assert s[if j < i then j else j + 1] in s;
    }
  }

  lemma DistinctNone(n: nat)
    ensures Distinct([]) && Below([], n)
  {
  }

  /** Another slot of the candidates still leaves distinct ones, of which there cannot be too many. */
  lemma AnotherSlot(slots: seq<nat>, slot: nat, candidates: nat)
    requires Distinct(slots) && Below(slots, candidates) && slot !in slots && slot < candidates
    ensures Distinct(slots + [slot]) && Below(slots + [slot], candidates) && |slots| + 1 <= candidates
  {
    Pigeonhole(slots + [slot], candidates);
  }

  /** The slots tried so far: the first few in a fixed array, all of them in a list once it is full. */
  class AttemptedCandidateSlots {
    const inline: array<nat>
    var len: nat
    var overflow: Option<seq<nat>>

    ghost predicate Valid()
      reads this
    {
      && inline.Length == INLINE_ATTEMPTED_CANDIDATES
      && len <= INLINE_ATTEMPTED_CANDIDATES
      && (overflow.Some? ==> len == INLINE_ATTEMPTED_CANDIDATES)
    }

    ghost function Contents(): seq<nat>
      requires Valid()
      reads this, inline
    {
      if overflow.Some? then overflow.value else inline[..len]
    }

    constructor ()
      ensures Valid() && Contents() == [] && fresh(inline)
    {
      inline := new nat[INLINE_ATTEMPTED_CANDIDATES];
      len, overflow := 0, None;
    }

    method Push(slot: nat)
      requires Valid()
      modifies this, inline
      ensures Valid() && Contents() == old(Contents()) + [slot]
    {
      if overflow.Some? {
        overflow := Some(overflow.value + [slot]);
        return;
      }
      if len < inline.Length {
        inline[len] := slot;
        len := len + 1;
        return;
      }
      overflow := Some(inline[..] + [slot]);
    }

    method AsSlice() returns (slots: seq<nat>)
      requires Valid()
      ensures slots == Contents()
    {
      slots := if overflow.Some? then overflow.value else inline[..len];
    }
  }

  datatype Route = Route(slot: nat, lease: nat)

  /** Routing is only trusted not to return an excluded slot; a route comes with a lease of its own. */
  method SelectExcluding(guard: CompletionGuard, candidates: nat, excluded: seq<nat>) returns (route: Option<Route>)
    requires guard.Valid()
    modifies guard.pool
    ensures route.None? ==> guard.Valid()
    ensures route.Some? ==>
              && route.value.slot < candidates && route.value.slot !in excluded
              && guard.Logs() && guard.Holds({route.value.lease})
  {
    var slot: nat := *;
    var lease: nat := *;
    if slot >= candidates || slot in excluded || lease in guard.pool.live {
      return None;
    }
    guard.pool.live := guard.pool.live + {lease};
    route := Some(Route(slot, lease));
  }

  datatype Mode = Json | Sse

  /** An answer from upstream, as far as its handling depends on it. */
  datatype Response = Response(
    success: bool, bodiless: bool, codingsKnown: bool, encoded: bool, sse: bool, jsonType: bool,
    contentLength: Option<nat>, headersApply: bool, patched: bool, adapter: Option<Mode>, jsonResult: Option<bool>,
    arrivals: seq<Arrival>, patience: nat)

  /** The adapter, which only successful answers are given to. */
  function Adapter(r: Response): Option<Mode> {
    if r.success then r.adapter else None
  }

  /** The answer can be passed on: its codings are known, its headers apply, and it is what the adapter is for. */
  predicate Passes(r: Response) {
    && r.codingsKnown && r.headersApply
    && (Adapter(r).Some? ==> r.sse == (Adapter(r).value == Sse) && (Adapter(r).value == Json ==> r.jsonType))
  }

  /** The announced length, where the body is passed on as it comes. */
  function Announced(r: Response): Option<nat> {
    if !(r.patched && r.sse) && Adapter(r).None? && !r.encoded then r.contentLength else None
  }

  /** The stream of an answer that is passed on as one. */
  function Stream(r: Response): Setting {
    Setting(Sights(r.arrivals, (r.patched && r.sse) || Adapter(r).Some?, Adapter(r).Some?), Announced(r), r.success,
            Adapter(r).Some?)
  }

  predicate Streamed(r: Response) {
    Passes(r) && !r.bodiless && Announced(r) != Some(0) && Adapter(r) != Some(Json)
  }

  /** What is logged of an answer that is not streamed. */
  function AtOnce(r: Response): Outcome {
    if !r.codingsKnown then UpstreamContentEncodingUnsupported
    else if !Passes(r) then ResponseTransformFailed
    else if r.bodiless || Announced(r) == Some(0) then (if r.success then Succeeded else UpstreamHttpError)
    else
      match r.jsonResult
      case None => Cancelled
      case Some(true) => Succeeded
      case Some(false) => ResponseTransformFailed
  }

  /**
    Passes an answer on.  Behind an adapter, success takes a terminal event in the upstream stream, unless the
    answer has no body or is plain JSON.
   */
  method ResponseFromUpstream(guard: CompletionGuard, r: Response) returns (outcome: Outcome)
    requires guard.Valid() && guard.context.Some?
    modifies guard`context, guard`lease, guard`result, guard.sink`events, guard.pool
    ensures guard.sink.events == old(guard.sink.events) + [Event(guard.id, outcome)]
    ensures guard.pool.live == guard.others
    ensures if Streamed(r) then exists taken :: Logs(Stream(r), taken, outcome) else outcome == AtOnce(r)
    ensures outcome == Succeeded ==> r.success && Passes(r)
    ensures outcome == Succeeded && Adapter(r) == Some(Sse) && !r.bodiless ==>
              exists p :: ShowsTerminal(p) && Received(p, r.arrivals)
  {
    hide Sights, Received, ShowsTerminal, Logs;
    var adapter := Adapter(r);
    var transform := r.patched && r.sse;
    var expected := if !transform && adapter.None? && !r.encoded then r.contentLength else None;
    if !r.codingsKnown {
      outcome := UpstreamContentEncodingUnsupported;
    } else if adapter.Some? && (r.sse != (adapter.value == Sse) || (adapter.value == Json && !r.jsonType)) {
      outcome := ResponseTransformFailed;
    } else if !r.headersApply {
      outcome := ResponseTransformFailed;
    } else if r.bodiless || expected == Some(0) {
      outcome := CompletedTransportOutcome(r.success);
    } else if adapter == Some(Json) {
      // The whole body is collected first; the client may go away meanwhile.
      outcome := match r.jsonResult
        case None => Cancelled
        case Some(adapted) => if adapted then Succeeded else ResponseTransformFailed;
    } else {
      outcome := StreamAnswer(guard, r);
      return;
    }
    guard.Finish(outcome);
    guard.Drop();
  }

  method StreamAnswer(guard: CompletionGuard, r: Response) returns (outcome: Outcome)
    requires guard.Valid() && guard.context.Some? && Streamed(r)
    modifies guard`context, guard`lease, guard`result, guard.sink`events, guard.pool
    ensures guard.sink.events == old(guard.sink.events) + [Event(guard.id, outcome)]
    ensures guard.pool.live == guard.others
    ensures exists taken :: Logs(Stream(r), taken, outcome)
    ensures outcome == Succeeded ==> r.success
    ensures outcome == Succeeded && Adapter(r).Some? ==> exists p :: ShowsTerminal(p) && Received(p, r.arrivals)
  {
    hide Sights, Received, ShowsTerminal, Logs;
    var adapts := Adapter(r).Some?;
    var stream := new StreamState(guard, r.arrivals, r.success, Announced(r), (r.patched && r.sse) || adapts, adapts);
    var items, ended;
    ghost var taken;
    items, outcome, ended, taken := Drive(stream, r.patience);
    assert Logs(Stream(r), taken, outcome);
    if outcome == Succeeded {
      SuccessIsEarned(Stream(r), r.arrivals, taken);
    }
  }

  /** What building the upstream request can come to. */
  datatype Built = Ready | BadRequest | Unbuildable | ClientGone

  datatype PreHeaderFailure = NoConnection | SlowConnection | SlowHeaders

  function FailureOutcome(failure: PreHeaderFailure): Outcome {
    match failure
    case NoConnection => UpstreamUnavailable
    case SlowConnection => ConnectTimeout
    case SlowHeaders => ResponseHeaderTimeout
  }

  /** What sending the request upstream can come to; `Abandoned` is the client going away. */
  datatype Sent = Abandoned | SendFailed | PreHeader(failure: PreHeaderFailure) | Answered(response: Response)

  /**
    How a request came to its outcome: no connector was ready, it could not be built, or the last dispatch settled it.
    `retriable` says whether that dispatch might be retried, `stuck` that routing had no route left for it.
   */
  datatype Ending = NoConnector | NotBuilt(built: Built) | LastSent(sent: Sent, retriable: bool, stuck: bool)

  /** What is logged for what sending came to. */
  ghost predicate LoggedFor(sent: Sent, outcome: Outcome) {
    match sent
    case Abandoned => outcome == Cancelled
    case SendFailed => outcome == UpstreamUnavailable
    case PreHeader(NoConnection) => outcome == UpstreamUnavailable
    case PreHeader(SlowConnection) => outcome == ConnectTimeout
    case PreHeader(SlowHeaders) => outcome == ResponseHeaderTimeout
    case Answered(r) => if Streamed(r) then exists taken :: Logs(Stream(r), taken, outcome) else outcome == AtOnce(r)
  }

  ghost predicate EndsHere(ending: Ending, outcome: Outcome, mayRetry: bool) {
    match ending
    case NoConnector => outcome == UpstreamUnavailable
    case NotBuilt(built) =>
      built != Ready && outcome == (if built.BadRequest? then ClientRequestError
                                    else if built.Unbuildable? then UpstreamUnavailable else Cancelled)
    case LastSent(sent, retriable, stuck) =>
      && LoggedFor(sent, outcome)
      && ((sent.PreHeader? || sent.Answered?) && retriable ==> !mayRetry || stuck)
  }

  /**
    Tries routes in turn, starting with `first`; `live` are the leases that are alive as each route is tried.  Every
    route has a slot of its own, there is at most one dispatch more than there are retries, the request holds exactly
    one lease whenever a route is tried, and in the end it has logged exactly one event and holds no lease.
   */
  method TryRoutes(guard: CompletionGuard, first: nat, candidates: nat, maxRetries: nat)
    returns (outcome: Outcome, slots: seq<nat>, dispatches: nat, ending: Ending, ghost live: seq<set<nat>>)
    requires guard.Valid() && guard.context.Some? && guard.lease.Some? && first < candidates && guard.attempts == 1
    modifies guard, guard.sink`events, guard.pool
    ensures guard.sink.events == old(guard.sink.events) + [Event(guard.id, outcome)]
    ensures guard.pool.live == guard.others
    ensures Distinct(slots) && |slots| <= candidates && first in slots
    ensures |live| == |slots| && forall i :: 0 <= i < |slots| ==> HoldsOne(guard.others, live[i])
    ensures dispatches <= maxRetries + 1 && dispatches <= |slots|
    ensures dispatches <= guard.attempts <= dispatches + 1
    ensures outcome == Succeeded ==> dispatches > 0
    ensures EndsHere(ending, outcome, dispatches <= maxRetries)
  {
    hide LoggedFor, CompletionGuard.Logs, CompletionGuard.Holds, Received, ShowsTerminal, Distinct, Below;
    DistinctNone(candidates);
    var maxAttempts := maxRetries + 1;
    var attempt := 1;
    dispatches := 0;
    var slot: nat := first;
    var attempted := new AttemptedCandidateSlots();
    slots, live := [], [];
    while true
      invariant |live| == |slots| && forall i :: 0 <= i < |slots| ==> HoldsOne(guard.others, live[i])
      invariant guard.Valid() && guard.context.Some? && guard.lease.Some? && guard.attempts == attempt
      invariant guard.sink.events == old(guard.sink.events)
      invariant attempted.Valid() && fresh(attempted) && fresh(attempted.inline) && attempted.Contents() == slots
      invariant Distinct(slots) && Below(slots, candidates) && slot !in slots && slot < candidates
      invariant (slots == [] && slot == first) || first in slots
      invariant 1 <= attempt <= maxAttempts && dispatches == attempt - 1 <= |slots|
      decreases candidates - |slots|
    {
      attempted.Push(slot);
      OneHeld(guard);
      live := live + [guard.pool.live];
      AnotherSlot(slots, slot, candidates);
      slots := slots + [slot];
      var prepared: bool := *;
      if !prepared {
        var affinityHit: bool := *;
        var next := None;
        if !affinityHit {
          next := Reroute(guard, attempted, candidates, false);
        }
        if next.None? {
          outcome := Conclude(guard, UpstreamUnavailable);
          ending := NoConnector;
          return;
        }
        slot := next.value;
        continue;
      }
      var next, sends;
      next, sends, outcome, ending := Attempt(guard, attempted, candidates, attempt < maxAttempts);
      dispatches := dispatches + sends;
      if next.None? {
        return;
      }
      slot := next.value;
      attempt := attempt + 1;
    }
  }

  /** Builds and sends the request on its current route: it goes on to another route, or that settles it. */
  method Attempt(guard: CompletionGuard, attempted: AttemptedCandidateSlots, candidates: nat, mayRetry: bool)
    returns (next: Option<nat>, sends: nat, outcome: Outcome, ending: Ending)
    requires guard.Valid() && guard.context.Some? && guard.lease.Some? && attempted.Valid()
    modifies guard, guard.sink`events, guard.pool
    ensures sends == if next.None? && ending.NotBuilt? then 0 else 1
    ensures next.Some? ==>
              && mayRetry && next.value < candidates && next.value !in attempted.Contents()
              && guard.Valid() && guard.context.Some? && guard.lease.Some? && guard.attempts == old(guard.attempts) + 1
              && guard.sink.events == old(guard.sink.events)
    ensures next.None? ==>
              && guard.sink.events == old(guard.sink.events) + [Event(guard.id, outcome)]
              && guard.pool.live == guard.others && guard.attempts == old(guard.attempts)
              && !ending.NoConnector? && EndsHere(ending, outcome, mayRetry)
              && (outcome == Succeeded ==> sends == 1)
  {
    hide CompletionGuard.Logs, CompletionGuard.Holds, LoggedFor;
    next, sends := None, 0;
    var built: Built := *;
    if built != Ready {
      outcome := Conclude(guard, if built.BadRequest? then ClientRequestError
                                 else if built.Unbuildable? then UpstreamUnavailable else Cancelled);
      ending := NotBuilt(built);
      return;
    }
    sends := 1;
    var sent: Sent := *;
    var retries: bool := *;
    var asks := (sent.PreHeader? || sent.Answered?) && retries && mayRetry;
    ending := LastSent(sent, retries, asks);
    outcome := Cancelled;
    if asks {
      next := Reroute(guard, attempted, candidates, true);
      if next.Some? {
        return;
      }
    }
    outcome := Settle(guard, sent);
  }

  /** Besides the leases of others, exactly one is alive. */
  ghost predicate HoldsOne(others: set<nat>, live: set<nat>) {
    others <= live && |live - others| == 1
  }

  lemma OneHeld(guard: CompletionGuard)
    requires guard.Valid() && guard.lease.Some?
    ensures HoldsOne(guard.others, guard.pool.live)
  {
    assert guard.pool.live - guard.others == {guard.lease.value};
  }

  /** Moves the request to a route that was not tried yet, if routing has one; the guard always holds one lease. */
  method Reroute(guard: CompletionGuard, attempted: AttemptedCandidateSlots, candidates: nat, dispatched: bool)
    returns (next: Option<nat>)
    requires guard.Valid() && guard.context.Some? && guard.lease.Some? && attempted.Valid()
    modifies guard, guard.pool
    ensures guard.Valid() && guard.context == old(guard.context) && guard.lease.Some?
    ensures guard.attempts == old(guard.attempts) + if next.Some? && dispatched then 1 else 0
    ensures next.Some? ==> next.value < candidates && next.value !in attempted.Contents()
  {
    hide CompletionGuard.Logs, CompletionGuard.Holds;
    var excluded := attempted.AsSlice();
    var route := SelectExcluding(guard, candidates, excluded);
    if route.None? {
      return None;
    }
    guard.ReplaceRoute(route.value.lease, dispatched);
    next := Some(route.value.slot);
  }

  method Settle(guard: CompletionGuard, sent: Sent) returns (outcome: Outcome)
    requires guard.Valid() && guard.context.Some?
    modifies guard`context, guard`lease, guard`result, guard.sink`events, guard.pool
    ensures guard.sink.events == old(guard.sink.events) + [Event(guard.id, outcome)]
    ensures guard.pool.live == guard.others
    ensures LoggedFor(sent, outcome)
    ensures outcome == Succeeded ==> sent.Answered? && sent.response.success
  {
    hide CompletionGuard.Logs, CompletionGuard.Holds, Received, ShowsTerminal, Logs, Stream, AtOnce;
    match sent {
      case Abandoned => outcome := Conclude(guard, Cancelled);
      case SendFailed => outcome := Conclude(guard, UpstreamUnavailable);
      case PreHeader(failure) => outcome := Conclude(guard, FailureOutcome(failure));
      case Answered(response) => outcome := ResponseFromUpstream(guard, response);
    }
  }

  method Conclude(guard: CompletionGuard, outcome: Outcome) returns (logged: Outcome)
    requires guard.Valid() && guard.context.Some?
    modifies guard`context, guard`lease, guard`result, guard.sink`events, guard.pool
    ensures logged == outcome
    ensures guard.sink.events == old(guard.sink.events) + [Event(guard.id, outcome)]
    ensures guard.pool.live == guard.others
  {
    guard.Finish(outcome);
    guard.Drop();
    logged := outcome;
  }

  /**
    A request that has its first route.  If the request log admits its intent, it logs exactly one event, under the
    intent's id; if the log refuses, nothing is sent and nothing is logged.
   */
  method ProxyRequest(sink: RequestLogSink, pool: ChannelPool, id: nat, first: Route, candidates: nat, maxRetries: nat)
    returns (admitted: bool, outcome: Outcome, slots: seq<nat>, dispatches: nat, ending: Ending)
    requires first.lease in pool.live && first.slot < candidates
    modifies sink, pool
    ensures sink.intents == old(sink.intents) + if admitted then [id] else []
    ensures sink.events == old(sink.events) + if admitted then [Event(id, outcome)] else []
    ensures pool.live == old(pool.live) - {first.lease}
    ensures Distinct(slots) && |slots| <= candidates
    ensures dispatches <= if admitted then maxRetries + 1 else 0
    ensures admitted ==> EndsHere(ending, outcome, dispatches <= maxRetries)
    ensures admitted && outcome == Succeeded ==> dispatches > 0
  {
    var guard := new CompletionGuard(sink, pool, id, first.lease, pool.live - {first.lease});
    admitted := guard.AdmitRequestLog();
    if !admitted {
      guard.Drop();
      outcome, slots, dispatches, ending := Cancelled, [], 0, NoConnector;
      return;
    }
    ghost var live;
    outcome, slots, dispatches, ending, live := TryRoutes(guard, first.slot, candidates, maxRetries);
  }
}
