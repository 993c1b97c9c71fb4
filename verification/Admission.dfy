/**
  The admission limiter: a fixed one-minute window, in-flight leases and a settled-usage quota for every API
  key.  The runtime forgets idle keys; the reference `Memory` never forgets one.
 */
module Admission {

  const SECOND: nat := 1_000_000_000
  const WINDOW: nat := 60_000_000_000

  type Key = nat

  datatype Limit = Unlimited | AtMost(n: nat)
  datatype Quota = NoQuota | QuotaLimit(amount: real)
  datatype Policy = Policy(key: Key, rpm: Limit, concurrent: Limit, quota: Quota, quotaUsed: real)

  datatype Start = Never | At(t: nat)
  datatype KeyState = KeyState(started: Start, requests: nat, inFlight: nat)

  datatype Answer = Admitted | RateLimited(retryAfter: nat) | ConcurrentLimited | InsufficientQuota

  const FRESH := KeyState(Never, 0, 0)

  predicate Expired(start: Start, now: nat) {
    start.Never? || now - start.t >= WINDOW
  }

  function Max(a: real, b: real): real {
    if a < b then b else a
  }

  /** The time left until `resetAt` in whole seconds, rounded up; durations are nanoseconds. */
  function RetryAfter(now: nat, resetAt: nat): nat {
    var remaining := if resetAt < now then 0 else resetAt - now;
    remaining / SECOND + if remaining % SECOND != 0 then 1 else 0
  }

  // ---------------------------------------------------------------------- The reference that never forgets

  datatype Memory = Memory(keys: map<Key, KeyState>, settled: map<Key, real>)

  const EMPTY := Memory(map[], map[])

  function Look(m: Memory, k: Key): KeyState {
    if k in m.keys then m.keys[k] else FRESH
  }

  predicate Exhausted(m: Memory, p: Policy) {
    p.quota.QuotaLimit? &&
    (if p.key in m.settled then Max(m.settled[p.key], p.quotaUsed) else p.quotaUsed) >= p.quota.amount
  }

  function Opened(s: KeyState, now: nat): KeyState {
    if Expired(s.started, now) then s.(started := At(now), requests := 0) else s
  }

  predicate Reached(limit: Limit, n: nat) {
    limit.AtMost? && n >= limit.n
  }

  function Decide(s: KeyState, p: Policy, now: nat): (Answer, KeyState)
    requires s.started.At?
  {
    if Reached(p.rpm, s.requests) then (RateLimited(RetryAfter(now, s.started.t + WINDOW)), s)
    else if Reached(p.concurrent, s.inFlight) then (ConcurrentLimited, s.(requests := s.requests + 1))
    else (Admitted, s.(requests := s.requests + 1, inFlight := s.inFlight + 1))
  }

  function Admitting(m: Memory, p: Policy, now: nat): (Answer, Memory) {
    if Exhausted(m, p) then (InsufficientQuota, m)
    else
      var (answer, s) := Decide(Opened(Look(m, p.key), now), p, now);
      (answer, m.(keys := m.keys[p.key := s]))
  }

  function Releasing(m: Memory, k: Key): Memory {
    var s := Look(m, k);
    m.(keys := m.keys[k := s.(inFlight := if s.inFlight == 0 then 0 else s.inFlight - 1)])
  }

  function Settling(m: Memory, k: Key, used: real): Memory {
    m.(settled := m.settled[k := if k in m.settled then Max(m.settled[k], used) else used])
  }

  // ------------------------------------------------------------------------------------------- The runtime

  /** Forgotten keys are idle: nothing in flight and no window that could still count. */
  ghost predicate Agrees(keys: map<Key, KeyState>, m: Memory, clock: nat) {
    && (forall k :: k in keys ==> keys[k] == Look(m, k))
    && (forall k :: k !in keys ==> Look(m, k).inFlight == 0 && Expired(Look(m, k).started, clock))
    && (forall k :: Look(m, k).started.At? ==> Look(m, k).started.t <= clock)
  }

  /** Worth remembering: something is in flight, or the window is not long over. */
  predicate Busy(s: KeyState, now: nat) {
    s.inFlight > 0 || (s.started.At? && now - s.started.t <= WINDOW)
  }

  function Pruned(keys: map<Key, KeyState>, now: nat): (kept: map<Key, KeyState>)
    ensures forall k :: k in kept ==> Busy(kept[k], now)
  {
    map k | k in keys && Busy(keys[k], now) :: keys[k]
  }

  lemma AgreesPruned(keys: map<Key, KeyState>, m: Memory, clock: nat, now: nat)
    requires Agrees(keys, m, clock) && clock <= now
    ensures Agrees(Pruned(keys, now), m, now)
  {
  }

  lemma AgreesPut(keys: map<Key, KeyState>, m: Memory, now: nat, k: Key, s: KeyState)
    requires Agrees(keys, m, now) && (s.started.At? ==> s.started.t <= now)
    ensures Agrees(keys[k := s], m.(keys := m.keys[k := s]), now)
  {
  }

  lemma AgreesRemove(keys: map<Key, KeyState>, m: Memory, now: nat, k: Key)
    requires Agrees(keys, m, now) && k in keys && keys[k].inFlight == 0 && Expired(keys[k].started, now)
    ensures Agrees(keys - {k}, m, now)
  {
  }

  /** A key that was forgotten is treated as the reference treats it. */
  lemma OpenedAlike(keys: map<Key, KeyState>, m: Memory, now: nat, k: Key)
    requires Agrees(keys, m, now)
    ensures Opened(if k in keys then keys[k] else FRESH, now) == Opened(Look(m, k), now)
    ensures Opened(Look(m, k), now).started.At? && Opened(Look(m, k), now).started.t <= now
  {
  }

  class AdmissionRuntime {
    var keys: map<Key, KeyState>
    var settled: map<Key, real>
    ghost var clock: nat
    ghost var memory: Memory

    ghost predicate Valid()
      reads this
    {
      settled == memory.settled && Agrees(keys, memory, clock)
    }

    constructor ()
      ensures Valid() && clock == 0 && memory == EMPTY
    {
      keys, settled := map[], map[];
      clock, memory := 0, EMPTY;
    }

    /** The answer of the limiter that never forgets. */
    method Admit(p: Policy, now: nat) returns (answer: Answer)
      requires Valid() && clock <= now
      modifies this
      ensures Valid() && clock == now
      ensures (answer, memory) == Admitting(old(memory), p, now)
      ensures forall k :: k in keys && k != p.key ==>
                keys[k].inFlight > 0 || (keys[k].started.At? && now <= keys[k].started.t + WINDOW)
    {
      hide Agrees, RetryAfter, Pruned;
      AgreesPruned(keys, memory, clock, now);
      keys := Pruned(keys, now);
      clock := now;
      var used := if p.key in settled then Max(settled[p.key], p.quotaUsed) else p.quotaUsed;
      if p.quota.QuotaLimit? && used >= p.quota.amount {
        return InsufficientQuota;
      }
      OpenedAlike(keys, memory, now, p.key);
      var state := if p.key in keys then keys[p.key] else FRESH;
      if Expired(state.started, now) {
        state := state.(started := At(now), requests := 0);
      }
      ghost var open := state;
      assert open == Opened(Look(memory, p.key), now);
      if p.rpm.AtMost? && state.requests >= p.rpm.n {
        answer := RateLimited(RetryAfter(now, state.started.t + WINDOW));
      } else {
        state := state.(requests := state.requests + 1);
        if p.concurrent.AtMost? && state.inFlight >= p.concurrent.n {
          answer := ConcurrentLimited;
        } else {
          state := state.(inFlight := state.inFlight + 1);
          answer := Admitted;
        }
      }
      assert (answer, state) == Decide(open, p, now);
      AgreesPut(keys, memory, now, p.key, state);
      keys := keys[p.key := state];
      memory := memory.(keys := memory.keys[p.key := state]);
    }

    /** A lease that is alive finds its key. */
    method Drop(k: Key, now: nat)
      requires Valid() && clock <= now && Look(memory, k).inFlight > 0
      modifies this
      ensures Valid() && clock == now && memory == Releasing(old(memory), k)
      ensures k !in keys <==>
                Look(memory, k).inFlight == 0 && Look(memory, k).started.At? && Look(memory, k).started.t + WINDOW < now
    {
      assert k in keys && keys[k] == Look(memory, k);
      assert Agrees(keys, memory, now);
      hide Agrees;
      var state := keys[k];
      state := state.(inFlight := state.inFlight - 1);
      AgreesPut(keys, memory, now, k, state);
      clock := now;
      memory := Releasing(memory, k);
      keys := keys[k := state];
      if state.inFlight == 0 && state.started.At? && now - state.started.t > WINDOW {
        AgreesRemove(keys, memory, now, k);
        keys := keys - {k};
      }
    }

    method RecordSettledQuotaUsage(k: Key, used: real)
      requires Valid()
      modifies this
      ensures Valid() && clock == old(clock) && memory == Settling(old(memory), k, used)
    {
      memory := Settling(memory, k, used);
      settled := settled[k := if k in settled then Max(settled[k], used) else used];
    }
  }

  // ------------------------------------------------------------------------------------------------ Traces

  datatype Event = Request(policy: Policy, now: nat) | Done(key: Key, now: nat) | Settled(key: Key, used: real)

  function Clock(trace: seq<Event>): nat {
    if trace == [] then 0
    else
      var e := trace[|trace| - 1];
      if e.Settled? then Clock(trace[..|trace| - 1]) else e.now
  }

  function Step(m: Memory, e: Event): Memory {
    match e
    case Request(p, now) => Admitting(m, p, now).1
    case Done(k, _) => Releasing(m, k)
    case Settled(k, used) => Settling(m, k, used)
  }

  function Run(trace: seq<Event>): Memory {
    if trace == [] then EMPTY else Step(Run(trace[..|trace| - 1]), trace[|trace| - 1])
  }

  predicate Grants(m: Memory, e: Event, k: Key) {
    e.Request? && e.policy.key == k && Admitting(m, e.policy, e.now).0.Admitted?
  }

  /** How many requests of `k` the trace admits at `lo` or later and before `hi`. */
  function Within(trace: seq<Event>, k: Key, lo: nat, hi: nat): nat {
    if trace == [] then 0
    else
      var before := trace[..|trace| - 1];
      var e := trace[|trace| - 1];
      Within(before, k, lo, hi) + if Grants(Run(before), e, k) && lo <= e.now < hi then 1 else 0
  }

  /** How many requests of `k` the trace admits at `lo` or later. */
  function Since(trace: seq<Event>, k: Key, lo: nat): nat {
    if trace == [] then 0
    else
      var before := trace[..|trace| - 1];
      var e := trace[|trace| - 1];
      Since(before, k, lo) + if Grants(Run(before), e, k) && lo <= e.now then 1 else 0
  }

  function Drops(trace: seq<Event>, k: Key): nat {
    if trace == [] then 0
    else
      var e := trace[|trace| - 1];
      Drops(trace[..|trace| - 1], k) + if e.Done? && e.key == k then 1 else 0
  }

  function Live(trace: seq<Event>, k: Key): int {
    Since(trace, k, 0) - Drops(trace, k)
  }

  /** The clock never goes back, and only a lease that is alive is dropped. */
  predicate WellFormed(trace: seq<Event>) {
    trace == [] ||
    var before := trace[..|trace| - 1];
    var e := trace[|trace| - 1];
    && WellFormed(before)
    && (!e.Settled? ==> Clock(before) <= e.now)
    && (e.Done? ==> Live(before, e.key) > 0)
  }

  lemma {:induction false} InFlightIsLive(trace: seq<Event>, k: Key)
    requires WellFormed(trace)
    ensures Look(Run(trace), k).inFlight == Live(trace, k)
  {
    if trace != [] {
      hide RetryAfter, Exhausted;
      var before := trace[..|trace| - 1];
      InFlightIsLive(before, k);
    }
  }

  function Answers(trace: seq<Event>): seq<Answer> {
    if trace == [] then []
    else
      var before := trace[..|trace| - 1];
      var e := trace[|trace| - 1];
      Answers(before) + if e.Request? then [Admitting(Run(before), e.policy, e.now).0] else []
  }

  /** The pruning runtime gives, over every trace, the answers of the limiter that never forgets. */
  method Replay(trace: seq<Event>) returns (answers: seq<Answer>)
    requires WellFormed(trace)
    ensures answers == Answers(trace)
  {
    hide Admitting, Releasing, Settling, Agrees, WellFormed, Live;
    var runtime := new AdmissionRuntime();
    answers := [];
    var i := 0;
    assert trace[..0] == [];
    while i < |trace|
      invariant 0 <= i <= |trace|
      invariant runtime.Valid() && runtime.clock == Clock(trace[..i]) && runtime.memory == Run(trace[..i])
      invariant answers == Answers(trace[..i])
    {
      assert trace[..i + 1][..i] == trace[..i];
      Prefix(trace, i);
      match trace[i] {
        case Request(p, now) =>
          var answer := runtime.Admit(p, now);
          answers := answers + [answer];
        case Done(k, now) =>
          InFlightIsLive(trace[..i], k);
          runtime.Drop(k, now);
        case Settled(k, used) =>
          runtime.RecordSettledQuotaUsage(k, used);
      }
      i := i + 1;
    }
    assert trace[..i] == trace;
  }

  lemma {:induction false} Prefix(trace: seq<Event>, i: nat)
    requires WellFormed(trace) && i < |trace|
    ensures WellFormed(trace[..i])
    ensures !trace[i].Settled? ==> Clock(trace[..i]) <= trace[i].now
    ensures trace[i].Done? ==> Live(trace[..i], trace[i].key) > 0
  {
    var n := |trace| - 1;
    if i < n {
      Prefix(trace[..n], i);
      assert trace[..n][..i] == trace[..i];
    }
  }

  // ---------------------------------------------------------------------------------------- The three gates

  /** Some settlement of the key in the trace reaches the amount. */
  ghost predicate SettledUpTo(trace: seq<Event>, k: Key, amount: real) {
    exists i :: 0 <= i < |trace| && trace[i].Settled? && trace[i].key == k && trace[i].used >= amount
  }

  lemma {:induction false} SettledIsGreatest(trace: seq<Event>, k: Key, amount: real)
    ensures SettledUpTo(trace, k, amount) <==> k in Run(trace).settled && Run(trace).settled[k] >= amount
  {
    if trace != [] {
      hide RetryAfter;
      var n := |trace| - 1;
      SettledIsGreatest(trace[..n], k, amount);
      assert SettledUpTo(trace, k, amount) <==>
             SettledUpTo(trace[..n], k, amount) || (trace[n].Settled? && trace[n].key == k && trace[n].used >= amount) by {
        SettledSnoc(trace, k, amount);
      }
    }
  }

  lemma SettledSnoc(trace: seq<Event>, k: Key, amount: real)
    requires trace != []
    ensures var n := |trace| - 1;
            SettledUpTo(trace, k, amount) <==>
            SettledUpTo(trace[..n], k, amount) || (trace[n].Settled? && trace[n].key == k && trace[n].used >= amount)
  {
    var n := |trace| - 1;
    if i :| 0 <= i < n && trace[..n][i].Settled? && trace[..n][i].key == k && trace[..n][i].used >= amount {
      assert trace[i].Settled?;
    }
    if i :| 0 <= i < |trace| && trace[i].Settled? && trace[i].key == k && trace[i].used >= amount {
      assert i < n ==> trace[..n][i] == trace[i];
    }
  }

  /** The request is over its quota: by what its key says of itself, or by what was ever settled for it. */
  ghost predicate OverQuota(trace: seq<Event>, p: Policy) {
    p.quota.QuotaLimit? && (p.quotaUsed >= p.quota.amount || SettledUpTo(trace, p.key, p.quota.amount))
  }

  /** A request is turned away for its quota exactly if it is over it, whatever else is the case. */
  lemma QuotaGate(trace: seq<Event>, p: Policy, now: nat)
    ensures Admitting(Run(trace), p, now).0 == InsufficientQuota <==> OverQuota(trace, p)
  {
    hide Run, RetryAfter;
    if p.quota.QuotaLimit? {
      SettledIsGreatest(trace, p.key, p.quota.amount);
    }
  }

  /** How many requests of `k` the trace let past quota and rate at `lo` or later, admitted or not. */
  function PassedSince(trace: seq<Event>, k: Key, lo: nat): nat {
    if trace == [] then 0
    else
      var before := trace[..|trace| - 1];
      var e := trace[|trace| - 1];
      PassedSince(before, k, lo) + if Passes(Run(before), e, k) && lo <= e.now then 1 else 0
  }

  predicate Passes(m: Memory, e: Event, k: Key) {
    e.Request? && e.policy.key == k &&
    (Admitting(m, e.policy, e.now).0.Admitted? || Admitting(m, e.policy, e.now).0.ConcurrentLimited?)
  }

  /** The window of a key counts the requests that passed since it opened; none has passed later than it lasts. */
  ghost predicate Counts(trace: seq<Event>, k: Key, s: KeyState, clock: nat) {
    && PassedSince(trace, k, clock + 1) == 0
    && (s.started.Never? ==> s.requests == 0 && PassedSince(trace, k, 0) == 0)
    && (s.started.At? ==>
          && s.started.t <= clock
          && s.requests == PassedSince(trace, k, s.started.t)
          && PassedSince(trace, k, s.started.t + WINDOW) == 0)
  }

  lemma {:induction false} PassedAntitone(trace: seq<Event>, k: Key, lo: nat, hi: nat)
    requires lo <= hi
    ensures PassedSince(trace, k, hi) <= PassedSince(trace, k, lo)
  {
    if trace != [] {
      hide Passes;
      PassedAntitone(trace[..|trace| - 1], k, lo, hi);
    }
  }

  lemma CountsOpened(trace: seq<Event>, k: Key, s: KeyState, clock: nat, now: nat)
    requires Counts(trace, k, s, clock) && clock <= now
    ensures Counts(trace, k, Opened(s, now), now)
  {
    hide PassedSince;
    PassedAntitone(trace, k, clock + 1, now + 1);
    if Expired(s.started, now) {
      PassedAntitone(trace, k, if s.started.At? then s.started.t + WINDOW else 0, now);
      PassedAntitone(trace, k, now, now + WINDOW);
    }
  }

  lemma {:induction false} RunCounts(trace: seq<Event>, k: Key)
    requires WellFormed(trace)
    ensures Counts(trace, k, Look(Run(trace), k), Clock(trace))
  {
    if trace != [] {
      var before := trace[..|trace| - 1];
      var e := trace[|trace| - 1];
      RunCounts(before, k);
      if e.Request? && e.policy.key == k && !Exhausted(Run(before), e.policy) {
        CountsOpened(before, k, Look(Run(before), k), Clock(before), e.now);
        CountsRequest(trace, k);
      } else {
        CountsOther(trace, k);
      }
    }
  }

  lemma CountsRequest(trace: seq<Event>, k: Key)
    requires trace != [] && trace[|trace| - 1].Request? && trace[|trace| - 1].policy.key == k
    requires var before, e := trace[..|trace| - 1], trace[|trace| - 1];
             && !Exhausted(Run(before), e.policy)
             && Counts(before, k, Opened(Look(Run(before), k), e.now), e.now)
    ensures Counts(trace, k, Look(Run(trace), k), Clock(trace))
  {
    hide Exhausted, RetryAfter;
  }

  lemma CountsOther(trace: seq<Event>, k: Key)
    requires trace != []
    requires var before, e := trace[..|trace| - 1], trace[|trace| - 1];
             && (e.Request? && e.policy.key == k ==> Exhausted(Run(before), e.policy))
             && (!e.Settled? ==> Clock(before) <= e.now)
             && Counts(before, k, Look(Run(before), k), Clock(before))
    ensures Counts(trace, k, Look(Run(trace), k), Clock(trace))
  {
    hide PassedSince, Run, Exhausted;
    OtherStep(trace, k);
    OtherPassed(trace, k);
    PassedAntitone(trace[..|trace| - 1], k, Clock(trace[..|trace| - 1]) + 1, Clock(trace) + 1);
  }

  lemma OtherPassed(trace: seq<Event>, k: Key)
    requires trace != []
    requires var before, e := trace[..|trace| - 1], trace[|trace| - 1];
             e.Request? && e.policy.key == k ==> Exhausted(Run(before), e.policy)
    ensures forall lo :: PassedSince(trace, k, lo) == PassedSince(trace[..|trace| - 1], k, lo)
  {
    hide Exhausted, RetryAfter, Run;
  }

  /** The window a request falls into: the open one of its key, or one that starts with it. */
  function WindowStart(trace: seq<Event>, k: Key, now: nat): nat {
    var s := Look(Run(trace), k).started;
    if Expired(s, now) then now else s.t
  }

  /**
    Past the quota, a request is turned away for its rate exactly if as many as its limit have passed in its window, and
    past that, for concurrency exactly if as many as its limit are in flight; otherwise it is admitted.
   */
  lemma RateAndConcurrencyGates(trace: seq<Event>, p: Policy, now: nat)
    requires WellFormed(trace) && Clock(trace) <= now && !OverQuota(trace, p)
    ensures var answer := Admitting(Run(trace), p, now).0;
            var passed := PassedSince(trace, p.key, WindowStart(trace, p.key, now));
            && (answer.RateLimited? <==> p.rpm.AtMost? && passed >= p.rpm.n)
            && (answer.ConcurrentLimited? <==>
                  !(p.rpm.AtMost? && passed >= p.rpm.n) && p.concurrent.AtMost? && Live(trace, p.key) >= p.concurrent.n)
            && (answer.Admitted? <==>
                  !(p.rpm.AtMost? && passed >= p.rpm.n) && !(p.concurrent.AtMost? && Live(trace, p.key) >= p.concurrent.n))
  {
    hide Run, RetryAfter, PassedSince, Live, Exhausted;
    QuotaGate(trace, p, now);
    RunCounts(trace, p.key);
    CountsOpened(trace, p.key, Look(Run(trace), p.key), Clock(trace), now);
    InFlightIsLive(trace, p.key);
  }

  // ---------------------------------------------------------------------------------- Constant-limit bounds

  predicate Concurrent(trace: seq<Event>, k: Key, limit: nat) {
    forall e :: e in trace && e.Request? && e.policy.key == k ==> e.policy.concurrent == AtMost(limit)
  }

  predicate Rated(trace: seq<Event>, k: Key, limit: nat) {
    forall e :: e in trace && e.Request? && e.policy.key == k ==> e.policy.rpm == AtMost(limit)
  }

  lemma {:induction false} NeverOverConcurrency(trace: seq<Event>, k: Key, limit: nat)
    requires WellFormed(trace) && Concurrent(trace, k, limit)
    ensures Live(trace, k) <= limit
  {
    if trace != [] {
      hide RetryAfter, Exhausted, Live;
      var before := trace[..|trace| - 1];
      NeverOverConcurrency(before, k, limit);
      InFlightIsLive(before, k);
      InFlightIsLive(trace, k);
      assert trace[|trace| - 1] in trace;
    } else {
      InFlightIsLive(trace, k);
    }
  }

  function Pred(n: nat): nat {
    if n == 0 then 0 else n - 1
  }

  /** The first instant of which everything up to `t` lies within one window. */
  function Reach(t: nat): nat {
    if t < WINDOW then 0 else t - WINDOW + 1
  }

  /** What the counters of a key say about the admissions so far; the first request of a window uses up a slot. */
  ghost predicate RateInv(trace: seq<Event>, k: Key, limit: nat, s: KeyState, clock: nat) {
    && s.requests <= limit
    && Since(trace, k, clock + 1) == 0
    && (s.started.Never? ==> Since(trace, k, 0) == 0)
    && (s.started.At? ==>
          var start := s.started.t;
          && start <= clock
          && (limit > 0 && start < clock ==> s.requests > 0)
          && Since(trace, k, start) <= s.requests
          && Since(trace, k, start + 1) <= Pred(s.requests)
          && Since(trace, k, start + WINDOW) == 0
          && Since(trace, k, Reach(start)) <= Since(trace, k, start) + Pred(limit))
  }

  lemma {:induction false} SinceAntitone(trace: seq<Event>, k: Key, lo: nat, hi: nat)
    requires lo <= hi
    ensures Since(trace, k, hi) <= Since(trace, k, lo)
  {
    if trace != [] {
      SinceAntitone(trace[..|trace| - 1], k, lo, hi);
    }
  }

  lemma {:induction false} WithinIsDifference(trace: seq<Event>, k: Key, lo: nat, hi: nat)
    requires lo <= hi
    ensures Within(trace, k, lo, hi) == Since(trace, k, lo) - Since(trace, k, hi)
  {
    if trace != [] {
      WithinIsDifference(trace[..|trace| - 1], k, lo, hi);
    }
  }

  lemma RateInvOpened(trace: seq<Event>, k: Key, limit: nat, s: KeyState, clock: nat, now: nat)
    requires RateInv(trace, k, limit, s, clock) && clock <= now
    requires limit > 0 && s.started.At? ==> s.requests > 0
    ensures RateInv(trace, k, limit, Opened(s, now), now)
  {
    hide Since;
    SinceAntitone(trace, k, clock + 1, now + 1);
    if Expired(s.started, now) {
      if s.started.At? {
        SinceAntitone(trace, k, s.started.t + WINDOW, now);
        SinceAntitone(trace, k, s.started.t + 1, Reach(now));
      } else {
        SinceAntitone(trace, k, 0, now);
        SinceAntitone(trace, k, 0, Reach(now));
      }
      SinceAntitone(trace, k, now, now + 1);
      SinceAntitone(trace, k, now, now + WINDOW);
    }
  }

  /** One request of `k` against an opened window. */
  lemma RateInvDecided(trace: seq<Event>, k: Key, limit: nat, s: KeyState)
    requires trace != [] && trace[|trace| - 1].Request?
    requires var e := trace[|trace| - 1];
             && e.policy.key == k && e.policy.rpm == AtMost(limit)
             && RateInv(trace[..|trace| - 1], k, limit, s, e.now)
             && s.started.At? && e.now < s.started.t + WINDOW
             && (Grants(Run(trace[..|trace| - 1]), e, k) <==> Decide(s, e.policy, e.now).0.Admitted?)
    ensures var e := trace[|trace| - 1];
            var s' := Decide(s, e.policy, e.now).1;
            RateInv(trace, k, limit, s', e.now) && (limit > 0 ==> s'.requests > 0)
  {
    hide Grants, Run, RetryAfter;
  }

  lemma {:induction false} RateInvRun(trace: seq<Event>, k: Key, limit: nat)
    requires WellFormed(trace) && Rated(trace, k, limit)
    ensures var s := Look(Run(trace), k);
            && RateInv(trace, k, limit, s, Clock(trace))
            && (limit > 0 && s.started.At? ==> s.requests > 0)
  {
    if trace != [] {
      var before := trace[..|trace| - 1];
      var e := trace[|trace| - 1];
      assert e in trace;
      RateInvRun(before, k, limit);
      if e.Request? && e.policy.key == k && !Exhausted(Run(before), e.policy) {
        RateInvRequest(trace, k, limit);
      } else {
        RateInvOther(trace, k, limit);
      }
    }
  }

  lemma RateInvRequest(trace: seq<Event>, k: Key, limit: nat)
    requires trace != [] && trace[|trace| - 1].Request? && trace[|trace| - 1].policy.key == k
    requires var before, e := trace[..|trace| - 1], trace[|trace| - 1];
             && e.policy.rpm == AtMost(limit) && !Exhausted(Run(before), e.policy) && Clock(before) <= e.now
             && RateInv(before, k, limit, Look(Run(before), k), Clock(before))
             && (limit > 0 && Look(Run(before), k).started.At? ==> Look(Run(before), k).requests > 0)
    ensures var s := Look(Run(trace), k);
            && RateInv(trace, k, limit, s, Clock(trace))
            && (limit > 0 && s.started.At? ==> s.requests > 0)
  {
    hide RateInv, Exhausted, RetryAfter;
    var before, e := trace[..|trace| - 1], trace[|trace| - 1];
    var s := Look(Run(before), k);
    RateInvOpened(before, k, limit, s, Clock(before), e.now);
    RateInvDecided(trace, k, limit, Opened(s, e.now));
  }

  lemma RateInvOther(trace: seq<Event>, k: Key, limit: nat)
    requires trace != []
    requires var before, e := trace[..|trace| - 1], trace[|trace| - 1];
             && (e.Request? && e.policy.key == k ==> Exhausted(Run(before), e.policy))
             && (!e.Settled? ==> Clock(before) <= e.now)
             && RateInv(before, k, limit, Look(Run(before), k), Clock(before))
             && (limit > 0 && Look(Run(before), k).started.At? ==> Look(Run(before), k).requests > 0)
    ensures var s := Look(Run(trace), k);
            && RateInv(trace, k, limit, s, Clock(trace))
            && (limit > 0 && s.started.At? ==> s.requests > 0)
  {
    hide Since, Run, Exhausted;
    var before := trace[..|trace| - 1];
    OtherStep(trace, k);
    SinceAntitone(before, k, Clock(before) + 1, Clock(trace) + 1);
  }

  lemma OtherStep(trace: seq<Event>, k: Key)
    requires trace != []
    requires var before, e := trace[..|trace| - 1], trace[|trace| - 1];
             e.Request? && e.policy.key == k ==> Exhausted(Run(before), e.policy)
    ensures var before := trace[..|trace| - 1];
            && (forall lo :: Since(trace, k, lo) == Since(before, k, lo))
            && Look(Run(trace), k).started == Look(Run(before), k).started
            && Look(Run(trace), k).requests == Look(Run(before), k).requests
  {
    hide Exhausted, RetryAfter;
  }

  /**
    However its requests arrive, a key with a constant limit of requests per minute has fewer than twice that many
    admitted in any 60 seconds.
   */
  lemma {:induction false} RateBound(trace: seq<Event>, k: Key, limit: nat, lo: nat)
    requires WellFormed(trace) && Rated(trace, k, limit)
    ensures Within(trace, k, lo, lo + WINDOW) <= limit + Pred(limit)
  {
    if trace != [] {
      var before := trace[..|trace| - 1];
      var e := trace[|trace| - 1];
      RateBound(before, k, limit, lo);
      if Grants(Run(before), e, k) && lo <= e.now < lo + WINDOW {
        RateInvRun(trace, k, limit);
        LastGrant(trace, k, limit, lo);
      }
    }
  }

  lemma LastGrant(trace: seq<Event>, k: Key, limit: nat, lo: nat)
    requires trace != [] && trace[|trace| - 1].Request? && trace[|trace| - 1].policy.key == k
    requires Grants(Run(trace[..|trace| - 1]), trace[|trace| - 1], k)
    requires lo <= trace[|trace| - 1].now < lo + WINDOW
    requires RateInv(trace, k, limit, Look(Run(trace), k), Clock(trace))
    ensures Within(trace, k, lo, lo + WINDOW) <= limit + Pred(limit)
  {
    hide Since, Within, Exhausted, RetryAfter;
    var s := Look(Run(trace), k);
    assert s.started.At?;
    WithinIsDifference(trace, k, lo, lo + WINDOW);
    if lo > s.started.t {
      SinceAntitone(trace, k, s.started.t + 1, lo);
    } else {
      SinceAntitone(trace, k, Reach(s.started.t), lo);
    }
  }

  /** A trace of requests of key 0 under `limit`, what it admits in the interval, and where it leaves the key. */
  ghost predicate Bursts(trace: seq<Event>, limit: nat, n: nat, s: KeyState, clock: nat, lo: nat, hi: nat) {
    && WellFormed(trace) && Rated(trace, 0, limit) && Clock(trace) == clock
    && Within(trace, 0, lo, hi) == n && Look(Run(trace), 0) == s && Run(trace).settled == map[]
  }

  lemma AfterNothing(limit: nat, lo: nat, hi: nat)
    ensures Bursts([], limit, 0, FRESH, 0, lo, hi)
  {
  }

  /** One more request that finds room. */
  lemma AddRequest(trace: seq<Event>, limit: nat, n: nat, s: KeyState, clock: nat, lo: nat, hi: nat, now: nat)
    returns (longer: seq<Event>)
    requires Bursts(trace, limit, n, s, clock, lo, hi) && clock <= now && Opened(s, now).requests < limit
    ensures var o := Opened(s, now);
            Bursts(longer, limit, n + if lo <= now < hi then 1 else 0,
                   o.(requests := o.requests + 1, inFlight := o.inFlight + 1), now, lo, hi)
  {
    hide RetryAfter;
    var p := Policy(0, AtMost(limit), Unlimited, NoQuota, 0.0);
    longer := trace + [Request(p, now)];
    assert longer[..|trace|] == trace;
  }

  /** So many requests at one instant of a window that is open and has room for them. */
  lemma {:induction false} AddBurst(trace: seq<Event>, limit: nat, n: nat, s: KeyState, lo: nat, hi: nat, now: nat, k: nat)
    returns (longer: seq<Event>)
    requires Bursts(trace, limit, n, s, Clock(trace), lo, hi) && Clock(trace) <= now
    requires !Expired(s.started, now) && s.requests + k <= limit && lo <= now < hi
    ensures Bursts(longer, limit, n + k, s.(requests := s.requests + k, inFlight := s.inFlight + k),
                   if k == 0 then Clock(trace) else now, lo, hi)
    decreases k
  {
    hide Bursts;
    if k == 0 {
      longer := trace;
    } else {
      var next := AddRequest(trace, limit, n, s, Clock(trace), lo, hi, now);
      var s' := s.(requests := s.requests + 1, inFlight := s.inFlight + 1);
      assert Clock(next) == now by { BurstClock(next, limit, n + 1, s', now, lo, hi); }
      longer := AddBurst(next, limit, n + 1, s', lo, hi, now, k - 1);
    }
  }

  lemma BurstClock(trace: seq<Event>, limit: nat, n: nat, s: KeyState, clock: nat, lo: nat, hi: nat)
    requires Bursts(trace, limit, n, s, clock, lo, hi)
    ensures Clock(trace) == clock && WellFormed(trace) && Rated(trace, 0, limit) && Within(trace, 0, lo, hi) == n
  {
  }

  /**
    Every positive limit can be met with twice as many admissions less one within 60 seconds: after one request at
    0 s, all the others of its window at 59 s, and all of the next window at 60 s.
   */
  lemma RateBoundTight(limit: nat)
    requires limit > 0
    ensures exists trace ::
              && WellFormed(trace) && Rated(trace, 0, limit)
              && Within(trace, 0, 59 * SECOND, 119 * SECOND) == limit + Pred(limit)
  {
    hide Bursts, Within, WellFormed, Rated, Run, Clock;
    var lo, hi := 59 * SECOND, 119 * SECOND;
    AfterNothing(limit, lo, hi);
    var t1 := AddRequest([], limit, 0, FRESH, 0, lo, hi, 0);
    var s1 := KeyState(At(0), 1, 1);
    BurstClock(t1, limit, 0, s1, 0, lo, hi);
    var t2 := AddBurst(t1, limit, 0, s1, lo, hi, 59 * SECOND, limit - 1);
    var s2 := KeyState(At(0), limit, limit);
    var clock := if limit == 1 then 0 else 59 * SECOND;
    BurstClock(t2, limit, limit - 1, s2, clock, lo, hi);
    var t3 := AddRequest(t2, limit, limit - 1, s2, clock, lo, hi, 60 * SECOND);
    var s3 := KeyState(At(60 * SECOND), 1, limit + 1);
    BurstClock(t3, limit, limit, s3, 60 * SECOND, lo, hi);
    var t4 := AddBurst(t3, limit, limit, s3, lo, hi, 60 * SECOND, limit - 1);
    BurstClock(t4, limit, limit + (limit - 1), KeyState(At(60 * SECOND), limit, limit + 1 + (limit - 1)), 60 * SECOND, lo, hi);
  }

  /** Whether a request after `seconds` more seconds would still be turned away for its rate. */
  predicate StillLimited(s: KeyState, p: Policy, now: nat, seconds: nat) {
    var later := now + seconds * SECOND;
    Decide(Opened(s, later), p, later).0.RateLimited?
  }

  /**
    The announced delay is the least whole number of seconds after which the rate gate passes, if the limit is
    positive; a limit of zero never lets anything pass.
   */
  lemma RetryAfterIsLeast(s: KeyState, p: Policy, now: nat, seconds: nat)
    requires s.started.At? ==> s.started.t <= now
    requires Decide(Opened(s, now), p, now).0.RateLimited?
    ensures StillLimited(s, p, now, seconds) <==>
            p.rpm.n == 0 || seconds < Decide(Opened(s, now), p, now).0.retryAfter
  {
  }
}
