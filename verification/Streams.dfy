/** The response stream of a request, poll by poll, proved against the script of what upstream sends. */
module Streams {
  import opened Completion
  import opened Options
  import opened StreamScript

  /** `Pending` stands for a poll that never completes: the client has gone away. */
  datatype Item = Data | Failure | EndOfStream | Pending

  /** What a stream in this state will come across. */
  function Coming(frames: seq<Piece>, broken: bool, upstream: bool, arrivals: seq<Arrival>, framing: bool, adapting: bool,
                  tail: seq<Sight>): seq<Sight>
  {
    Pieces(frames, adapting)
    + (if broken then [Broken]
       else if upstream then Sights(arrivals, framing, adapting)
       else tail)
  }

  lemma ComingFrame(frames: seq<Piece>, broken: bool, upstream: bool, arrivals: seq<Arrival>, framing: bool, adapting: bool,
                    tail: seq<Sight>)
    requires frames != []
    ensures Coming(frames, broken, upstream, arrivals, framing, adapting, tail) ==
            [if adapting then Frame(frames[0]) else Bytes(frames[0])] +
            Coming(frames[1..], broken, upstream, arrivals, framing, adapting, tail)
  {
    hide Sights;
  }

  lemma ComingBroken(upstream: bool, arrivals: seq<Arrival>, framing: bool, adapting: bool, tail: seq<Sight>)
    ensures Coming([], true, upstream, arrivals, framing, adapting, tail) == [Broken] + []
  {
    hide Sights;
  }

  lemma ComingChunk(arrivals: seq<Arrival>, framing: bool, adapting: bool, tail: seq<Sight>)
    requires arrivals != [] && arrivals[0].Chunk?
    ensures Coming([], false, true, arrivals, framing, adapting, tail) ==
            if framing then Coming(arrivals[0].frames, arrivals[0].broken, true, arrivals[1..], framing, adapting, tail)
            else [Bytes(arrivals[0].bytes)] + Coming([], false, true, arrivals[1..], framing, adapting, tail)
  {
  }

  lemma ComingFailure(arrivals: seq<Arrival>, framing: bool, adapting: bool, tail: seq<Sight>)
    requires arrivals != [] && (arrivals[0].BodyError? || arrivals[0].IdleTimeout?)
    ensures Coming([], false, true, arrivals, framing, adapting, tail) ==
            [if arrivals[0].BodyError? then BodyFailed else TimedOut] + []
  {
  }

  lemma ComingEnd(arrivals: seq<Arrival>, framing: bool, adapting: bool, tail: seq<Sight>)
    requires arrivals != [] && arrivals[0].End?
    ensures var coming := Coming([], false, true, arrivals, framing, adapting, tail);
            var end := arrivals[0];
            if !framing || end.residual.None? then coming == [Ended(end.finalized)]
            else if adapting then coming == [Frame(end.residual.value)] + [Drained]
            else coming == [Bytes(end.residual.value)] + [Ended(end.residual.value.finalized)]
  {
  }

  lemma ComingNothing(arrivals: seq<Arrival>, framing: bool, adapting: bool, tail: seq<Sight>)
    ensures Coming([], false, false, arrivals, framing, adapting, tail) == tail
  {
  }

  /** The script of a stream and how it is read. */
  datatype Setting = Setting(sights: seq<Sight>, announced: Option<nat>, success: bool, adapts: bool)

  /** How far a stream is in its script: what is done, what is logged, what is ahead, and the frame being yielded. */
  datatype Progress = Progress(taken: nat, result: Option<Outcome>, failed: bool, ahead: seq<Sight>, current: Option<Piece>,
                               remaining: Option<nat>, delivered: nat, left: nat, finished: bool, terminal: Option<Terminal>)

  function Watched(s: Setting, taken: nat): Watch
    requires taken <= |s.sights|
  {
    After(s.sights[..taken], s.announced, s.success, s.adapts)
  }

  /** The request has logged what the script says, and the rest of the script is still to come. */
  ghost predicate Tracks(s: Setting, p: Progress) {
    && p.taken <= |s.sights|
    && p.result == Watched(s, p.taken).verdict
    && (!p.failed ==>
          && s.sights[p.taken..] == (if p.current.Some? then [Frame(p.current.value)] else []) + p.ahead
          && p.remaining == Watched(s, p.taken).remaining
          && match p.current
             case None =>
               && p.delivered == Yields(s.sights[..p.taken]) && p.left == 0
               && p.finished == Watched(s, p.taken).finished && p.terminal.None?
             case Some(piece) =>
               && piece.adapted.Passed? && 0 < p.left <= piece.adapted.more + 1
               && p.delivered + p.left == Yields(s.sights[..p.taken]) + piece.adapted.more + 1
               && !Watched(s, p.taken).finished && p.finished == piece.adapted.terminal.Some?
               && p.terminal == if p.result.None? then Shown(piece) else None)
  }

  /** The next sight is done with. */
  lemma Seen(s: Setting, p: Progress, sight: Sight, rest: seq<Sight>)
    requires Tracks(s, p) && !p.failed && p.current.None? && p.ahead == [sight] + rest
    ensures p.taken < |s.sights|
    ensures var w := See(Watched(s, p.taken), sight, s.success, s.adapts);
            && Watched(s, p.taken + 1) == w
            && Tracks(s, p.(taken := p.taken + 1, result := w.verdict, ahead := rest, remaining := w.remaining,
                            delivered := p.delivered + Yield(sight), finished := w.finished))
  {
    assert [] + p.ahead == p.ahead;
    Next(s.sights, p.taken, sight, rest, s.announced, s.success, s.adapts);
    hide After, See, Yields, Yield;
    assert [] + rest == rest;
  }

  /** The next sight ends the stream. */
  lemma SeenFailing(s: Setting, p: Progress, sight: Sight, rest: seq<Sight>, p': Progress)
    requires Tracks(s, p) && !p.failed && p.current.None? && p.ahead == [sight] + rest
    requires p'.failed && p'.taken == p.taken + 1
    requires p'.result == See(Watched(s, p.taken), sight, s.success, s.adapts).verdict
    ensures Tracks(s, p')
  {
    Seen(s, p, sight, rest);
    hide After, See;
  }

  /** The next frame passes the adapter; what it became is still to be yielded. */
  lemma SeenPassing(s: Setting, p: Progress, piece: Piece, rest: seq<Sight>)
    requires Tracks(s, p) && !p.failed && p.current.None? && p.ahead == [Frame(piece)] + rest
    requires !p.finished && piece.adapted.Passed?
    ensures Tracks(s, p.(current := Some(piece), ahead := rest, left := piece.adapted.more + 1,
                         finished := piece.adapted.terminal.Some?, terminal := if p.result.None? then Shown(piece) else None))
  {
    hide After, Yields;
    assert [] + p.ahead == p.ahead;
  }

  /** One adapted frame is yielded; with the last one, its sight is done with. */
  lemma Yielded(s: Setting, p: Progress)
    requires Tracks(s, p) && !p.failed && p.current.Some?
    ensures p.left > 1 ==> Tracks(s, p.(left := p.left - 1, delivered := p.delivered + 1))
    ensures p.left == 1 ==>
              Tracks(s, p.(taken := p.taken + 1, current := None, left := 0, delivered := p.delivered + 1, terminal := None,
                           result := if p.terminal.Some? then Some(ByTerminal(p.terminal.value, s.success)) else p.result))
  {
    if p.left == 1 {
      Next(s.sights, p.taken, Frame(p.current.value), p.ahead, s.announced, s.success, s.adapts);
      hide After, Yields;
      assert [] + p.ahead == p.ahead;
    }
  }

  class StreamState {
    const guard: CompletionGuard
    const upstreamSucceeded: bool
    var arrivals: seq<Arrival>
    var upstream: bool
    var remaining: Option<nat>
    var framing: bool
    var frames: seq<Piece>
    var broken: bool
    var adapting: bool
    var adapterFinished: bool
    var adaptedFrames: nat
    var adaptedTerminal: Option<Terminal>

    ghost const setting: Setting
    ghost const framed: bool
    ghost var taken: nat
    ghost var current: Option<Piece>
    ghost var tail: seq<Sight>
    ghost var failed: bool
    ghost var delivered: nat

    ghost function Ahead(): seq<Sight>
      reads this
    {
      Coming(frames, broken, upstream, arrivals, framing, adapting, tail)
    }

    ghost function View(): Progress
      reads this, guard
    {
      Progress(taken, guard.result, failed, Ahead(), current, remaining, delivered, adaptedFrames, adapterFinished,
               adaptedTerminal)
    }

    ghost predicate Shape()
      reads this, guard
    {
      && setting.success == upstreamSucceeded
      && (guard.result.None? <==> guard.context.Some?)
      && (adapting ==> framing)
      && (!framing ==> frames == [] && !broken)
      && (if failed then Dead() else adapting == setting.adapts && framing == framed && (current.Some? <==> adaptedFrames > 0))
      && (current.Some? && !failed ==> adapting)
      && (!upstream && !failed && adapting && tail == [] ==> adapterFinished && frames == [])
      && (!failed && !adapting ==> tail != [Drained])
    }

    ghost predicate Valid()
      reads this, guard, guard.sink, guard.pool
    {
      guard.Valid() && Shape() && Tracks(setting, View())
    }

    /** A stream in this state has nothing more to yield. */
    ghost predicate Dead()
      reads this
    {
      !upstream && frames == [] && !broken && !adapting && adaptedFrames == 0
    }

    constructor (guard: CompletionGuard, arrivals: seq<Arrival>, upstreamSucceeded: bool, remaining: Option<nat>,
                 framing: bool, adapting: bool)
      requires guard.Valid() && guard.context.Some?
      requires adapting ==> framing
      ensures Valid() && this.guard == guard
      ensures setting == Setting(Sights(arrivals, framing, adapting), remaining, upstreamSucceeded, adapting)
      ensures taken == 0 && delivered == 0 && !failed && current.None? && tail == []
    {
      this.guard, this.arrivals, this.upstreamSucceeded := guard, arrivals, upstreamSucceeded;
      this.remaining, this.framing, this.adapting := remaining, framing, adapting;
      upstream, frames, broken := true, [], false;
      adapterFinished, adaptedFrames, adaptedTerminal := false, 0, None;
      setting, framed := Setting(Sights(arrivals, framing, adapting), remaining, upstreamSucceeded, adapting), framing;
      taken, current, tail, failed, delivered := 0, None, [], false, 0;
      new;
      Started(setting, View(), arrivals, framing);
    }

    /** Shows a frame to the collectors and the adapter. */
    method AdaptStreamFrame(piece: Piece) returns (ok: bool)
      requires adaptedFrames == 0 && adaptedTerminal.None?
      modifies this`adaptedFrames, this`adaptedTerminal, this`adapterFinished
      ensures ok <==> !old(adapterFinished) && piece.adapted.Passed?
      ensures ok ==> adaptedFrames == piece.adapted.more + 1 && adapterFinished == piece.adapted.terminal.Some?
      ensures ok ==> adaptedTerminal == if guard.context.Some? then Shown(piece) else None
      ensures !ok ==> adaptedFrames == 0 && adaptedTerminal.None? && adapterFinished == old(adapterFinished)
    {
      var terminal := guard.Observe(piece.observed);
      if terminal.None? {
        terminal := guard.Observe(piece.finalized);
      }
      if adapterFinished || piece.adapted.Refused? {
        return false;
      }
      if piece.adapted.terminal.Some? {
        adapterFinished := true;
      }
      adaptedFrames := piece.adapted.more + 1;
      adaptedTerminal := terminal;
      ok := true;
    }

    method FailResponseAdapter()
      requires guard.Valid() && (guard.result.None? <==> guard.context.Some?)
      modifies this`upstream, this`framing, this`frames, this`broken, this`adapting, this`adaptedFrames,
               this`adaptedTerminal, guard`context, guard`result, guard.sink`events
      ensures Dead() && !framing && adaptedTerminal.None?
      ensures guard.Valid() && guard.context.None? && guard.result == First(old(guard.result), ResponseTransformFailed)
    {
      upstream, framing, frames, broken, adapting := false, false, [], false, false;
      adaptedFrames, adaptedTerminal := 0, None;
      guard.Finish(ResponseTransformFailed);
    }

    /** Plain bytes end the request on a terminal event or once the announced length has arrived. */
    method RecordStreamBytes(piece: Piece, ghost w: Watch)
      requires guard.Valid() && guard.result == w.verdict && remaining == w.remaining
      requires guard.result.None? <==> guard.context.Some?
      modifies this`remaining, guard`context, guard`result, guard.sink`events
      ensures guard.Valid() && (guard.result.None? <==> guard.context.Some?)
      ensures var w' := See(w, Bytes(piece), upstreamSucceeded, setting.adapts);
              guard.result == w'.verdict && remaining == w'.remaining && w'.finished == w.finished
    {
      hide CompletionGuard.Holds;
      if piece.size > 0 {
        var terminal := guard.Observe(piece.observed);
        if terminal.Some? {
          guard.Finish(SseTerminalRequestOutcome(terminal.value, upstreamSucceeded));
        }
      }
      if remaining.Some? {
        remaining := Some(if remaining.value < piece.size then 0 else remaining.value - piece.size);
        if remaining.value == 0 {
          FinishTransport(piece.finalized);
        }
      }
    }

    method FinishTransport(finalized: Option<Terminal>)
      requires guard.Valid() && (guard.result.None? <==> guard.context.Some?)
      modifies guard`context, guard`result, guard.sink`events
      ensures guard.Valid() && guard.context.None?
      ensures guard.result == First(old(guard.result), ByEnd(finalized, upstreamSucceeded))
    {
      hide CompletionGuard.Holds;
      var terminal := guard.Observe(finalized);
      guard.Finish(if terminal.Some? then SseTerminalRequestOutcome(terminal.value, upstreamSucceeded)
                   else CompletedTransportOutcome(upstreamSucceeded));
    }

    /** The framer breaks. */
    method TakeBroken()
      requires Valid() && !failed && current.None? && frames == [] && broken
      modifies this`upstream, this`framing, this`broken, this`adapting, this`taken, this`failed,
               guard`context, guard`result, guard.sink`events
      ensures Valid() && failed
    {
      hide CompletionGuard.Valid, Tracks, Watched, Coming;
      ghost var p := View();
      ComingBroken(upstream, arrivals, framing, adapting, tail);
      guard.Finish(ResponseTransformFailed);
      upstream, framing, broken, adapting := false, false, false, false;
      taken, failed := taken + 1, true;
      Ends(setting, p, Broken, [], View());
    }

    /** The framer yields a frame. */
    method TakePlainFrame()
      requires Valid() && !failed && !adapting && frames != []
      modifies this`frames, this`remaining, this`taken, this`delivered,
               guard`context, guard`result, guard.sink`events
      ensures Valid() && delivered == old(delivered) + 1
    {
      hide CompletionGuard.Valid, Tracks, Watched, Coming, See;
      ghost var p := View();
      var piece := frames[0];
      ComingFrame(frames, broken, upstream, arrivals, framing, adapting, tail);
      frames := frames[1..];
      TakeBytes(piece, p);
    }

    /** Bytes are passed on. */
    method TakeBytes(piece: Piece, ghost p: Progress)
      requires guard.Valid() && Shape() && !failed && !adapting && current.None?
      requires Tracks(setting, p) && View() == p.(ahead := Ahead()) && p.ahead == [Bytes(piece)] + Ahead()
      modifies this`remaining, this`taken, this`delivered, guard`context, guard`result, guard.sink`events
      ensures Valid() && delivered == old(delivered) + 1 && taken == old(taken) + 1
    {
      hide CompletionGuard.Valid, Coming, After, See, Yields, Dead;
      ghost var w := Watched(setting, p.taken);
      Seen(setting, p, Bytes(piece), Ahead());
      RecordStreamBytes(piece, w);
      taken, delivered := taken + 1, delivered + 1;
      YieldOne(piece);
      hide Tracks, Watched;
    }

    /** A frame is shown to the adapter. */
    method TakeAdapted(piece: Piece, ghost p: Progress) returns (ok: bool)
      requires guard.Valid() && Shape() && !failed && adapting && current.None? && adaptedFrames == 0
      requires Tracks(setting, p) && View() == p.(ahead := Ahead()) && p.ahead == [Frame(piece)] + Ahead()
      modifies this`upstream, this`framing, this`frames, this`broken, this`adapting, this`adaptedFrames, this`adaptedTerminal,
               this`adapterFinished, this`current, this`taken, this`failed,
               guard`context, guard`result, guard.sink`events
      ensures Valid()
      ensures if ok then !failed && frames == old(frames) && upstream == old(upstream) && adaptedFrames > 0 else failed
    {
      hide CompletionGuard.Valid, Watched, Coming, Yields, After;
      assert adaptedTerminal.None?;
      hide Tracks;
      ok := AdaptStreamFrame(piece);
      if ok {
        SeenPassing(setting, p, piece, Ahead());
        current := Some(piece);
      } else {
        ghost var rest := Ahead();
        FailResponseAdapter();
        taken, failed := taken + 1, true;
        Ends(setting, p, Frame(piece), rest, View());
      }
    }

    method TakeAdaptedFrame() returns (ok: bool)
      requires Valid() && !failed && adapting && current.None? && frames != []
      modifies this`upstream, this`framing, this`frames, this`broken, this`adapting, this`adaptedFrames, this`adaptedTerminal,
               this`adapterFinished, this`current, this`taken, this`failed,
               guard`context, guard`result, guard.sink`events
      ensures Valid()
      ensures if ok then !failed && |frames| < |old(frames)| else failed
    {
      hide CompletionGuard.Valid, Tracks, Coming;
      ghost var p := View();
      var piece := frames[0];
      ComingFrame(frames, broken, upstream, arrivals, framing, adapting, tail);
      frames := frames[1..];
      ok := TakeAdapted(piece, p);
    }

    /** Upstream failed; the framer stays, but it has nothing left. */
    method TakeFailure()
      requires Valid() && !failed && upstream && current.None? && frames == [] && !broken && arrivals != []
      requires arrivals[0].BodyError? || arrivals[0].IdleTimeout?
      modifies this`upstream, this`adapting, this`taken, this`failed,
               guard`context, guard`result, guard.sink`events
      ensures Valid() && failed
    {
      hide CompletionGuard.Valid, Tracks, Coming;
      ghost var p := View();
      ghost var sight := if arrivals[0].BodyError? then BodyFailed else TimedOut;
      ComingFailure(arrivals, framing, adapting, tail);
      guard.Finish(if arrivals[0].BodyError? then UpstreamBodyError else StreamIdleTimeout);
      upstream, adapting := false, false;
      taken, failed := taken + 1, true;
      Ends(setting, p, sight, [], View());
    }

    /** A chunk is passed on, or given to the framer. */
    method TakeChunk() returns (data: bool)
      requires Valid() && !failed && upstream && current.None? && frames == [] && !broken && arrivals != [] && arrivals[0].Chunk?
      modifies this`arrivals, this`frames, this`broken, this`remaining, this`taken, this`delivered,
               guard`context, guard`result, guard.sink`events
      ensures Valid() && |arrivals| < |old(arrivals)|
      ensures delivered == old(delivered) + if data then 1 else 0
    {
      hide CompletionGuard.Valid, Tracks, Coming;
      ghost var p := View();
      var chunk := arrivals[0];
      ComingChunk(arrivals, framing, adapting, tail);
      arrivals := arrivals[1..];
      data := !framing;
      if framing {
        frames, broken := chunk.frames, chunk.broken;
      } else {
        TakeBytes(chunk.bytes, p);
      }
    }

    /** The body is over; what was left in the framer is its last frame. */
    method TakeEnd() returns (item: Option<Item>)
      requires Valid() && !failed && upstream && current.None? && frames == [] && !broken && arrivals != [] && arrivals[0].End?
      modifies this, guard`context, guard`result, guard.sink`events
      ensures Valid() && |arrivals| < |old(arrivals)| && (failed <==> item == Some(Failure))
      ensures item == Some(EndOfStream) ==> taken == |setting.sights|
      ensures !failed ==> tail == [] || tail == [Drained]
      ensures item != Some(Pending) && delivered == old(delivered) + if item == Some(Data) then 1 else 0
    {
      hide CompletionGuard.Valid, Tracks, Coming;
      ghost var p := View();
      var end := arrivals[0];
      ComingEnd(arrivals, framing, adapting, tail);
      upstream, arrivals := false, arrivals[1..];
      if framing && end.residual.Some? {
        var piece := end.residual.value;
        if adapting {
          tail := [Drained];
          ComingNothing(arrivals, framing, adapting, tail);
          var ok := TakeAdapted(piece, p);
          return if ok then None else Some(Failure);
        }
        tail := [Ended(piece.finalized)];
        ComingNothing(arrivals, framing, adapting, tail);
        TakeBytes(piece, p);
        var ok := TakeEnding(piece.finalized);
        return Some(Data);
      }
      tail := [Ended(end.finalized)];
      ComingNothing(arrivals, framing, adapting, tail);
      var ok := TakeEnding(end.finalized);
      item := if ok then Some(EndOfStream) else Some(Failure);
    }

    /** The end itself; behind an adapter that has not seen it coming this is a failure. */
    method TakeEnding(finalized: Option<Terminal>) returns (ok: bool)
      requires Valid() && !failed && !upstream && current.None? && frames == [] && !broken && tail == [Ended(finalized)]
      modifies this`upstream, this`framing, this`frames, this`broken, this`adapting, this`adaptedFrames, this`adaptedTerminal,
               this`taken, this`failed, this`tail,
               guard`context, guard`result, guard.sink`events
      ensures Valid()
      ensures ok <==> !old(adapting) || old(adapterFinished)
      ensures if ok then !failed && taken == |setting.sights| && tail == [] else failed
    {
      hide CompletionGuard.Valid, Tracks, Coming;
      ghost var p := View();
      ComingNothing(arrivals, framing, adapting, tail);
      ok := !adapting || adapterFinished;
      if ok {
        FinishTransport(finalized);
        SeenEnded(setting, p, finalized);
        taken, tail := taken + 1, [];
        ComingNothing(arrivals, framing, adapting, tail);
      } else {
        FailResponseAdapter();
        taken, failed := taken + 1, true;
        Ends(setting, p, Ended(finalized), [], View());
      }
    }

    /** Nothing is left; behind an adapter that has not seen its end this is a failure. */
    method TakeNothing() returns (ok: bool)
      requires Valid() && !upstream && adaptedFrames == 0 && frames == [] && !broken
      requires !failed ==> tail == [] || tail == [Drained]
      modifies this`upstream, this`framing, this`frames, this`broken, this`adapting, this`adaptedFrames, this`adaptedTerminal,
               this`taken, this`failed, this`tail,
               guard`context, guard`result, guard.sink`events
      ensures Valid()
      ensures ok <==> !old(adapting) || old(adapterFinished)
      ensures failed || tail == []
      ensures if ok then failed == old(failed) && (!failed ==> taken == |setting.sights|) else failed
    {
      hide CompletionGuard.Valid, Tracks, Coming;
      ghost var p := View();
      ComingNothing(arrivals, framing, adapting, tail);
      ok := !adapting || adapterFinished;
      if !ok {
        FailResponseAdapter();
        taken, failed := taken + 1, true;
        Ends(setting, p, Drained, [], View());
      } else if !failed {
        SeenNothing(setting, p);
        taken, tail := taken + |tail|, [];
        ComingNothing(arrivals, framing, adapting, tail);
      }
    }

    /** An adapted frame is yielded; with the last one of a terminal event the request is finished. */
    method TakeYield()
      requires Valid() && adaptedFrames > 0
      modifies this`adaptedFrames, this`adaptedTerminal, this`taken, this`current, this`delivered,
               guard`context, guard`result, guard.sink`events
      ensures Valid() && !failed && delivered == old(delivered) + 1
    {
      hide CompletionGuard.Valid, Coming, Tracks, Watched, ByTerminal;
      ghost var p := View();
      Terminals(setting, p);
      SameOutcome();
      Yielded(setting, p);
      adaptedFrames := adaptedFrames - 1;
      delivered := delivered + 1;
      if adaptedFrames == 0 {
        if adaptedTerminal.Some? {
          guard.Finish(SseTerminalRequestOutcome(adaptedTerminal.value, upstreamSucceeded));
          adaptedTerminal := None;
        }
        taken, current := taken + 1, None;
      }
    }

    /** One item of the stream.  A failure ends it: the poll after a failure finds nothing. */
    method Poll() returns (item: Item)
      requires Valid() && (!failed ==> tail == [] || tail == [Drained])
      modifies this, guard`context, guard`result, guard.sink`events
      ensures Valid() && (!failed ==> tail == [] || tail == [Drained])
      ensures item == Failure ==> failed && !old(failed)
      ensures old(failed) ==> failed && item == EndOfStream
      ensures item == EndOfStream && !failed ==> taken == |setting.sights|
      ensures item != Failure ==> failed == old(failed)
      ensures delivered == old(delivered) + if item == Data then 1 else 0
    {
      hide CompletionGuard.Valid, Tracks, View;
      while true
        invariant Valid() && (!failed ==> tail == [] || tail == [Drained])
        invariant delivered == old(delivered) && failed == old(failed)
        decreases |arrivals|, |frames|
      {
        if adaptedFrames > 0 {
          TakeYield();
          return Data;
        }
        if framing && frames != [] {
          if !adapting {
            TakePlainFrame();
            return Data;
          }
          var ok := TakeAdaptedFrame();
          if !ok {
            return Failure;
          }
        } else if framing && broken {
          TakeBroken();
          return Failure;
        } else if !upstream {
          var ok := TakeNothing();
          return if ok then EndOfStream else Failure;
        } else if arrivals == [] {
          return Pending;
        } else if arrivals[0].Chunk? {
          var data := TakeChunk();
          if data {
            return Data;
          }
        } else if arrivals[0].End? {
          var taken := TakeEnd();
          if taken.Some? {
            return taken.value;
          }
        } else {
          TakeFailure();
          return Failure;
        }
      }
    }
  }

  lemma SeenEnded(s: Setting, p: Progress, finalized: Option<Terminal>)
    requires Tracks(s, p) && !p.failed && p.current.None? && p.ahead == [Ended(finalized)] && (s.adapts ==> p.finished)
    ensures p.taken + 1 == |s.sights|
    ensures Tracks(s, p.(taken := p.taken + 1, result := First(p.result, ByEnd(finalized, s.success)), ahead := []))
  {
    hide After, Yields;
    assert p.ahead == [Ended(finalized)] + [];
    Seen(s, p, Ended(finalized), []);
  }

  lemma SeenNothing(s: Setting, p: Progress)
    requires Tracks(s, p) && !p.failed && p.current.None? && (p.ahead == [] || (p.ahead == [Drained] && p.finished))
    ensures p.taken + |p.ahead| == |s.sights|
    ensures Tracks(s, p.(taken := p.taken + |p.ahead|, ahead := []))
  {
    hide After, Yields;
    if p.ahead != [] {
      assert p.ahead == [Drained] + [];
      Seen(s, p, Drained, []);
    }
  }

  lemma Terminals(s: Setting, p: Progress)
    requires Tracks(s, p) && !p.failed && p.current.Some?
    ensures p.terminal.Some? ==> p.result.None?
  {
    hide After, Yields;
  }

  /** The driver's mapping of terminal events is the one the script is read by. */
  lemma SameOutcome()
    ensures forall t: Terminal, success ::
              SseTerminalRequestOutcome(t, success) == ByTerminal(t, success)
  {
  }

  lemma YieldOne(piece: Piece)
    ensures Yield(Bytes(piece)) == 1
  {
  }

  lemma Started(s: Setting, p: Progress, arrivals: seq<Arrival>, framing: bool)
    requires s.sights == Sights(arrivals, framing, s.adapts)
    requires p == Progress(0, None, false, Coming([], false, true, arrivals, framing, s.adapts, []), None, s.announced, 0, 0,
                           false, None)
    ensures Tracks(s, p)
  {
    hide Sights;
    assert s.sights[..0] == [];
  }

  /** The sight that ends the stream, with what it means for the request. */
  lemma Ends(s: Setting, p: Progress, sight: Sight, rest: seq<Sight>, p': Progress)
    requires Tracks(s, p) && !p.failed && p.current.None? && p.ahead == [sight] + rest
    requires p'.failed && p'.taken == p.taken + 1
    requires match sight
             case Broken => p'.result == First(p.result, ResponseTransformFailed)
             case BodyFailed => p'.result == First(p.result, UpstreamBodyError)
             case TimedOut => p'.result == First(p.result, StreamIdleTimeout)
             case Frame(piece) => (p.finished || piece.adapted.Refused?) && p'.result == First(p.result, ResponseTransformFailed)
             case Ended(_) => s.adapts && !p.finished && p'.result == First(p.result, ResponseTransformFailed)
             case Drained => !p.finished && p'.result == First(p.result, ResponseTransformFailed)
             case Bytes(_) => false
    ensures Tracks(s, p')
  {
    hide After, Yields;
    SeenFailing(s, p, sight, rest, p');
  }

  /** What is logged is what the script says up to where the stream was dropped. */
  ghost predicate Logs(s: Setting, taken: nat, outcome: Outcome) {
    taken <= |s.sights| && outcome == Logged(Watched(s, taken))
  }

  /**
    Polls until the stream ends, the client has had enough or goes away; then the stream is dropped.  The request has
    then logged exactly one event, and its outcome is what the script says up to `taken`, the sights done with.
   */
  method Drive(stream: StreamState, patience: nat) returns (items: seq<Item>, outcome: Outcome, ended: bool, ghost taken: nat)
    requires stream.Valid() && stream.guard.context.Some?
    requires stream.taken == stream.delivered == 0 && !stream.failed && stream.current.None? && stream.tail == []
    modifies stream, stream.guard`context, stream.guard`lease, stream.guard`result, stream.guard.sink`events,
             stream.guard.pool
    ensures stream.guard.sink.events == old(stream.guard.sink.events) + [Event(stream.guard.id, outcome)]
    ensures stream.guard.pool.live == stream.guard.others
    ensures Logs(stream.setting, taken, outcome)
    // A failure can only be the last item; without one, the items are those of the sights done with, and part of the next.
    ensures forall i :: 0 <= i < |items| ==> items[i] == Data || (items[i] == Failure && i == |items| - 1)
    ensures Failure !in items ==>
              && Yields(stream.setting.sights[..taken]) <= |items|
              && (|items| > Yields(stream.setting.sights[..taken]) ==>
                    taken < |stream.setting.sights| && |items| < Yields(stream.setting.sights[..taken + 1]))
    ensures ended && Failure !in items ==> taken == |stream.setting.sights|
  {
    hide CompletionGuard.Holds, Tracks, Watched, After, See, Yields;
    items, ended := [], false;
    var polling := true;
    var polls := 0;
    while polling && polls < patience
      invariant stream.Valid() && (!stream.failed ==> stream.tail == [] || stream.tail == [Drained])
      invariant forall i :: 0 <= i < |items| ==> items[i] == Data || (items[i] == Failure && i == |items| - 1)
      invariant stream.failed <==> Failure in items
      invariant !stream.failed ==> stream.delivered == |items|
      invariant ended && !stream.failed ==> stream.taken == |stream.setting.sights|
      invariant ended ==> !polling
    {
      var item := stream.Poll();
      polls := polls + 1;
      polling := item != EndOfStream && item != Pending;
      ended := item == EndOfStream;
      if polling {
        items := items + [item];
      }
    }
    taken := stream.taken;
    Outcome(stream.setting, stream.View());
    if !stream.failed {
      Counted(stream.setting, stream.View());
    }
    stream.guard.Drop();
    outcome := stream.guard.sink.events[|stream.guard.sink.events| - 1].outcome;
  }

  lemma Outcome(s: Setting, p: Progress)
    requires Tracks(s, p)
    ensures p.taken <= |s.sights| && Logged(Watched(s, p.taken)) == if p.result.Some? then p.result.value else Cancelled
  {
    hide After, Yields;
  }

  lemma Counted(s: Setting, p: Progress)
    requires Tracks(s, p) && !p.failed
    ensures Yields(s.sights[..p.taken]) <= p.delivered
    ensures p.delivered > Yields(s.sights[..p.taken]) ==>
              p.taken < |s.sights| && p.delivered < Yields(s.sights[..p.taken + 1])
  {
    if p.current.Some? {
      Next(s.sights, p.taken, Frame(p.current.value), p.ahead, s.announced, s.success, s.adapts);
    }
  }

  // ---------------------------------------------------------------- what the script says

  /** The sight of a terminal event that nothing before it has pre-empted. */
  ghost predicate Decisive(s: Setting, k: nat) {
    k < |s.sights| && Quiet(s.sights[..k], s.announced) && TerminalOf(s.sights[k]).Some?
  }

  /** The first terminal event decides, once its sight is done with. */
  lemma TerminalIsLogged(s: Setting, taken: nat, outcome: Outcome, k: nat)
    requires Logs(s, taken, outcome) && Decisive(s, k) && k < taken
    ensures outcome == if !s.success then UpstreamHttpError
                       else if TerminalOf(s.sights[k]).value == Completed then Succeeded else UpstreamSseError
  {
    hide After, Quiet, TerminalOf;
    var done := s.sights[..taken];
    assert done[..k] == s.sights[..k] && done[k] == s.sights[k];
    FirstTerminalDecides(done, k, s.announced, s.success, s.adapts);
  }

  lemma {:induction false} YieldsMonotone(sights: seq<Sight>, j: nat, k: nat)
    requires j <= k <= |sights|
    ensures Yields(sights[..j]) <= Yields(sights[..k])
    decreases k - j
  {
    if j < k {
      YieldsMonotone(sights, j, k - 1);
      assert sights[..k][..k - 1] == sights[..k - 1];
    }
  }

  /** A sight whose items have all been yielded is done with. */
  lemma YieldedIsDone(s: Setting, taken: nat, items: nat, k: nat)
    requires taken <= |s.sights| && k < |s.sights| && Yield(s.sights[k]) > 0 && Yields(s.sights[..k + 1]) <= items
    requires items > Yields(s.sights[..taken]) ==> taken < |s.sights| && items < Yields(s.sights[..taken + 1])
    ensures k < taken
  {
    if taken <= k {
      assert s.sights[..k + 1][..k] == s.sights[..k];
      YieldsMonotone(s.sights, taken, k);
      YieldsMonotone(s.sights, taken + 1, k + 1);
    }
  }

  /** A plain stream without terminal events that is polled to its end is as good as the answer. */
  lemma EndIsLogged(s: Setting, outcome: Outcome)
    requires Logs(s, |s.sights|, outcome) && !s.adapts && s.sights != []
    requires Quiet(s.sights[..|s.sights| - 1], s.announced) && s.sights[|s.sights| - 1] == Ended(None)
    ensures outcome == if s.success then Succeeded else UpstreamHttpError
  {
    hide After, Quiet;
    assert s.sights[..|s.sights|] == s.sights;
    EndDecides(s.sights, |s.sights| - 1, s.announced, s.success);
  }

  /** A stream that fails before anything has decided it is logged with that failure. */
  lemma FailureIsLogged(s: Setting, taken: nat, outcome: Outcome, k: nat)
    requires Logs(s, taken, outcome) && k < taken
    requires Quiet(s.sights[..k], s.announced) && FailureOf(s.sights[k], s.adapts).Some?
    ensures outcome == FailureOf(s.sights[k], s.adapts).value
  {
    hide After, Quiet, FailureOf;
    var done := s.sights[..taken];
    assert done[..k] == s.sights[..k] && done[k] == s.sights[k];
    FailureDecides(done, k, s.announced, s.success, s.adapts);
  }

  /** A stream that is dropped before anything has decided it is logged as cancelled. */
  lemma DropIsLogged(s: Setting, taken: nat, outcome: Outcome)
    requires Logs(s, taken, outcome) && Quiet(s.sights[..taken], s.announced)
    ensures outcome == Cancelled
  {
    hide After, Quiet;
    QuietGoesOn(s.sights[..taken], s.announced, s.success, s.adapts);
  }

  /** Success takes a successful answer and, behind an adapter, a terminal event in a frame from upstream. */
  lemma SuccessIsEarned(s: Setting, arrivals: seq<Arrival>, taken: nat)
    requires Logs(s, taken, Succeeded)
    ensures s.success
    ensures s.adapts && s.sights == Sights(arrivals, true, true) ==>
              exists p :: ShowsTerminal(p) && Received(p, arrivals)
  {
    hide See, Sights, Received, ShowsTerminal;
    var done := s.sights[..taken];
    SuccessNeedsSuccess(done, s.announced, s.success, s.adapts);
    if s.adapts && s.sights == Sights(arrivals, true, true) {
      forall j | 0 <= j < |done|
        ensures !done[j].Bytes? && (done[j].Frame? ==> Received(done[j].piece, arrivals))
      {
        assert done[j] in s.sights;
        SightsReceived(arrivals, done[j]);
      }
      SuccessIsShown(done, s.announced, s.success, s.adapts);
    }
  }
}
