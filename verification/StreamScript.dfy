/**
  What upstream sends, as one script, and what the request's log event has to say of it.  This is the reference that the
  stream driver is proved against: it looks at the whole script, knows nothing of polls, and decides on the first thing
  in it that ends the request.
 */
module StreamScript {
  import opened Completion
  import opened Options

  /** What the connector's adapter makes of one frame: nothing usable, or a non-empty list of frames. */
  datatype Adapted = Refused | Passed(more: nat, terminal: Option<Terminal>)

  /**
    A stretch of body bytes with what its observers would say: the usage collector after the bytes and, failing
    that, after finalizing; the adapter and its own collector over the raw frame.
   */
  datatype Piece = Piece(size: nat, observed: Option<Terminal>, finalized: Option<Terminal>, adapted: Adapted)

  /** What can come out of waiting for upstream; `frames` and `broken` are what the framer makes of a chunk. */
  datatype Arrival =
    | Chunk(bytes: Piece, frames: seq<Piece>, broken: bool)
    | BodyError
    | IdleTimeout
    | End(residual: Option<Piece>, finalized: Option<Terminal>)

  /** Some observer of the raw frame recognises a terminal event. */
  predicate ShowsTerminal(p: Piece) {
    p.observed.Some? || p.finalized.Some? || (p.adapted.Passed? && p.adapted.terminal.Some?)
  }

  /** A frame that came from upstream. */
  predicate Received(p: Piece, arrivals: seq<Arrival>) {
    exists a :: a in arrivals && ((a.Chunk? && p in a.frames) || (a.End? && a.residual == Some(p)))
  }

  /** What a stream comes across, in order: bytes to pass on, frames to adapt, and the ways it can end. */
  datatype Sight =
    | Bytes(piece: Piece)
    | Frame(piece: Piece)
    | Broken
    | BodyFailed
    | TimedOut
    | Ended(finalized: Option<Terminal>)
    | Drained

  function Pieces(frames: seq<Piece>, adapts: bool): seq<Sight> {
    if frames == [] then []
    else [if adapts then Frame(frames[0]) else Bytes(frames[0])] + Pieces(frames[1..], adapts)
  }

  /** With a framer the frames count instead of the chunks; behind an adapter the rest of the body is a frame too. */
  function Sights(arrivals: seq<Arrival>, framing: bool, adapts: bool): seq<Sight> {
    if arrivals == [] then []
    else
      match arrivals[0]
      case Chunk(bytes, frames, broken) =>
        if !framing then [Bytes(bytes)] + Sights(arrivals[1..], framing, adapts)
        else Pieces(frames, adapts) + if broken then [Broken] else Sights(arrivals[1..], framing, adapts)
      case BodyError => [BodyFailed]
      case IdleTimeout => [TimedOut]
      case End(residual, finalized) =>
        if !framing || residual.None? then [Ended(finalized)]
        else if adapts then [Frame(residual.value), Drained]
        else [Bytes(residual.value), Ended(residual.value.finalized)]
  }

  // ---------------------------------------------------------------- what is logged

  /** A terminal event settles the outcome, unless the answer was an error to begin with. */
  function ByTerminal(terminal: Terminal, success: bool): Outcome {
    match (success, terminal)
    case (true, Completed) => Succeeded
    case (true, Failed) => UpstreamSseError
    case (false, _) => UpstreamHttpError
  }

  function ByEnd(finalized: Option<Terminal>, success: bool): Outcome {
    if finalized.Some? then ByTerminal(finalized.value, success)
    else if success then Succeeded
    else UpstreamHttpError
  }

  /** What the usage collector recognises in a frame. */
  function Shown(p: Piece): Option<Terminal> {
    if p.observed.Some? then p.observed else p.finalized
  }

  /** How far things are: bytes still announced, whether the adapter saw its end, and the outcome once there is one. */
  datatype Watch = Watch(remaining: Option<nat>, finished: bool, verdict: Option<Outcome>)

  function First(verdict: Option<Outcome>, next: Outcome): Option<Outcome> {
    if verdict.Some? then verdict else Some(next)
  }

  function Less(remaining: Option<nat>, size: nat): Option<nat> {
    if remaining.None? then None else Some(if remaining.value < size then 0 else remaining.value - size)
  }

  function See(w: Watch, sight: Sight, success: bool, adapts: bool): Watch {
    match sight
    case Bytes(p) =>
      var left := Less(w.remaining, p.size);
      var shown := p.size > 0 && p.observed.Some?;
      var verdict := if shown then First(w.verdict, ByTerminal(p.observed.value, success)) else w.verdict;
      w.(remaining := left, verdict := if left == Some(0) then First(verdict, ByEnd(p.finalized, success)) else verdict)
    case Frame(p) =>
      if w.finished || p.adapted.Refused? then w.(verdict := First(w.verdict, ResponseTransformFailed))
      else w.(finished := p.adapted.terminal.Some?,
              verdict := if Shown(p).Some? then First(w.verdict, ByTerminal(Shown(p).value, success)) else w.verdict)
    case Broken => w.(verdict := First(w.verdict, ResponseTransformFailed))
    case BodyFailed => w.(verdict := First(w.verdict, UpstreamBodyError))
    case TimedOut => w.(verdict := First(w.verdict, StreamIdleTimeout))
    case Ended(finalized) =>
      w.(verdict := First(w.verdict, if adapts && !w.finished then ResponseTransformFailed else ByEnd(finalized, success)))
    case Drained => if w.finished then w else w.(verdict := First(w.verdict, ResponseTransformFailed))
  }

  function After(sights: seq<Sight>, remaining: Option<nat>, success: bool, adapts: bool): Watch {
    if sights == [] then Watch(remaining, false, None)
    else See(After(sights[..|sights| - 1], remaining, success, adapts), sights[|sights| - 1], success, adapts)
  }

  /** What is logged of a stream that is dropped here. */
  function Logged(w: Watch): Outcome {
    if w.verdict.Some? then w.verdict.value else Cancelled
  }

  /** How many items the client gets. */
  function Yield(sight: Sight): nat {
    match sight
    case Bytes(_) => 1
    case Frame(p) => if p.adapted.Passed? then p.adapted.more + 1 else 0
    case _ => 0
  }

  function Yields(sights: seq<Sight>): nat {
    if sights == [] then 0 else Yields(sights[..|sights| - 1]) + Yield(sights[|sights| - 1])
  }

  /** One sight further. */
  lemma Next(sights: seq<Sight>, taken: nat, sight: Sight, rest: seq<Sight>, remaining: Option<nat>, success: bool, adapts: bool)
    requires taken <= |sights| && sights[taken..] == [sight] + rest
    ensures taken < |sights| && sights[taken] == sight && sights[taken + 1..] == rest
    ensures After(sights[..taken + 1], remaining, success, adapts) ==
            See(After(sights[..taken], remaining, success, adapts), sight, success, adapts)
    ensures Yields(sights[..taken + 1]) == Yields(sights[..taken]) + Yield(sight)
  {
    hide See, Yield;
    assert sights[taken + 1..] == sights[taken..][1..];
    assert sights[taken] == sights[taken..][0];
    assert sights[..taken + 1][..taken] == sights[..taken];
  }

  // ---------------------------------------------------------------- the first terminal event decides

  /** How many bytes the sights have passed on. */
  function BytesIn(sights: seq<Sight>): nat {
    if sights == [] then 0
    else BytesIn(sights[..|sights| - 1]) + if sights[|sights| - 1].Bytes? then sights[|sights| - 1].piece.size else 0
  }

  /** Nothing so far says that the request is over. */
  predicate Undecided(sight: Sight) {
    match sight
    case Bytes(p) => p.size == 0 || p.observed.None?
    case Frame(p) => p.adapted.Passed? && p.adapted.terminal.None? && Shown(p).None?
    case _ => false
  }

  predicate Quiet(sights: seq<Sight>, remaining: Option<nat>) {
    && (forall j :: 0 <= j < |sights| ==> Undecided(sights[j]))
    && (remaining.Some? ==> BytesIn(sights) < remaining.value)
  }

  lemma {:induction false} QuietGoesOn(sights: seq<Sight>, remaining: Option<nat>, success: bool, adapts: bool)
    requires Quiet(sights, remaining)
    ensures var w := After(sights, remaining, success, adapts);
            && w.verdict.None? && !w.finished
            && w.remaining == if remaining.None? then None else Some(remaining.value - BytesIn(sights))
  {
    if sights != [] {
      var n := |sights| - 1;
      assert Quiet(sights[..n], remaining);
      QuietGoesOn(sights[..n], remaining, success, adapts);
      assert Undecided(sights[n]);
    }
  }

  lemma {:induction false} VerdictStays(sights: seq<Sight>, k: nat, remaining: Option<nat>, success: bool, adapts: bool)
    requires k <= |sights| && After(sights[..k], remaining, success, adapts).verdict.Some?
    ensures After(sights, remaining, success, adapts).verdict == After(sights[..k], remaining, success, adapts).verdict
    decreases |sights| - k
  {
    if k < |sights| {
      var n := |sights| - 1;
      assert sights[..n][..k] == sights[..k];
      VerdictStays(sights[..n], k, remaining, success, adapts);
    } else {
      assert sights[..k] == sights;
    }
  }

  /** The terminal event in a sight, for the usage collector. */
  function TerminalOf(sight: Sight): Option<Terminal> {
    match sight
    case Bytes(p) => if p.size > 0 then p.observed else None
    case Frame(p) => if p.adapted.Passed? then Shown(p) else None
    case _ => None
  }

  /**
    The first terminal event decides, whatever comes after it: behind a successful answer a completion is a success and
    a failure an upstream error, and behind any other answer neither changes that it is an error.
   */
  lemma FirstTerminalDecides(sights: seq<Sight>, k: nat, remaining: Option<nat>, success: bool, adapts: bool)
    requires k < |sights| && Quiet(sights[..k], remaining) && TerminalOf(sights[k]).Some?
    ensures Logged(After(sights, remaining, success, adapts)) ==
            if !success then UpstreamHttpError
            else if TerminalOf(sights[k]).value == Completed then Succeeded else UpstreamSseError
  {
    QuietGoesOn(sights[..k], remaining, success, adapts);
    assert sights[..k + 1][..k] == sights[..k];
    VerdictStays(sights, k + 1, remaining, success, adapts);
  }

  /** Without any terminal event, a plain stream is as good as the answer when it ends or its announced length is there. */
  lemma EndDecides(sights: seq<Sight>, k: nat, remaining: Option<nat>, success: bool)
    requires k < |sights| && Quiet(sights[..k], remaining) && TerminalOf(sights[k]).None?
    requires || sights[k] == Ended(None)
             || (sights[k].Bytes? && sights[k].piece.finalized.None?
                 && remaining.Some? && BytesIn(sights[..k + 1]) >= remaining.value)
    ensures Logged(After(sights, remaining, success, false)) == if success then Succeeded else UpstreamHttpError
  {
    QuietGoesOn(sights[..k], remaining, success, false);
    assert sights[..k + 1][..k] == sights[..k];
    VerdictStays(sights, k + 1, remaining, success, false);
  }

  /** How a stream fails that nothing has decided yet; behind an adapter also by ending without its end. */
  function FailureOf(sight: Sight, adapts: bool): Option<Outcome> {
    match sight
    case Bytes(_) => None
    case Frame(p) => if p.adapted.Refused? then Some(ResponseTransformFailed) else None
    case Broken => Some(ResponseTransformFailed)
    case BodyFailed => Some(UpstreamBodyError)
    case TimedOut => Some(StreamIdleTimeout)
    case Ended(_) => if adapts then Some(ResponseTransformFailed) else None
    case Drained => Some(ResponseTransformFailed)
  }

  lemma FailureDecides(sights: seq<Sight>, k: nat, remaining: Option<nat>, success: bool, adapts: bool)
    requires k < |sights| && Quiet(sights[..k], remaining) && FailureOf(sights[k], adapts).Some?
    ensures Logged(After(sights, remaining, success, adapts)) == FailureOf(sights[k], adapts).value
  {
    QuietGoesOn(sights[..k], remaining, success, adapts);
    assert sights[..k + 1][..k] == sights[..k];
    VerdictStays(sights, k + 1, remaining, success, adapts);
  }

  // ---------------------------------------------------------------- success behind an adapter

  lemma {:induction false} SuccessIsShown(sights: seq<Sight>, remaining: Option<nat>, success: bool, adapts: bool)
    requires adapts && forall j :: 0 <= j < |sights| ==> !sights[j].Bytes?
    ensures var w := After(sights, remaining, success, adapts);
            w.verdict == Some(Succeeded) || w.finished ==>
              exists j :: 0 <= j < |sights| && sights[j].Frame? && ShowsTerminal(sights[j].piece)
  {
    if sights != [] {
      var n := |sights| - 1;
      SuccessIsShown(sights[..n], remaining, success, adapts);
      if j :| 0 <= j < n && sights[..n][j].Frame? && ShowsTerminal(sights[..n][j].piece) {
        assert sights[j].Frame? && ShowsTerminal(sights[j].piece);
      }
      var last := sights[n];
    }
  }

  lemma {:induction false} SuccessNeedsSuccess(sights: seq<Sight>, remaining: Option<nat>, success: bool, adapts: bool)
    ensures After(sights, remaining, success, adapts).verdict == Some(Succeeded) ==> success
  {
    if sights != [] {
      SuccessNeedsSuccess(sights[..|sights| - 1], remaining, success, adapts);
    }
  }

  lemma {:induction false} PiecesAre(frames: seq<Piece>, adapts: bool)
    ensures |Pieces(frames, adapts)| == |frames|
    ensures forall j :: 0 <= j < |frames| ==> Pieces(frames, adapts)[j] == if adapts then Frame(frames[j]) else Bytes(frames[j])
  {
    if frames != [] {
      PiecesAre(frames[1..], adapts);
    }
  }

  /** Behind an adapter there is nothing but frames from upstream and ways to end. */
  lemma {:induction false} SightsReceived(arrivals: seq<Arrival>, sight: Sight)
    requires sight in Sights(arrivals, true, true)
    ensures !sight.Bytes? && (sight.Frame? ==> Received(sight.piece, arrivals))
  {
    var a := arrivals[0];
    if a.Chunk? {
      PiecesAre(a.frames, true);
      if sight !in Pieces(a.frames, true) {
        if !a.broken {
          SightsReceived(arrivals[1..], sight);
        }
      }
    }
  }
}
