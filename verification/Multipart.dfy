/** The streaming multipart guard, against a grammar over the whole body (section 5.1.1 of RFC 2046). */
module Multipart {
  import opened Bytes
  import opened Matcher

  const MAX_PREAMBLE: nat := 8192
  const MAX_PADDING: nat := 1024
  const MAX_HEADER: nat := 16384

  const TAB: Byte := 9
  const LF: Byte := 10
  const CR: Byte := 13
  const SP: Byte := 32
  const DASH: Byte := 45

  const HEADER_END: Bytes := [CR, LF, CR, LF]

  function FirstBoundary(boundary: Bytes): (p: Bytes)
    ensures |p| == 2 + |boundary|
  {
    [DASH, DASH] + boundary
  }

  function FieldBoundary(boundary: Bytes): (p: Bytes)
    ensures |p| == 4 + |boundary|
  {
    [CR, LF, DASH, DASH] + boundary
  }

  predicate IsPadding(b: Byte) {
    b == SP || b == TAB
  }

  // ---------------------------------------------------------------- the grammar

  predicate At(p: Bytes, s: Bytes, i: nat) {
    i + |p| <= |s| && s[i..i + |p|] == p
  }

  /** `i` is where `p` occurs first in `s`. */
  ghost predicate FirstAt(p: Bytes, s: Bytes, i: nat) {
    At(p, s, i) && forall j :: 0 <= j < i ==> !At(p, s, j)
  }

  /** Behind a boundary: padding, a line end, headers through their first empty line, data through the next boundary. */
  ghost predicate Part(boundary: Bytes, t: Bytes, pad: nat, head: nat, data: nat) {
    && pad <= MAX_PADDING && pad + 2 <= |t|
    && (forall i :: 0 <= i < pad ==> IsPadding(t[i]))
    && t[pad] == CR && t[pad + 1] == LF
    && head + |HEADER_END| <= MAX_HEADER
    && FirstAt(HEADER_END, t[pad + 2..], head)
    && FirstAt(FieldBoundary(boundary), t[pad + 2..][head + |HEADER_END|..], data)
  }

  function PartEnd(boundary: Bytes, pad: nat, head: nat, data: nat): (n: nat)
    ensures n > 0
  {
    pad + 2 + head + |HEADER_END| + data + |FieldBoundary(boundary)|
  }

  /** What may follow a boundary: the closing dashes and any epilogue, or a part and the same again. */
  ghost predicate Delimited(boundary: Bytes, t: Bytes)
    decreases |t|
  {
    || (|t| >= 2 && t[0] == DASH && t[1] == DASH)
    || exists pad: nat, head: nat, data: nat ::
         && Part(boundary, t, pad, head, data)
         && PartEnd(boundary, pad, head, data) <= |t|
         && Delimited(boundary, t[PartEnd(boundary, pad, head, data)..])
  }

  ghost predicate Accepted(boundary: Bytes, s: Bytes) {
    exists i: nat ::
      && i <= MAX_PREAMBLE
      && FirstAt(FirstBoundary(boundary), s, i)
      && Delimited(boundary, s[i + |FirstBoundary(boundary)|..])
  }

  // ---------------------------------------------------------------- the guard over everything seen

  /** What the guard knows: where it is, and the bytes it has seen there. */
  datatype Guard =
    | Finding(seen: Bytes)
    | Start | Dash | Padding(bytes: nat) | LineEnd
    | Headers(seen: Bytes)
    | Data(seen: Bytes)
    | Done
    | Rejected

  ghost function LongestBelow(p: Bytes, s: Bytes, k: nat): (n: nat)
    requires k < |p|
    ensures n <= k && Suffix(p[..n], s) && forall j :: n < j <= k ==> !Suffix(p[..j], s)
  {
    if k == 0 || Suffix(p[..k], s) then k else LongestBelow(p, s, k - 1)
  }

  /** The length of the longest proper prefix of `p` that ends `s`. */
  ghost function LongestLen(p: Bytes, s: Bytes): (n: nat)
    requires p != []
    ensures Longest(p, s, n)
  {
    LongestBelow(p, s, |p| - 1)
  }

  ghost function Step(boundary: Bytes, g: Guard, b: Byte): Guard {
    match g
    case Finding(seen) =>
      var s := seen + [b];
      if Suffix(FirstBoundary(boundary), s) then Start
      else if |s| - LongestLen(FirstBoundary(boundary), s) > MAX_PREAMBLE then Rejected
      else Finding(s)
    case Start =>
      if b == DASH then Dash else if IsPadding(b) then Padding(1) else if b == CR then LineEnd else Rejected
    case Dash => if b == DASH then Done else Rejected
    case Padding(n) =>
      if IsPadding(b) then (if n + 1 > MAX_PADDING then Rejected else Padding(n + 1))
      else if b == CR then LineEnd else Rejected
    case LineEnd => if b == LF then Headers([]) else Rejected
    case Headers(seen) =>
      if |seen| + 1 > MAX_HEADER then Rejected
      else if Suffix(HEADER_END, seen + [b]) then Data([]) else Headers(seen + [b])
    case Data(seen) =>
      if Suffix(FieldBoundary(boundary), seen + [b]) then Start else Data(seen + [b])
    case Done => Done
    case Rejected => Rejected
  }

  ghost function Run(boundary: Bytes, g: Guard, s: Bytes): Guard
    decreases |s|
  {
    if s == [] then g else Run(boundary, Step(boundary, g, s[0]), s[1..])
  }

  lemma {:induction false} RunSplit(boundary: Bytes, g: Guard, a: Bytes, b: Bytes)
    ensures Run(boundary, g, a + b) == Run(boundary, Run(boundary, g, a), b)
    decreases |a|
  {
    hide Step;
    if a == [] {
      assert a + b == b;
    } else {
      RunSplit(boundary, Step(boundary, g, a[0]), a[1..], b);
      assert (a + b)[1..] == a[1..] + b;
    }
  }

  lemma RunSnoc(boundary: Bytes, g: Guard, s: Bytes, t: nat)
    requires t < |s|
    ensures Run(boundary, g, s[..t + 1]) == Step(boundary, Run(boundary, g, s[..t]), s[t])
  {
    hide Step;
    assert s[..t + 1] == s[..t] + [s[t]];
    RunSplit(boundary, g, s[..t], [s[t]]);
    assert [s[t]][1..] == [];
  }

  lemma {:induction false} RunFixed(boundary: Bytes, g: Guard, s: Bytes)
    requires g.Done? || g.Rejected?
    ensures Run(boundary, g, s) == g
    decreases |s|
  {
    if s != [] {
      RunFixed(boundary, g, s[1..]);
    }
  }

  // ---------------------------------------------------------------- searching

  lemma SuffixIsAt(p: Bytes, s: Bytes, t: nat)
    requires t <= |s|
    ensures Suffix(p, s[..t]) <==> t >= |p| && At(p, s, t - |p|)
  {
  }

  /** Before its first occurrence is complete a pattern ends no prefix; then it does. */
  lemma FirstIsSuffix(p: Bytes, s: Bytes, i: nat)
    requires FirstAt(p, s, i)
    ensures forall t :: 0 <= t < i + |p| ==> !Suffix(p, s[..t])
    ensures Suffix(p, s[..i + |p|])
  {
    forall t | 0 <= t < i + |p|
      ensures !Suffix(p, s[..t])
    {
      SuffixIsAt(p, s, t);
    }
    SuffixIsAt(p, s, i + |p|);
  }

  lemma {:induction false} FindFirst(p: Bytes, s: Bytes, n: nat) returns (found: bool, i: nat)
    requires p != []
    ensures found ==> FirstAt(p, s, i)
    ensures !found ==> forall j :: 0 <= j < n ==> !At(p, s, j)
    decreases n
  {
    if n == 0 {
      found, i := false, 0;
    } else {
      found, i := FindFirst(p, s, n - 1);
      if !found && At(p, s, n - 1) {
        found, i := true, n - 1;
      }
    }
  }

  lemma NoneIsSuffix(p: Bytes, s: Bytes)
    requires p != [] && forall j :: 0 <= j < |s| ==> !At(p, s, j)
    ensures forall t :: 0 <= t <= |s| ==> !Suffix(p, s[..t])
  {
    forall t | 0 <= t <= |s|
      ensures !Suffix(p, s[..t])
    {
      SuffixIsAt(p, s, t);
    }
  }

  // data

  lemma {:induction false} RunDataUntil(boundary: Bytes, s: Bytes, t: nat)
    requires t <= |s| && forall u :: 0 <= u <= t ==> !Suffix(FieldBoundary(boundary), s[..u])
    ensures Run(boundary, Data([]), s[..t]) == Data(s[..t])
    decreases t
  {
    if t > 0 {
      RunDataUntil(boundary, s, t - 1);
      RunSnoc(boundary, Data([]), s, t - 1);
      assert s[..t - 1] + [s[t - 1]] == s[..t];
    }
  }

  lemma RunData(boundary: Bytes, s: Bytes, i: nat)
    requires FirstAt(FieldBoundary(boundary), s, i)
    ensures Run(boundary, Data([]), s) == Run(boundary, Start, s[i + |FieldBoundary(boundary)|..])
  {
    var p := FieldBoundary(boundary);
    var t := i + |p|;
    hide Suffix, Run;
    FirstIsSuffix(p, s, i);
    RunDataUntil(boundary, s, t - 1);
    RunSnoc(boundary, Data([]), s, t - 1);
    assert s[..t - 1] + [s[t - 1]] == s[..t];
    RunSplit(boundary, Data([]), s[..t], s[t..]);
    assert s[..t] + s[t..] == s;
  }

  lemma RunDataNever(boundary: Bytes, s: Bytes)
    requires forall j :: 0 <= j < |s| ==> !At(FieldBoundary(boundary), s, j)
    ensures Run(boundary, Data([]), s) == Data(s)
  {
    NoneIsSuffix(FieldBoundary(boundary), s);
    RunDataUntil(boundary, s, |s|);
    assert s[..|s|] == s;
  }

  // headers

  lemma {:induction false} RunHeadersUntil(boundary: Bytes, s: Bytes, t: nat)
    requires t <= |s| && forall u :: 0 <= u <= t ==> !Suffix(HEADER_END, s[..u])
    ensures Run(boundary, Headers([]), s[..t]) == if t <= MAX_HEADER then Headers(s[..t]) else Rejected
    decreases t
  {
    if t > 0 {
      RunHeadersUntil(boundary, s, t - 1);
      RunSnoc(boundary, Headers([]), s, t - 1);
      assert s[..t - 1] + [s[t - 1]] == s[..t];
    }
  }

  lemma RunHeaders(boundary: Bytes, s: Bytes, i: nat)
    requires FirstAt(HEADER_END, s, i)
    ensures Run(boundary, Headers([]), s) ==
            if i + |HEADER_END| <= MAX_HEADER then Run(boundary, Data([]), s[i + |HEADER_END|..]) else Rejected
  {
    var t := i + |HEADER_END|;
    FirstIsSuffix(HEADER_END, s, i);
    RunHeadersUntil(boundary, s, t - 1);
    RunSnoc(boundary, Headers([]), s, t - 1);
    assert s[..t - 1] + [s[t - 1]] == s[..t];
    RunSplit(boundary, Headers([]), s[..t], s[t..]);
    assert s[..t] + s[t..] == s;
    if t > MAX_HEADER {
      RunFixed(boundary, Rejected, s[t..]);
    }
  }

  lemma RunHeadersNever(boundary: Bytes, s: Bytes)
    requires forall j :: 0 <= j < |s| ==> !At(HEADER_END, s, j)
    ensures Run(boundary, Headers([]), s) in {Headers(s), Rejected}
  {
    NoneIsSuffix(HEADER_END, s);
    RunHeadersUntil(boundary, s, |s|);
    assert s[..|s|] == s;
  }

  // the first boundary

  /** While the pattern is incomplete, the bytes before its longest prefix are those before the occurrence. */
  lemma PreambleBound(p: Bytes, s: Bytes, i: nat, t: nat)
    requires p != [] && At(p, s, i) && t < i + |p|
    ensures t - LongestLen(p, s[..t]) <= i
  {
    if t > i {
      var k := t - i;
      assert s[i..i + |p|][..k] == p[..k];
      assert s[..t][i..] == s[i..i + |p|][..k];
      assert Suffix(p[..k], s[..t]);
    }
  }

  lemma PreambleEnd(p: Bytes, s: Bytes, i: nat)
    requires p != [] && At(p, s, i)
    ensures i + |p| - 1 - LongestLen(p, s[..i + |p| - 1]) == i
  {
  }

  /** No prefix of `s` up to `t` has more than the allowed bytes before what may become the boundary. */
  ghost predicate InBounds(p: Bytes, s: Bytes, t: nat)
    requires p != [] && t <= |s|
  {
    forall u :: 0 < u <= t ==> u - LongestLen(p, s[..u]) <= MAX_PREAMBLE
  }

  lemma InBoundsStep(p: Bytes, s: Bytes, t: nat)
    requires p != [] && t <= |s|
    ensures InBounds(p, s, t) <==> t == 0 || (InBounds(p, s, t - 1) && t - LongestLen(p, s[..t]) <= MAX_PREAMBLE)
  {
    hide LongestLen;
  }

  lemma StepFinding(boundary: Bytes, s: Bytes, t: nat)
    requires 0 < t <= |s| && !Suffix(FirstBoundary(boundary), s[..t])
    ensures Step(boundary, Finding(s[..t - 1]), s[t - 1]) ==
            if t - LongestLen(FirstBoundary(boundary), s[..t]) > MAX_PREAMBLE then Rejected else Finding(s[..t])
  {
    hide LongestLen, FirstBoundary, Suffix;
    assert s[..t - 1] + [s[t - 1]] == s[..t];
  }

  lemma {:induction false} RunFindingUntil(boundary: Bytes, s: Bytes, t: nat)
    requires t <= |s| && forall u :: 0 <= u <= t ==> !Suffix(FirstBoundary(boundary), s[..u])
    ensures Run(boundary, Finding([]), s[..t]) == if InBounds(FirstBoundary(boundary), s, t) then Finding(s[..t]) else Rejected
    decreases t
  {
    hide LongestLen, Step, Suffix, InBounds;
    InBoundsStep(FirstBoundary(boundary), s, t);
    if t > 0 {
      hide Run;
      RunFindingUntil(boundary, s, t - 1);
      RunSnoc(boundary, Finding([]), s, t - 1);
      StepFinding(boundary, s, t);
      StepRejected(boundary, s[t - 1]);
    }
  }

  lemma StepRejected(boundary: Bytes, b: Byte)
    ensures Step(boundary, Rejected, b) == Rejected
  {
  }

  /** The byte that completes the first boundary. */
  lemma StepFound(boundary: Bytes, s: Bytes, t: nat)
    requires 0 < t <= |s| && Suffix(FirstBoundary(boundary), s[..t])
    ensures Step(boundary, Finding(s[..t - 1]), s[t - 1]) == Start
  {
    hide LongestLen, FirstBoundary, Suffix;
    assert s[..t - 1] + [s[t - 1]] == s[..t];
  }

  lemma InBoundsIff(p: Bytes, s: Bytes, i: nat)
    requires p != [] && |p| > 1 && At(p, s, i)
    ensures InBounds(p, s, i + |p| - 1) <==> i <= MAX_PREAMBLE
  {
    hide LongestLen;
    PreambleEnd(p, s, i);
    if i <= MAX_PREAMBLE {
      forall u | 0 < u <= i + |p| - 1
        ensures u - LongestLen(p, s[..u]) <= MAX_PREAMBLE
      {
        PreambleBound(p, s, i, u);
      }
    }
  }

  lemma RunFinding(boundary: Bytes, s: Bytes, i: nat)
    requires FirstAt(FirstBoundary(boundary), s, i)
    ensures Run(boundary, Finding([]), s) ==
            if i <= MAX_PREAMBLE then Run(boundary, Start, s[i + |FirstBoundary(boundary)|..]) else Rejected
  {
    var p := FirstBoundary(boundary);
    var t := i + |p|;
    hide LongestLen, Step, Suffix, Run, InBounds;
    FirstIsSuffix(p, s, i);
    RunFindingUntil(boundary, s, t - 1);
    InBoundsIff(p, s, i);
    RunSnoc(boundary, Finding([]), s, t - 1);
    RunSplit(boundary, Finding([]), s[..t], s[t..]);
    assert s[..t] + s[t..] == s;
    if i <= MAX_PREAMBLE {
      StepFound(boundary, s, t);
    } else {
      StepRejected(boundary, s[t - 1]);
      RunFixed(boundary, Rejected, s[t..]);
    }
  }

  lemma RunFindingNever(boundary: Bytes, s: Bytes)
    requires forall j :: 0 <= j < |s| ==> !At(FirstBoundary(boundary), s, j)
    ensures Run(boundary, Finding([]), s) in {Finding(s), Rejected}
  {
    NoneIsSuffix(FirstBoundary(boundary), s);
    RunFindingUntil(boundary, s, |s|);
    assert s[..|s|] == s;
  }

  // ---------------------------------------------------------------- behind a boundary

  /** The number of padding bytes at the start. */
  function Lead(t: Bytes): (n: nat)
    ensures n <= |t|
    ensures forall i :: 0 <= i < n ==> IsPadding(t[i])
    ensures n < |t| ==> !IsPadding(t[n])
  {
    if t == [] || !IsPadding(t[0]) then 0
    else
      assert forall i :: 0 < i < |t| ==> t[i] == t[1..][i - 1];
      1 + Lead(t[1..])
  }

  lemma {:induction false} RunPadding(boundary: Bytes, t: Bytes, n: nat)
    requires 0 < n <= Lead(t)
    ensures Run(boundary, Start, t[..n]) == if n <= MAX_PADDING then Padding(n) else Rejected
    decreases n
  {
    RunSnoc(boundary, Start, t, n - 1);
    if n > 1 {
      RunPadding(boundary, t, n - 1);
    } else {
      assert t[..0] == [];
    }
  }

  /** The padding, then the two bytes of the line end. */
  lemma RunLineEnd(boundary: Bytes, t: Bytes)
    requires Lead(t) + 2 <= |t| && t[0] != DASH
    ensures var pad := Lead(t);
            Run(boundary, Start, t[..pad + 2]) ==
              if pad <= MAX_PADDING && t[pad] == CR && t[pad + 1] == LF then Headers([]) else Rejected
  {
    hide Suffix, LongestLen, Run;
    var pad := Lead(t);
    RunLead(boundary, t);
    RunSnoc(boundary, Start, t, pad);
    RunSnoc(boundary, Start, t, pad + 1);
  }

  lemma RunLead(boundary: Bytes, t: Bytes)
    ensures var pad := Lead(t);
            Run(boundary, Start, t[..pad]) == if pad == 0 then Start else if pad <= MAX_PADDING then Padding(pad) else Rejected
  {
    if Lead(t) > 0 {
      RunPadding(boundary, t, Lead(t));
    } else {
      assert t[..0] == [];
    }
  }

  /** Reading what follows a boundary, up to the end of its line. */
  lemma RunLine(boundary: Bytes, t: Bytes)
    requires t == [] || t[0] != DASH
    ensures var pad := Lead(t);
            if pad <= MAX_PADDING && pad + 2 <= |t| && t[pad] == CR && t[pad + 1] == LF
            then Run(boundary, Start, t) == Run(boundary, Headers([]), t[pad + 2..])
            else !Run(boundary, Start, t).Done?
  {
    hide Suffix, LongestLen, Run;
    var pad := Lead(t);
    RunLead(boundary, t);
    if pad + 2 <= |t| {
      RunLineEnd(boundary, t);
      RunSplit(boundary, Start, t[..pad + 2], t[pad + 2..]);
      assert t[..pad + 2] + t[pad + 2..] == t;
      RunFixed(boundary, Rejected, t[pad + 2..]);
    } else if pad < |t| {
      RunSnoc(boundary, Start, t, pad);
      assert t[..pad + 1] == t;
    } else {
      assert t[..pad] == t;
    }
  }

  lemma RunDashes(boundary: Bytes, t: Bytes)
    requires t != [] && t[0] == DASH
    ensures Run(boundary, Start, t).Done? <==> |t| >= 2 && t[1] == DASH
  {
    if |t| >= 2 {
      assert t[1..][1..] == t[2..] && t[1..][0] == t[1];
      RunFixed(boundary, if t[1] == DASH then Done else Rejected, t[2..]);
    } else {
      assert t[1..] == [];
    }
  }

  /** A part can be taken apart in one way only. */
  lemma PartUnique(boundary: Bytes, t: Bytes, pad: nat, head: nat, data: nat, pad': nat, head': nat, data': nat)
    requires Part(boundary, t, pad, head, data) && Part(boundary, t, pad', head', data')
    ensures pad == pad' && head == head' && data == data'
  {
    hide At, FieldBoundary, HEADER_END;
  }

  lemma PartPadding(boundary: Bytes, t: Bytes, pad: nat, head: nat, data: nat)
    requires Part(boundary, t, pad, head, data)
    ensures pad == Lead(t) && t[0] != DASH
  {
    hide FirstAt;
  }

  /** Without padding that fits and a line end there is no part. */
  lemma NoPart(boundary: Bytes, t: Bytes)
    requires t == [] || t[0] != DASH
    requires forall pad: nat, head: nat, data: nat :: !Part(boundary, t, pad, head, data)
    ensures !Delimited(boundary, t)
  {
    hide Part;
  }

  lemma OnePart(boundary: Bytes, t: Bytes, pad: nat, head: nat, data: nat)
    requires Part(boundary, t, pad, head, data)
    ensures var n := PartEnd(boundary, pad, head, data);
            && n <= |t|
            && t[pad + 2..][head + |HEADER_END|..][data + |FieldBoundary(boundary)|..] == t[n..]
            && (Delimited(boundary, t) <==> Delimited(boundary, t[n..]))
  {
    PartPadding(boundary, t, pad, head, data);
    var n := PartEnd(boundary, pad, head, data);
    assert t[pad + 2..][head + |HEADER_END|..] == t[pad + 2 + head + |HEADER_END|..];
    hide Part;
    if Delimited(boundary, t) {
      var p: nat, h: nat, d: nat :| Part(boundary, t, p, h, d)
        && PartEnd(boundary, p, h, d) <= |t| && Delimited(boundary, t[PartEnd(boundary, p, h, d)..]);
      PartUnique(boundary, t, pad, head, data, p, h, d);
    }
  }

  lemma {:induction false} StartIff(boundary: Bytes, t: Bytes)
    ensures Run(boundary, Start, t).Done? <==> Delimited(boundary, t)
    decreases |t|, 1
  {
    hide Run, Part, Delimited;
    if t != [] && t[0] == DASH {
      RunDashes(boundary, t);
      DashesDelimited(boundary, t);
    } else {
      RunLine(boundary, t);
      var pad := Lead(t);
      if pad <= MAX_PADDING && pad + 2 <= |t| && t[pad] == CR && t[pad + 1] == LF {
        HeadersIff(boundary, t, pad);
      } else {
        LineRejected(boundary, t);
      }
    }
  }

  /** Behind the line end: headers, data and the next boundary. */
  lemma {:induction false} HeadersIff(boundary: Bytes, t: Bytes, pad: nat)
    requires pad == Lead(t) <= MAX_PADDING && pad + 2 <= |t| && t[pad] == CR && t[pad + 1] == LF
    ensures Run(boundary, Headers([]), t[pad + 2..]).Done? <==> Delimited(boundary, t)
    decreases |t|, 0
  {
    hide Run, Delimited, FieldBoundary;
    var r := t[pad + 2..];
    var found, head := FindFirst(HEADER_END, r, |r|);
    if !found {
      RunHeadersNever(boundary, r);
      HeadersRejected(boundary, t, pad);
    } else {
      RunHeaders(boundary, r, head);
      if head + |HEADER_END| > MAX_HEADER {
        HeadersTooLong(boundary, t, pad, head);
      } else {
        var d := r[head + |HEADER_END|..];
        var ends, data := FindFirst(FieldBoundary(boundary), d, |d|);
        if !ends {
          RunDataNever(boundary, d);
          DataUnending(boundary, t, pad, head);
        } else {
          RunData(boundary, d, data);
          OnePart(boundary, t, pad, head, data);
          StartIff(boundary, t[PartEnd(boundary, pad, head, data)..]);
        }
      }
    }
  }

  lemma HeadersRejected(boundary: Bytes, t: Bytes, pad: nat)
    requires pad == Lead(t) && pad + 2 <= |t| && t[pad] == CR
    requires var r := t[pad + 2..];
             forall j :: 0 <= j < |r| ==> !At(HEADER_END, r, j)
    ensures !Delimited(boundary, t)
  {
    forall pad: nat, head: nat, data: nat
      ensures !Part(boundary, t, pad, head, data)
    {
      if Part(boundary, t, pad, head, data) {
        PartPadding(boundary, t, pad, head, data);
      }
    }
    NoPart(boundary, t);
  }

  lemma HeadersTooLong(boundary: Bytes, t: Bytes, pad: nat, head: nat)
    requires pad == Lead(t) && pad + 2 <= |t| && t[pad] == CR
    requires FirstAt(HEADER_END, t[pad + 2..], head) && head + |HEADER_END| > MAX_HEADER
    ensures !Delimited(boundary, t)
  {
  }

  lemma DataUnending(boundary: Bytes, t: Bytes, pad: nat, head: nat)
    requires pad == Lead(t) && pad + 2 <= |t| && t[pad] == CR && FirstAt(HEADER_END, t[pad + 2..], head)
    requires var d := t[pad + 2..][head + |HEADER_END|..];
             forall j :: 0 <= j < |d| ==> !At(FieldBoundary(boundary), d, j)
    ensures !Delimited(boundary, t)
  {
    hide FieldBoundary;
  }

  lemma DashesDelimited(boundary: Bytes, t: Bytes)
    requires t != [] && t[0] == DASH
    ensures Delimited(boundary, t) <==> |t| >= 2 && t[1] == DASH
  {
    forall pad: nat, head: nat, data: nat
      ensures !Part(boundary, t, pad, head, data)
    {
      if Part(boundary, t, pad, head, data) {
        PartPadding(boundary, t, pad, head, data);
      }
    }
    hide Part;
  }

  lemma LineRejected(boundary: Bytes, t: Bytes)
    requires t == [] || t[0] != DASH
    requires var pad := Lead(t);
             !(pad <= MAX_PADDING && pad + 2 <= |t| && t[pad] == CR && t[pad + 1] == LF)
    ensures !Delimited(boundary, t)
  {
  }

  /** The guard accepts precisely the bodies of the grammar. */
  lemma GuardIff(boundary: Bytes, s: Bytes)
    ensures Run(boundary, Finding([]), s).Done? <==> Accepted(boundary, s)
  {
    hide Run, Delimited;
    var p := FirstBoundary(boundary);
    var found, i := FindFirst(p, s, |s|);
    if found {
      RunFinding(boundary, s, i);
      StartIff(boundary, s[i + |p|..]);
    } else {
      RunFindingNever(boundary, s);
    }
  }

  // ---------------------------------------------------------------- the validator

  datatype BoundarySuffix = SuffixStart | SuffixDash | SuffixPadding(bytes: nat) | SuffixCarriageReturn

  datatype StructureState =
    | FindingFirstBoundary(scanned: nat)
    | ReadingBoundarySuffix(suffix: BoundarySuffix)
    | ReadingHeaders(bytes: nat)
    | ReadingData
    | Finished

  class MultipartStructureValidator {
    ghost const boundary: Bytes
    var state: StructureState
    const firstBoundary: BytePatternMatcher
    const fieldBoundary: BytePatternMatcher
    const headerTerminator: BytePatternMatcher

    ghost const Repr: set<object>

    ghost predicate Valid()
      reads this, Repr
    {
      && this in Repr && firstBoundary in Repr && fieldBoundary in Repr && headerTerminator in Repr
      && firstBoundary != fieldBoundary && firstBoundary != headerTerminator && fieldBoundary != headerTerminator
      && firstBoundary.Valid() && firstBoundary.pattern == FirstBoundary(boundary)
      && fieldBoundary.Valid() && fieldBoundary.pattern == FieldBoundary(boundary)
      && headerTerminator.Valid() && headerTerminator.pattern == HEADER_END
      && (state.FindingFirstBoundary? ==> state.scanned == |firstBoundary.seen|)
      && (state.ReadingHeaders? ==> state.bytes == |headerTerminator.seen|)
    }

    /** What the validator has seen of the region it is in. */
    ghost function View(): Guard
      requires Valid()
      reads this, Repr
    {
      match state
      case FindingFirstBoundary(_) => Finding(firstBoundary.seen)
      case ReadingBoundarySuffix(SuffixStart) => Start
      case ReadingBoundarySuffix(SuffixDash) => Dash
      case ReadingBoundarySuffix(SuffixPadding(n)) => Padding(n)
      case ReadingBoundarySuffix(SuffixCarriageReturn) => LineEnd
      case ReadingHeaders(_) => Headers(headerTerminator.seen)
      case ReadingData => Data(fieldBoundary.seen)
      case Finished => Done
    }

    constructor (boundary: Bytes)
      ensures Valid() && fresh(Repr) && this.boundary == boundary && View() == Finding([])
    {
      this.boundary := boundary;
      state := FindingFirstBoundary(0);
      var first := new BytePatternMatcher([DASH, DASH] + boundary);
      var field := new BytePatternMatcher([CR, LF, DASH, DASH] + boundary);
      var header := new BytePatternMatcher([CR, LF, CR, LF]);
      firstBoundary, fieldBoundary, headerTerminator := first, field, header;
      Repr := {this, first, field, header};
    }

    /** One byte of what follows a boundary, up to the end of its line. */
    method PushSuffix(suffix: BoundarySuffix, b: Byte) returns (ok: bool)
      requires Valid() && state == ReadingBoundarySuffix(suffix)
      modifies Repr
      ensures ok <==> !Step(boundary, old(View()), b).Rejected?
      ensures ok ==> Valid() && View() == Step(boundary, old(View()), b)
    {
      hide FirstBoundary, FieldBoundary, Longest, Table, Suffix, LongestLen;
      ok := true;
      match suffix {
        case SuffixStart =>
          if b == DASH {
            state := ReadingBoundarySuffix(SuffixDash);
          } else if b == SP || b == TAB {
            state := ReadingBoundarySuffix(SuffixPadding(1));
          } else if b == CR {
            state := ReadingBoundarySuffix(SuffixCarriageReturn);
          } else {
            ok := false;
          }
        case SuffixDash =>
          if b == DASH { state := Finished; } else { ok := false; }
        case SuffixPadding(bytes) =>
          if b == SP || b == TAB {
            state := ReadingBoundarySuffix(SuffixPadding(bytes + 1));
            ok := bytes + 1 <= MAX_PADDING;
          } else if b == CR {
            state := ReadingBoundarySuffix(SuffixCarriageReturn);
          } else {
            ok := false;
          }
        case SuffixCarriageReturn =>
          if b == LF {
            headerTerminator.Reset();
            state := ReadingHeaders(0);
          } else {
            ok := false;
          }
      }
    }

    /** One byte before the first boundary. */
    method PushPreamble(scanned: nat, b: Byte) returns (ok: bool)
      requires Valid() && state == FindingFirstBoundary(scanned)
      modifies Repr
      ensures ok <==> !Step(boundary, old(View()), b).Rejected?
      ensures ok ==> Valid() && View() == Step(boundary, old(View()), b)
    {
      hide FirstBoundary, FieldBoundary, Table, Suffix, LongestLen;
      ok := true;
      state := FindingFirstBoundary(scanned + 1);
      var found := firstBoundary.Push(b);
      if found {
        state := ReadingBoundarySuffix(SuffixStart);
      } else {
        var k := firstBoundary.Matched();
        LongestUnique(firstBoundary.pattern, firstBoundary.seen, k, LongestLen(firstBoundary.pattern, firstBoundary.seen));
        ok := scanned + 1 - k <= MAX_PREAMBLE;
      }
    }

    /** One byte: refused exactly when the guard rejects it. */
    method PushByte(b: Byte) returns (ok: bool)
      requires Valid()
      modifies Repr
      ensures ok <==> !Step(boundary, old(View()), b).Rejected?
      ensures ok ==> Valid() && View() == Step(boundary, old(View()), b)
    {
      hide FirstBoundary, FieldBoundary, Longest, Table, Suffix, LongestLen;
      ok := true;
      match state {
        case FindingFirstBoundary(scanned) =>
          ok := PushPreamble(scanned, b);
        case ReadingBoundarySuffix(suffix) =>
          ok := PushSuffix(suffix, b);
        case ReadingHeaders(bytes) =>
          state := ReadingHeaders(bytes + 1);
          if bytes + 1 > MAX_HEADER {
            ok := false;
          } else {
            var found := headerTerminator.Push(b);
            if found {
              fieldBoundary.Reset();
              state := ReadingData;
            }
          }
        case ReadingData =>
          var found := fieldBoundary.Push(b);
          if found {
            state := ReadingBoundarySuffix(SuffixStart);
          }
        case Finished =>
      }
    }

    /** A chunk: the first byte that is refused ends it. */
    method Push(chunk: Bytes) returns (ok: bool)
      requires Valid()
      modifies Repr
      ensures ok <==> !Run(boundary, old(View()), chunk).Rejected?
      ensures ok ==> Valid() && View() == Run(boundary, old(View()), chunk)
    {
      hide Step;
      ghost var start := View();
      var i := 0;
      while i < |chunk|
        invariant 0 <= i <= |chunk|
        invariant Valid() && View() == Run(boundary, start, chunk[..i])
      {
        RunSnoc(boundary, start, chunk, i);
        ok := PushByte(chunk[i]);
        if !ok {
          RunSplit(boundary, start, chunk[..i + 1], chunk[i + 1..]);
          assert chunk[..i + 1] + chunk[i + 1..] == chunk;
          RunFixed(boundary, Rejected, chunk[i + 1..]);
          return;
        }
        i := i + 1;
      }
      assert chunk[..i] == chunk;
      ok := true;
    }

    method Finish() returns (ok: bool)
      requires Valid()
      ensures ok <==> View().Done?
    {
      ok := state.Finished?;
    }
  }

  /** Whatever the chunking, the guarded stream succeeds exactly on the bodies of the grammar. */
  method GuardStream(boundary: Bytes, chunks: seq<Bytes>) returns (ok: bool)
    ensures ok <==> Accepted(boundary, Concat(chunks))
  {
    hide Accepted, Run, Step;
    var validator := new MultipartStructureValidator(boundary);
    GuardIff(boundary, Concat(chunks));
    assert chunks[0..] == chunks;
    for i := 0 to |chunks|
      invariant fresh(validator.Repr) && validator.Valid() && validator.boundary == boundary
      invariant Run(boundary, validator.View(), Concat(chunks[i..])) == Run(boundary, Finding([]), Concat(chunks))
    {
      ghost var rest := Concat(chunks[i + 1..]);
      assert Concat(chunks[i..]) == chunks[i] + rest by {
        assert chunks[i..][1..] == chunks[i + 1..];
      }
      RunSplit(boundary, validator.View(), chunks[i], rest);
      ok := validator.Push(chunks[i]);
      if !ok {
        RunFixed(boundary, Rejected, rest);
        return;
      }
    }
    RunNothing(boundary, validator.View());
    assert Concat(chunks[|chunks|..]) == [];
    ok := validator.Finish();
  }

  lemma RunNothing(boundary: Bytes, g: Guard)
    ensures Run(boundary, g, []) == g
  {
  }
}
