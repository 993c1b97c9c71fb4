/** The two loops over `events.log`: recovery's scan, and the reader that feeds the database. */
module SpoolFile {
  import opened Bytes
  import opened Frames

  /** The log file as recovery and the reader see it. */
  class LogFile {
    var content: Bytes

    constructor (content: Bytes)
      ensures this.content == content
    {
      this.content := content;
    }
  }

  /** `offset` is 0 or the end of one of the frames of `rs`. */
  ghost predicate Boundary(sum: Checksum, rs: seq<Record>, offset: nat)
    requires ValidRecords(rs)
  {
    exists k :: 0 <= k <= |rs| && End(sum, rs, k) == offset
  }

  datatype ScanOutcome = Repaired(end: nat, boundary: bool) | Refused(error: SpoolError)

  /** The scan of a log whose first records were already seen. */
  ghost function Prepend(rs: seq<Record>, n: nat, s: Scan): Scan {
    match s
    case Scanned(more, end) => Scanned(rs + more, n + end)
    case Corrupt(e) => Corrupt(e)
  }

  /** One turn of either loop: the frame at `offset`, if the log holds it whole there. */
  lemma ScanStep(sum: Checksum, b: Bytes, offset: nat)
    requires offset + HEADER <= |b|
    ensures match ParseHeader(b[offset..offset + HEADER])
            case HeaderErr(e) => ScanLog(sum, b[offset..]) == Corrupt(e)
            case HeaderOk(h) =>
              var n := offset + HEADER + h.payloadLen;
              ScanLog(sum, b[offset..]) ==
                if n > |b| then Scanned([], 0)
                else if sum(b[offset + HEADER..n]) != h.checksum then Corrupt(ChecksumMismatch)
                else Prepend([Record(h.id, h.schema, b[offset + HEADER..n])], n - offset, ScanLog(sum, b[n..]))
  {
    hide ParseHeader;
    var t := b[offset..];
    assert t[..HEADER] == b[offset..offset + HEADER];
    var p := ParseHeader(t[..HEADER]);
    if p.HeaderOk? && offset + HEADER + p.header.payloadLen <= |b| {
      var n := HEADER + p.header.payloadLen;
      assert t[HEADER..n] == b[offset + HEADER..offset + n];
      assert t[n..] == b[offset + n..];
    }
  }

  lemma NothingScanned(sum: Checksum, t: Bytes, offset: nat)
    requires |t| < HEADER
    ensures ScanLog(sum, t) == Scanned([], 0)
    ensures Cat(sum, []) == []
    ensures Boundary(sum, [], offset) <==> offset == 0
  {
    assert End(sum, [], 0) == 0;
  }

  lemma BoundaryStep(sum: Checksum, rs: seq<Record>, r: Record, offset: nat)
    requires ValidRecords(rs) && ValidRecord(r)
    ensures Boundary(sum, rs + [r], offset) <==>
            Boundary(sum, rs, offset) || offset == |Cat(sum, rs)| + |Frame(sum, r)|
  {
    hide Frame, Cat;
    var all := rs + [r];
    assert all[..|rs|] == rs && rs[..|rs|] == rs;
    EndStep(sum, all, |rs|);
    forall k | 0 <= k <= |rs|
      ensures End(sum, all, k) == End(sum, rs, k)
    {
      assert all[..k] == rs[..k];
    }
    hide End;
    if Boundary(sum, rs, offset) {
      var k :| 0 <= k <= |rs| && End(sum, rs, k) == offset;
      assert End(sum, all, k) == offset;
    }
    if offset == |Cat(sum, rs)| + |Frame(sum, r)| {
      assert End(sum, all, |all|) == offset;
    }
  }

  /**
    Recovery reads frames from the start.  A log that ends inside a frame is cut at the end of its last
    whole frame; any other irregularity refuses the log and leaves it alone.
   */
  method ScanAndRepair(sum: Checksum, file: LogFile, checkpoint: nat) returns (r: ScanOutcome)
    modifies file
    ensures match ScanLog(sum, old(file.content))
            case Corrupt(e) => r == Refused(e) && file.content == old(file.content)
            case Scanned(rs, end) =>
              && r == Repaired(end, Boundary(sum, rs, checkpoint))
              && file.content == old(file.content)[..end]
  {
    hide Frame, ParseHeader, ScanLog, Cat, Boundary;
    var fileLen := |file.content|;
    var offset := 0;
    var boundary := checkpoint == 0;
    ghost var done: seq<Record> := [];
    ghost var b := file.content;
    assert b[0..] == b;
    NothingScanned(sum, [], checkpoint);
    while offset < fileLen
      invariant 0 <= offset <= fileLen == |b|
      invariant file.content == b == old(file.content)
      invariant ValidRecords(done) && |Cat(sum, done)| == offset
      invariant ScanLog(sum, b) == Prepend(done, offset, ScanLog(sum, b[offset..]))
      invariant boundary == Boundary(sum, done, checkpoint)
    {
      assert done + [] == done;
      if fileLen - offset < HEADER {
        NothingScanned(sum, b[offset..], checkpoint);
        file.content := file.content[..offset];
        return Repaired(offset, boundary);
      }
      ScanStep(sum, b, offset);
      var parsed := ParseHeader(file.content[offset..offset + HEADER]);
      if parsed.HeaderErr? {
        return Refused(parsed.error);
      }
      var frameEnd := offset + HEADER + parsed.header.payloadLen;
      if frameEnd > fileLen {
        file.content := file.content[..offset];
        return Repaired(offset, boundary);
      }
      var payload := file.content[offset + HEADER..frameEnd];
      if sum(payload) != parsed.header.checksum {
        return Refused(ChecksumMismatch);
      }
      ghost var record := Record(parsed.header.id, parsed.header.schema, payload);
      BoundaryStep(sum, done, record, checkpoint);
      CatSnoc(sum, done, record);
      done := done + [record];
      offset := frameEnd;
      if offset == checkpoint {
        boundary := true;
      }
    }
    assert b[offset..] == [] && b[..offset] == b && done + [] == done;
    return Repaired(offset, boundary);
  }

  // ---------------------------------------------------------------- the reader

  datatype Batch = BatchOk(records: seq<Record>, start: nat, end: nat) | BatchErr(error: SpoolError)

  /** What one batch yields, and the offset at which the reader stands after it, failed or not. */
  datatype Reading = Reading(records: seq<Record>, offset: nat, failed: bool)

  /** Frames from `offset` on, at most `max` of them, within the published end of the log. */
  ghost function ReadFrom(sum: Checksum, b: Bytes, offset: nat, available: nat, max: nat): (r: Reading)
    decreases max
  {
    if max == 0 || offset >= available then Reading([], offset, false)
    else if offset + HEADER > |b| then Reading([], offset, true)
    else match ParseHeader(b[offset..offset + HEADER])
      case HeaderErr(_) => Reading([], offset, true)
      case HeaderOk(h) =>
        var n := offset + HEADER + h.payloadLen;
        if n > available || n > |b| || sum(b[offset + HEADER..n]) != h.checksum then Reading([], offset, true)
        else
          var next := ReadFrom(sum, b, n, available, max - 1);
          Reading([Record(h.id, h.schema, b[offset + HEADER..n])] + next.records, next.offset, next.failed)
  }

  /** The records read so far, followed by what is still to be read. */
  ghost function Continue(sofar: seq<Record>, rest: Reading): Reading {
    Reading(sofar + rest.records, rest.offset, rest.failed)
  }

  lemma ReadStep(sum: Checksum, b: Bytes, offset: nat, available: nat, max: nat, sofar: seq<Record>)
    requires max > 0 && offset < available
    ensures var all := Continue(sofar, ReadFrom(sum, b, offset, available, max));
            if offset + HEADER > |b| then all.failed && all.offset == offset
            else match ParseHeader(b[offset..offset + HEADER])
              case HeaderErr(_) => all.failed && all.offset == offset
              case HeaderOk(h) =>
                var n := offset + HEADER + h.payloadLen;
                if n > available || n > |b| || sum(b[offset + HEADER..n]) != h.checksum
                then all.failed && all.offset == offset
                else all == Continue(sofar + [Record(h.id, h.schema, b[offset + HEADER..n])],
                                     ReadFrom(sum, b, n, available, max - 1))
  {
    hide ParseHeader;
  }

  lemma ReadNothing(sum: Checksum, b: Bytes, offset: nat, available: nat, max: nat, sofar: seq<Record>)
    ensures max == 0 || offset >= available ==>
              Continue(sofar, ReadFrom(sum, b, offset, available, max)) == Reading(sofar, offset, false)
    ensures Continue([], ReadFrom(sum, b, offset, available, max)) == ReadFrom(sum, b, offset, available, max)
  {
  }

  class SpoolReader {
    const file: LogFile
    var offset: nat

    constructor (file: LogFile, offset: nat)
      ensures this.file == file && this.offset == offset
    {
      this.file := file;
      this.offset := offset;
    }

    /**
      Reads one batch.  A batch that fails returns no records, yet it may have moved the reader past some
      of them already, so its caller has to start again from an offset it trusts.
     */
    method ReadBatch(sum: Checksum, available: nat, maxRecords: nat) returns (b: Batch)
      modifies this
      ensures var spec := ReadFrom(sum, file.content, old(offset), available, maxRecords);
              && offset == spec.offset
              && (if spec.failed then b.BatchErr? else b == BatchOk(spec.records, old(offset), spec.offset))
    {
      hide ParseHeader, ReadFrom;
      var start := offset;
      ReadNothing(sum, file.content, start, available, maxRecords, []);
      if maxRecords == 0 || start >= available {
        return BatchOk([], start, start);
      }
      var records: seq<Record> := [];
      ghost var spec := ReadFrom(sum, file.content, start, available, maxRecords);
      while |records| < maxRecords && offset < available
        invariant |records| <= maxRecords
        invariant file.content == old(file.content)
        invariant spec == Continue(records, ReadFrom(sum, file.content, offset, available, maxRecords - |records|))
        decreases maxRecords - |records|
      {
        ReadStep(sum, file.content, offset, available, maxRecords - |records|, records);
        if offset + HEADER > |file.content| {
          return BatchErr(ShortRead);
        }
        var parsed := ParseHeader(file.content[offset..offset + HEADER]);
        if parsed.HeaderErr? {
          return BatchErr(parsed.error);
        }
        var frameEnd := offset + HEADER + parsed.header.payloadLen;
        if frameEnd > available {
          return BatchErr(BeyondEnd);
        }
        if frameEnd > |file.content| {
          return BatchErr(ShortRead);
        }
        var payload := file.content[offset + HEADER..frameEnd];
        if sum(payload) != parsed.header.checksum {
          return BatchErr(ChecksumMismatch);
        }
        records := records + [Record(parsed.header.id, parsed.header.schema, payload)];
        offset := frameEnd;
      }
      ReadNothing(sum, file.content, offset, available, maxRecords - |records|, records);
      return BatchOk(records, start, offset);
    }
  }

  function Min(a: nat, b: nat): nat {
    if a <= b then a else b
  }

  /** The frame at the end of the first `i` records is record `i`. */
  lemma FrameAt(sum: Checksum, b: Bytes, rs: seq<Record>, i: nat)
    requires ValidRecords(rs) && i < |rs| && Cat(sum, rs) <= b
    ensures var o := End(sum, rs, i);
            var n := End(sum, rs, i + 1);
            && n <= |Cat(sum, rs)| <= |b| && o + HEADER <= n
            && ParseHeader(b[o..o + HEADER])
               == HeaderOk(Header(rs[i].schema, |rs[i].payload|, sum(rs[i].payload), rs[i].id))
            && n == o + HEADER + |rs[i].payload|
            && b[o + HEADER..n] == rs[i].payload
  {
    hide Frame, FrameHeader, ParseHeader;
    var o, n := End(sum, rs, i), End(sum, rs, i + 1);
    EndStep(sum, rs, i);
    EndMonotone(sum, rs, i + 1, |rs|);
    EndOfAll(sum, rs);
    FrameSlice(sum, b, rs, i);
    ParseOfFrameHeader(sum, rs[i]);
    HeaderSlice(sum, b, o, rs[i]);
  }

  lemma FrameSlice(sum: Checksum, b: Bytes, rs: seq<Record>, i: nat)
    requires ValidRecords(rs) && i < |rs| && Cat(sum, rs) <= b
    ensures End(sum, rs, i) + |Frame(sum, rs[i])| <= |b|
    ensures b[End(sum, rs, i)..End(sum, rs, i) + |Frame(sum, rs[i])|] == Frame(sum, rs[i])
  {
    hide Frame;
    var rest := rs[i..];
    assert rs == rs[..i] + rest;
    CatSplit(sum, rs[..i], rest);
    assert Cat(sum, rest) == Frame(sum, rest[0]) + Cat(sum, rest[1..]);
  }

  lemma HeaderSlice(sum: Checksum, b: Bytes, o: nat, r: Record)
    requires ValidRecord(r) && o + HEADER + |r.payload| <= |b|
    requires b[o..o + HEADER + |r.payload|] == Frame(sum, r)
    ensures b[o..o + HEADER] == FrameHeader(sum, r)
    ensures b[o + HEADER..o + HEADER + |r.payload|] == r.payload
  {
    hide FrameHeader;
  }

  /**
    From the end of the first `i` records, over a log whose published part holds exactly `rs`, a batch
    never fails and returns precisely the next `max` records, in order, with the reader behind the last.
   */
  lemma {:induction false} BatchIsNextRecords(sum: Checksum, b: Bytes, rs: seq<Record>, i: nat, max: nat)
    requires ValidRecords(rs) && i <= |rs| && Cat(sum, rs) <= b
    ensures var j := Min(i + max, |rs|);
            ReadFrom(sum, b, End(sum, rs, i), |Cat(sum, rs)|, max) == Reading(rs[i..j], End(sum, rs, j), false)
    decreases max
  {
    hide Frame, ParseHeader, Cat, End;
    EndOfAll(sum, rs);
    if i == |rs| || max == 0 {
      assert rs[i..Min(i + max, |rs|)] == [];
    } else {
      EndStep(sum, rs, i);
      EndMonotone(sum, rs, i + 1, |rs|);
      FrameAt(sum, b, rs, i);
      BatchIsNextRecords(sum, b, rs, i + 1, max - 1);
      var j := Min(i + max, |rs|);
      assert rs[i..j] == [rs[i]] + rs[i + 1..j];
      assert rs[i] == Record(rs[i].id, rs[i].schema, rs[i].payload);
    }
  }

  /** What a worker gets by calling for batches of `max` until one comes back empty. */
  ghost function Drain(sum: Checksum, b: Bytes, offset: nat, available: nat, max: nat, rounds: nat): seq<Record>
    decreases rounds
  {
    var r := ReadFrom(sum, b, offset, available, max);
    if rounds == 0 || r.failed then [] else r.records + Drain(sum, b, r.offset, available, max, rounds - 1)
  }

  /** Whatever the batch size, draining yields every remaining record exactly once, in append order. */
  lemma {:induction false} DrainYieldsRest(sum: Checksum, b: Bytes, rs: seq<Record>, i: nat, max: nat, rounds: nat)
    requires ValidRecords(rs) && i <= |rs| && Cat(sum, rs) <= b
    requires max > 0 && rounds >= |rs| - i
    ensures Drain(sum, b, End(sum, rs, i), |Cat(sum, rs)|, max, rounds) == rs[i..]
    decreases rounds
  {
    hide ReadFrom, Cat, End;
    BatchIsNextRecords(sum, b, rs, i, max);
    if rounds > 0 {
      var j := Min(i + max, |rs|);
      DrainYieldsRest(sum, b, rs, j, max, rounds - 1);
      assert rs[i..] == rs[i..j] + rs[j..];
    }
  }
}
