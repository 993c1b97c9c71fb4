/** The frames of `events.log`: a 32-byte header followed by the payload of one record. */
module Frames {
  import opened Bytes

  const HEADER: nat := 32
  const MAX_PAYLOAD: nat := 1_048_576
  const MAGIC: Bytes := [65, 73, 71, 76]   // "AIGL"

  /** One encoded request log: its UUID, its schema version (a 16-bit pattern) and its payload. */
  datatype Record = Record(id: Bytes, schema: nat, payload: Bytes)

  predicate ValidRecord(r: Record) {
    && |r.id| == 16
    && r.schema < 0x1_0000
    && |r.payload| <= MAX_PAYLOAD
  }

  predicate ValidRecords(rs: seq<Record>) {
    forall i :: 0 <= i < |rs| ==> ValidRecord(rs[i])
  }

  datatype Header = Header(schema: nat, payloadLen: nat, checksum: nat, id: Bytes)

  datatype SpoolError = BadMagic | ReservedBits | PayloadTooLarge | ChecksumMismatch | BeyondEnd | ShortRead

  datatype HeaderResult = HeaderOk(header: Header) | HeaderErr(error: SpoolError)

  function FrameHeader(sum: Checksum, r: Record): (h: Bytes)
    requires ValidRecord(r)
    ensures |h| == HEADER
  {
    Ranges();
    MAGIC + Le(r.schema, 2) + Le(0, 2) + Le(|r.payload|, 4) + Le(sum(r.payload), 4) + r.id
  }

  function Frame(sum: Checksum, r: Record): (f: Bytes)
    requires ValidRecord(r)
    ensures |f| == HEADER + |r.payload|
    ensures f[HEADER..] == r.payload
  {
    FrameHeader(sum, r) + r.payload
  }

  function ParseHeader(h: Bytes): (r: HeaderResult)
    requires |h| == HEADER
    ensures r.HeaderOk? ==> |r.header.id| == 16 && r.header.schema < 0x1_0000 && r.header.payloadLen <= MAX_PAYLOAD
  {
    Ranges();
    if h[..4] != MAGIC then HeaderErr(BadMagic)
    else if FromLe(h[6..8]) != 0 then HeaderErr(ReservedBits)
    else if FromLe(h[8..12]) > MAX_PAYLOAD then HeaderErr(PayloadTooLarge)
    else HeaderOk(Header(FromLe(h[4..6]), FromLe(h[8..12]), FromLe(h[12..16]), h[16..32]))
  }

  lemma HeaderLayout(sum: Checksum, r: Record)
    requires ValidRecord(r)
    ensures Range(2) == 0x1_0000 && Range(4) == 0x1_0000_0000
    ensures var h := FrameHeader(sum, r);
            && h[..4] == MAGIC
            && h[4..6] == Le(r.schema, 2)
            && h[6..8] == Le(0, 2)
            && h[8..12] == Le(|r.payload|, 4)
            && h[12..16] == Le(sum(r.payload), 4)
            && h[16..32] == r.id
  {
    Ranges();
    hide Le, Range;
    Fields(MAGIC, Le(r.schema, 2), Le(0, 2), Le(|r.payload|, 4), Le(sum(r.payload), 4), r.id);
  }

  lemma Fields(a: Bytes, b: Bytes, c: Bytes, d: Bytes, e: Bytes, f: Bytes)
    requires |a| == 4 && |b| == |c| == 2 && |d| == |e| == 4 && |f| == 16
    ensures var h := a + b + c + d + e + f;
            && |h| == HEADER
            && h[..4] == a && h[4..6] == b && h[6..8] == c && h[8..12] == d && h[12..16] == e && h[16..32] == f
  {
  }

  lemma ParseOfFrameHeader(sum: Checksum, r: Record)
    requires ValidRecord(r)
    ensures ParseHeader(FrameHeader(sum, r)) == HeaderOk(Header(r.schema, |r.payload|, sum(r.payload), r.id))
  {
    HeaderLayout(sum, r);
    LeRoundTrip(r.schema, 2);
    LeRoundTrip(0, 2);
    LeRoundTrip(|r.payload|, 4);
    LeRoundTrip(sum(r.payload), 4);
  }

  /** A header that parses, over a payload with the right checksum, is the header of one record. */
  lemma FrameHeaderOfParse(sum: Checksum, h: Bytes, payload: Bytes)
    requires |h| == HEADER && ParseHeader(h).HeaderOk?
    requires ParseHeader(h).header.payloadLen == |payload|
    requires ParseHeader(h).header.checksum == sum(payload)
    ensures var p := ParseHeader(h).header;
            && FrameHeader(sum, Record(p.id, p.schema, payload)) == h
            && Frame(sum, Record(p.id, p.schema, payload)) == h + payload
  {
    Ranges();
    hide Le, FromLe, Range;
    FromLeRoundTrip(h[4..6]);
    FromLeRoundTrip(h[6..8]);
    FromLeRoundTrip(h[8..12]);
    FromLeRoundTrip(h[12..16]);
    Refields(h);
  }

  lemma Refields(h: Bytes)
    requires |h| == HEADER
    ensures h == h[..4] + h[4..6] + h[6..8] + h[8..12] + h[12..16] + h[16..32]
  {
  }

  // ---------------------------------------------------------------- whole logs

  function Cat(sum: Checksum, rs: seq<Record>): (b: Bytes)
    requires ValidRecords(rs)
    ensures rs != [] ==> |b| >= HEADER
  {
    if rs == [] then [] else Frame(sum, rs[0]) + Cat(sum, rs[1..])
  }

  /** Where the first `k` frames end. */
  function End(sum: Checksum, rs: seq<Record>, k: nat): (n: nat)
    requires ValidRecords(rs) && k <= |rs|
  {
    |Cat(sum, rs[..k])|
  }

  /** What recovery sees in a log: the whole frames and their length, or a corrupt frame. */
  datatype Scan = Scanned(records: seq<Record>, end: nat) | Corrupt(error: SpoolError)

  function ScanLog(sum: Checksum, b: Bytes): (s: Scan)
    ensures s.Scanned? ==> s.end <= |b| && ValidRecords(s.records)
    decreases |b|
  {
    if |b| < HEADER then Scanned([], 0)
    else match ParseHeader(b[..HEADER])
      case HeaderErr(e) => Corrupt(e)
      case HeaderOk(h) =>
        var n := HEADER + h.payloadLen;
        if n > |b| then Scanned([], 0)
        else if sum(b[HEADER..n]) != h.checksum then Corrupt(ChecksumMismatch)
        else match ScanLog(sum, b[n..])
          case Corrupt(e) => Corrupt(e)
          case Scanned(rs, end) => Scanned([Record(h.id, h.schema, b[HEADER..n])] + rs, n + end)
  }

  /** The bytes after the last whole frame: fewer than a frame, or nothing. */
  predicate IsTail(sum: Checksum, t: Bytes) {
    ScanLog(sum, t) == Scanned([], 0)
  }

  /** The log consists of whole frames, except that it may end inside a frame. */
  predicate Framed(sum: Checksum, b: Bytes) {
    ScanLog(sum, b).Scanned?
  }

  /** The log consists of whole frames only. */
  predicate Whole(sum: Checksum, b: Bytes) {
    ScanLog(sum, b).Scanned? && ScanLog(sum, b).end == |b|
  }

  function Records(sum: Checksum, b: Bytes): (rs: seq<Record>)
    ensures ValidRecords(rs)
  {
    match ScanLog(sum, b)
    case Scanned(rs, _) => rs
    case Corrupt(_) => []
  }

  lemma {:induction false} ScanOfFrame(sum: Checksum, r: Record, rest: Bytes)
    requires ValidRecord(r)
    ensures match ScanLog(sum, rest)
            case Scanned(rs, end) => ScanLog(sum, Frame(sum, r) + rest) == Scanned([r] + rs, |Frame(sum, r)| + end)
            case Corrupt(e) => ScanLog(sum, Frame(sum, r) + rest) == Corrupt(e)
  {
    var f := Frame(sum, r);
    var b := f + rest;
    assert b[..HEADER] == FrameHeader(sum, r);
    ParseOfFrameHeader(sum, r);
    assert b[HEADER..|f|] == r.payload;
    assert b[|f|..] == rest;
  }

  lemma TornFrameIsTail(sum: Checksum, r: Record, k: nat)
    requires ValidRecord(r) && k < |Frame(sum, r)|
    ensures IsTail(sum, Frame(sum, r)[..k])
  {
    if k >= HEADER {
      var t := Frame(sum, r)[..k];
      assert t[..HEADER] == FrameHeader(sum, r);
      ParseOfFrameHeader(sum, r);
    }
  }

  lemma TailScans(sum: Checksum, t: Bytes)
    ensures IsTail(sum, t) <==> ScanLog(sum, t) == Scanned([], 0)
  {
  }

  /** Scanning undoes writing: whole frames come back in order, whatever tail follows them. */
  lemma {:induction false} ScanOfCat(sum: Checksum, rs: seq<Record>, t: Bytes)
    requires ValidRecords(rs) && IsTail(sum, t)
    ensures ScanLog(sum, Cat(sum, rs) + t) == Scanned(rs, |Cat(sum, rs)|)
    decreases |rs|
  {
    TailScans(sum, t);
    hide Frame, ScanLog, IsTail;
    if rs == [] {
      assert Cat(sum, rs) + t == t;
    } else {
      ScanOfCat(sum, rs[1..], t);
      ScanOfFrame(sum, rs[0], Cat(sum, rs[1..]) + t);
      Assoc(Frame(sum, rs[0]), Cat(sum, rs[1..]), t);
      assert [rs[0]] + rs[1..] == rs;
    }
  }

  lemma FramedScans(sum: Checksum, b: Bytes)
    ensures Framed(sum, b) <==> ScanLog(sum, b).Scanned?
  {
  }

  lemma ScannedParts(sum: Checksum, b: Bytes)
    requires Framed(sum, b)
    ensures var s := ScanLog(sum, b);
            s.end <= |b| && b == Cat(sum, s.records) + b[s.end..] && IsTail(sum, b[s.end..])
  {
    FramedScans(sum, b);
    hide ScanLog, Cat, IsTail, Framed;
    CatOfScan(sum, b);
    var end := ScanLog(sum, b).end;
    assert b == b[..end] + b[end..];
  }

  /** Behind whole frames: a header that is none, or a whole frame whose payload has another checksum. */
  predicate Damaged(sum: Checksum, t: Bytes, e: SpoolError) {
    && |t| >= HEADER
    && match ParseHeader(t[..HEADER])
       case HeaderErr(error) => e == error
       case HeaderOk(h) =>
         var n := HEADER + h.payloadLen;
         n <= |t| && sum(t[HEADER..n]) != h.checksum && e == ChecksumMismatch
  }

  /** The log is whole frames up to the damage. */
  ghost predicate DamagedBehind(sum: Checksum, b: Bytes, rs: seq<Record>, e: SpoolError) {
    ValidRecords(rs) && Cat(sum, rs) <= b && Damaged(sum, b[|Cat(sum, rs)|..], e)
  }

  /** A log is refused exactly if damage follows its whole frames; everything else is a torn tail. */
  lemma CorruptIff(sum: Checksum, b: Bytes, e: SpoolError)
    ensures ScanLog(sum, b) == Corrupt(e) <==> exists rs :: DamagedBehind(sum, b, rs, e)
  {
    hide ScanLog, DamagedBehind;
    if ScanLog(sum, b) == Corrupt(e) {
      var rs := DamageFound(sum, b, e);
    }
    if rs :| DamagedBehind(sum, b, rs, e) {
      DamageRefused(sum, b, rs, e);
    }
  }

  lemma {:induction false} DamageFound(sum: Checksum, b: Bytes, e: SpoolError) returns (rs: seq<Record>)
    requires ScanLog(sum, b) == Corrupt(e)
    ensures DamagedBehind(sum, b, rs, e)
    decreases |b|
  {
    hide Frame, FrameHeader, ParseHeader;
    if Damaged(sum, b, e) {
      rs := [];
      assert b[0..] == b;
    } else {
      var h := ParseHeader(b[..HEADER]).header;
      var n := HEADER + h.payloadLen;
      var r := Record(h.id, h.schema, b[HEADER..n]);
      var more := DamageFound(sum, b[n..], e);
      FrameHeaderOfParse(sum, b[..HEADER], b[HEADER..n]);
      rs := [r] + more;
      assert rs[1..] == more;
      assert b == Frame(sum, r) + b[n..];
      assert b[|Cat(sum, rs)|..] == b[n..][|Cat(sum, more)|..];
    }
  }

  lemma {:induction false} DamageRefused(sum: Checksum, b: Bytes, rs: seq<Record>, e: SpoolError)
    requires DamagedBehind(sum, b, rs, e)
    ensures ScanLog(sum, b) == Corrupt(e)
    decreases |rs|
  {
    hide Frame, Damaged, ScanLog;
    if rs == [] {
      assert b[0..] == b;
      DamagedHere(sum, b, e);
    } else {
      var f := Frame(sum, rs[0]);
      var rest := b[|f|..];
      assert b == f + rest;
      assert rest[|Cat(sum, rs[1..])|..] == b[|Cat(sum, rs)|..];
      DamageRefused(sum, rest, rs[1..], e);
      ScanOfFrame(sum, rs[0], rest);
    }
  }

  lemma DamagedHere(sum: Checksum, b: Bytes, e: SpoolError)
    requires Damaged(sum, b, e)
    ensures ScanLog(sum, b) == Corrupt(e)
  {
    hide ParseHeader;
  }

  /** A torn tail is shorter than a header, or than the frame that its header announces. */
  lemma TailIff(sum: Checksum, t: Bytes)
    ensures IsTail(sum, t) <==>
            |t| < HEADER || (var p := ParseHeader(t[..HEADER]);
                             p.HeaderOk? && |t| < HEADER + p.header.payloadLen)
  {
    hide ParseHeader;
  }

  /** Which headers are refused, and why: other magic, bits that must be zero, or a length no record has. */
  lemma HeaderErrors(h: Bytes)
    requires |h| == HEADER
    ensures ParseHeader(h) == HeaderErr(BadMagic) <==> h[..4] != [65, 73, 71, 76]
    ensures ParseHeader(h) == HeaderErr(ReservedBits) <==> h[..4] == [65, 73, 71, 76] && !(h[6] == h[7] == 0)
    ensures ParseHeader(h) == HeaderErr(PayloadTooLarge) <==>
            && h[..4] == [65, 73, 71, 76] && h[6] == h[7] == 0
            && exists n :: 1_048_576 < n < 0x1_0000_0000 && h[8..12] == Le(n, 4)
  {
    Ranges();
    FromLeRoundTrip(h[6..8]);
    LeRoundTrip(0, 2);
    assert [h[6], h[7]] == h[6..8];
    var n := FromLe(h[8..12]);
    FromLeRoundTrip(h[8..12]);
    if m :| 1_048_576 < m < 0x1_0000_0000 && h[8..12] == Le(m, 4) {
      LeRoundTrip(m, 4);
    }
  }

  /** Writing undoes scanning: a log that scans is the frames of its records plus a tail. */
  lemma {:induction false} CatOfScan(sum: Checksum, b: Bytes)
    requires Framed(sum, b)
    ensures var s := ScanLog(sum, b);
            b[..s.end] == Cat(sum, s.records) && IsTail(sum, b[s.end..])
    decreases |b|
  {
    hide Frame, FrameHeader, ParseHeader;
    var s := ScanLog(sum, b);
    if s.records == [] {
      assert b[0..] == b;
    } else {
      var h := ParseHeader(b[..HEADER]).header;
      var n := HEADER + h.payloadLen;
      var rest := b[n..];
      CatOfScan(sum, rest);
      FrameHeaderOfParse(sum, b[..HEADER], b[HEADER..n]);
      var t := ScanLog(sum, rest);
      assert s.records[1..] == t.records;
      assert b[..s.end] == b[..HEADER] + b[HEADER..n] + rest[..t.end];
      assert b[s.end..] == rest[t.end..];
    }
  }

  lemma {:induction false} CatSplit(sum: Checksum, a: seq<Record>, c: seq<Record>)
    requires ValidRecords(a) && ValidRecords(c)
    ensures ValidRecords(a + c) && Cat(sum, a + c) == Cat(sum, a) + Cat(sum, c)
    decreases |a|
  {
    hide Frame;
    if a == [] {
      assert a + c == c;
    } else {
      CatSplit(sum, a[1..], c);
      assert (a + c)[1..] == a[1..] + c;
      Assoc(Frame(sum, a[0]), Cat(sum, a[1..]), Cat(sum, c));
    }
  }

  lemma CatSnoc(sum: Checksum, rs: seq<Record>, r: Record)
    requires ValidRecords(rs) && ValidRecord(r)
    ensures Cat(sum, rs + [r]) == Cat(sum, rs) + Frame(sum, r)
  {
    hide Frame;
    CatSplit(sum, rs, [r]);
    assert [r][1..] == [];
  }

  lemma EndStep(sum: Checksum, rs: seq<Record>, k: nat)
    requires ValidRecords(rs) && k < |rs|
    ensures End(sum, rs, k + 1) == End(sum, rs, k) + |Frame(sum, rs[k])|
  {
    assert rs[..k + 1] == rs[..k] + [rs[k]];
    CatSnoc(sum, rs[..k], rs[k]);
  }

  lemma EndOfAll(sum: Checksum, rs: seq<Record>)
    requires ValidRecords(rs)
    ensures End(sum, rs, 0) == 0
    ensures End(sum, rs, |rs|) == |Cat(sum, rs)|
  {
    assert rs[..|rs|] == rs;
  }

  lemma {:induction false} EndMonotone(sum: Checksum, rs: seq<Record>, j: nat, k: nat)
    requires ValidRecords(rs) && j <= k <= |rs|
    ensures End(sum, rs, j) + HEADER * (k - j) <= End(sum, rs, k)
    decreases k - j
  {
    hide Frame, Cat, End;
    if j < k {
      EndMonotone(sum, rs, j, k - 1);
      EndStep(sum, rs, k - 1);
    }
  }

  /** Appending to a log of whole frames: the old records, then whatever the new bytes hold. */
  lemma ScanAppend(sum: Checksum, b: Bytes, t: Bytes)
    requires Whole(sum, b) && IsTail(sum, t)
    ensures ScanLog(sum, b + t) == Scanned(Records(sum, b), |b|)
  {
    CatOfScan(sum, b);
    assert b[..|b|] == b;
    ScanOfCat(sum, Records(sum, b), t);
  }

  lemma ScanAppendFrame(sum: Checksum, b: Bytes, r: Record)
    requires Whole(sum, b) && ValidRecord(r)
    ensures Whole(sum, b + Frame(sum, r))
    ensures Records(sum, b + Frame(sum, r)) == Records(sum, b) + [r]
  {
    hide Frame, Cat, ScanLog, IsTail;
    var rs := Records(sum, b);
    CatOfScan(sum, b);
    assert b[..|b|] == b;
    CatSnoc(sum, rs, r);
    assert IsTail(sum, []) by { NothingIsTail(sum); }
    ScanOfCat(sum, rs + [r], []);
    assert Cat(sum, rs + [r]) + [] == b + Frame(sum, r);
  }

  lemma NothingIsTail(sum: Checksum)
    ensures IsTail(sum, [])
  {
  }

  /** Cutting the log at the end of its last whole frame drops the tail and nothing else. */
  lemma ScanRepaired(sum: Checksum, b: Bytes)
    requires Framed(sum, b)
    ensures Whole(sum, b[..ScanLog(sum, b).end])
    ensures Records(sum, b[..ScanLog(sum, b).end]) == Records(sum, b)
  {
    CatOfScan(sum, b);
    var s := ScanLog(sum, b);
    ScanOfCat(sum, s.records, []);
    assert Cat(sum, s.records) + [] == b[..s.end];
  }
}
