/** Terminal slots: the preallocated file in which an admitted request leaves its terminal record. */
module Slots {
  import opened Bytes
  import opened Frames

  const SLOT_HEADER: nat := 16
  const SLOT_BYTES: nat := SLOT_HEADER + MAX_PAYLOAD
  const MAX_INTENT: nat := 16_384
  const RESERVATION: nat := SLOT_BYTES + MAX_INTENT
  /** The bytes of `n` reservations. */
  function Reservations(n: nat): (b: nat)
    ensures b == n * RESERVATION
  {
    n * 1_064_976
  }

  const SLOT_MAGIC: Bytes := [65, 73, 71, 65]   // "AIGA"
  const SCHEMA: nat := 8

  datatype Terminal = Unreadable | Readable(schema: nat, payload: Bytes)

  function SlotHeader(sum: Checksum, payload: Bytes): (h: Bytes)
    requires |payload| <= MAX_PAYLOAD
    ensures |h| == SLOT_HEADER
  {
    Ranges();
    SLOT_MAGIC + Le(SCHEMA, 2) + Le(0, 2) + Le(|payload|, 4) + Le(sum(payload), 4)
  }

  function ReadTerminal(sum: Checksum, y: Bytes): (t: Terminal) {
    if |y| < SLOT_HEADER || y[..4] != SLOT_MAGIC then Unreadable
    else
      var len := FromLe(y[8..12]);
      if len > MAX_PAYLOAD || y[6..8] != [0, 0] || SLOT_HEADER + len > |y| then Unreadable
      else
        var payload := y[SLOT_HEADER..SLOT_HEADER + len];
        if sum(payload) != FromLe(y[12..16]) then Unreadable
        else Readable(FromLe(y[4..6]), payload)
  }

  /** Cutting a slot short never makes an unreadable one readable, nor changes what a readable one says. */
  lemma CutSlot(sum: Checksum, y: Bytes, n: nat)
    requires n <= |y|
    ensures ReadTerminal(sum, y[..n]) == Unreadable || ReadTerminal(sum, y[..n]) == ReadTerminal(sum, y)
  {
    var z := y[..n];
    if n >= SLOT_HEADER {
      assert z[..4] == y[..4] && z[4..6] == y[4..6] && z[6..8] == y[6..8];
      assert z[8..12] == y[8..12] && z[12..16] == y[12..16];
      var len := FromLe(y[8..12]);
      if SLOT_HEADER + len <= n {
        assert z[SLOT_HEADER..SLOT_HEADER + len] == y[SLOT_HEADER..SLOT_HEADER + len];
      }
    }
  }

  /** How much of an unreadable slot is kept: everything up to its last nonzero byte. */
  function KeptLen(y: Bytes): (n: nat)
    ensures n <= |y|
    ensures forall i :: n <= i < |y| ==> y[i] == 0
    ensures n > 0 ==> y[n - 1] != 0
  {
    if y == [] then 0
    else if y[|y| - 1] != 0 then |y|
    else
      var n := KeptLen(y[..|y| - 1]);
      assert forall i :: 0 <= i < |y| - 1 ==> y[i] == y[..|y| - 1][i];
      n
  }

  /** Without zeros at its end. */
  predicate Shorn(y: Bytes) {
    y == [] || y[|y| - 1] != 0
  }

  /** What is kept of an unreadable slot: every byte up to the last nonzero one. */
  function Trim(y: Bytes): (z: Bytes)
    ensures z <= y && Shorn(z)
    ensures forall i :: |z| <= i < |y| ==> y[i] == 0
  {
    y[..KeptLen(y)]
  }

  /** The kept bytes are settled by what they have to be, so keeping them twice is keeping them once. */
  lemma TrimUnique(y: Bytes, z: Bytes)
    requires z <= y && Shorn(z) && forall i :: |z| <= i < |y| ==> y[i] == 0
    ensures z == Trim(y) && Trim(z) == z
  {
    hide KeptLen;
  }

  lemma HeaderFields(sum: Checksum, p: Bytes)
    requires |p| <= MAX_PAYLOAD
    ensures Range(4) == 0x1_0000_0000 && Range(2) == 0x1_0000
    ensures var h := SlotHeader(sum, p);
            && h[..4] == SLOT_MAGIC && h[4..6] == Le(SCHEMA, 2) && h[6..8] == Le(0, 2)
            && h[8..12] == Le(|p|, 4) && h[12..16] == Le(sum(p), 4)
  {
    Ranges();
    hide Le, Range;
    Fields5(SLOT_MAGIC, Le(SCHEMA, 2), Le(0, 2), Le(|p|, 4), Le(sum(p), 4));
  }

  lemma Fields5(a: Bytes, b: Bytes, c: Bytes, d: Bytes, e: Bytes)
    requires |a| == 4 && |b| == |c| == 2 && |d| == |e| == 4
    ensures var h := a + b + c + d + e;
            && |h| == SLOT_HEADER
            && h[..4] == a && h[4..6] == b && h[6..8] == c && h[8..12] == d && h[12..16] == e
  {
  }

  /** Reading a slot under the header of `p`: it holds `p` exactly when its checksum agrees. */
  lemma ReadUnderHeader(sum: Checksum, p: Bytes, y: Bytes)
    requires |p| <= MAX_PAYLOAD && |y| >= SLOT_HEADER && y[..SLOT_HEADER] == SlotHeader(sum, p)
    ensures ReadTerminal(sum, y) ==
            if SLOT_HEADER + |p| > |y| || sum(y[SLOT_HEADER..SLOT_HEADER + |p|]) != sum(p) then Unreadable
            else Readable(SCHEMA, y[SLOT_HEADER..SLOT_HEADER + |p|])
  {
    HeaderFields(sum, p);
    var h := y[..SLOT_HEADER];
    assert h[..4] == y[..4] && h[4..6] == y[4..6] && h[6..8] == y[6..8];
    assert h[8..12] == y[8..12] && h[12..16] == y[12..16];
    LeRoundTrip(SCHEMA, 2);
    LeRoundTrip(|p|, 4);
    LeRoundTrip(sum(p), 4);
    ZeroPair();
  }

  lemma ZeroPair()
    ensures Range(2) == 0x1_0000 && Le(0, 2) == [0, 0]
  {
  }

  // ---------------------------------------------------------------- torn slots

  /**
    Every content a slot can have while, or after, the record with payload `p` is written into it: the
    16-byte header is there whole or is still zero, each later byte is still zero or already that of `p`,
    and the file may end early.
   */
  ghost predicate Torn(sum: Checksum, p: Bytes, y: Bytes) {
    && |y| <= SLOT_BYTES
    && (HeaderZero(y) || HeaderWritten(sum, p, y))
    && forall i :: SLOT_HEADER <= i < |y| ==> y[i] == 0 || TornByte(p, y, i)
  }

  ghost predicate TornByte(p: Bytes, y: Bytes, i: nat)
    requires SLOT_HEADER <= i < |y|
  {
    i - SLOT_HEADER < |p| && y[i] == p[i - SLOT_HEADER]
  }

  ghost predicate HeaderZero(y: Bytes) {
    forall i :: 0 <= i < |y| && i < SLOT_HEADER ==> y[i] == 0
  }

  ghost predicate HeaderWritten(sum: Checksum, p: Bytes, y: Bytes) {
    |p| <= MAX_PAYLOAD && forall i :: 0 <= i < |y| && i < SLOT_HEADER ==> y[i] == SlotHeader(sum, p)[i]
  }

  ghost predicate AllZero(y: Bytes) {
    forall i :: 0 <= i < |y| ==> y[i] == 0
  }

  /** Some bytes of `q` are those of `p`, the others are zero. */
  ghost predicate PartlyWritten(p: Bytes, q: Bytes) {
    |q| == |p| && forall i :: 0 <= i < |p| ==> q[i] == 0 || q[i] == p[i]
  }

  lemma ZeroHeaderUnreadable(sum: Checksum, y: Bytes)
    requires HeaderZero(y)
    ensures ReadTerminal(sum, y) == Unreadable
  {
    if |y| >= SLOT_HEADER {
      assert y[..4][0] == 0;
    }
  }

  /**
    A torn slot yields nothing, or the record that was being written, or, if the checksum of a partly written
    payload happens to be the same, a payload that has lost some of its bytes to zeros.
   */
  lemma TornReadsTrue(sum: Checksum, p: Bytes, y: Bytes)
    requires Torn(sum, p, y)
    ensures var t := ReadTerminal(sum, y);
            t.Readable? ==>
              && |p| <= MAX_PAYLOAD && t.schema == SCHEMA && PartlyWritten(p, t.payload)
              && (t.payload == p ==> Image(sum, p, y))
              && (t.payload == p || 0 in t.payload)
  {
    hide SlotHeader, ReadTerminal;
    if HeaderZero(y) {
      ZeroHeaderUnreadable(sum, y);
    } else if |y| < SLOT_HEADER {
      ShortUnreadable(sum, y);
    } else {
      assert y[..SLOT_HEADER] == SlotHeader(sum, p);
      ReadUnderHeader(sum, p, y);
      if SLOT_HEADER + |p| <= |y| {
        var q := y[SLOT_HEADER..SLOT_HEADER + |p|];
        assert PartlyWritten(p, q) by {
          forall i | 0 <= i < |p|
            ensures q[i] == 0 || q[i] == p[i]
          {
            assert q[i] == y[SLOT_HEADER + i];
          }
        }
        PartlyWrittenLoses(p, q);
      }
    }
  }

  lemma PartlyWrittenLoses(p: Bytes, q: Bytes)
    requires PartlyWritten(p, q)
    ensures q == p || 0 in q
  {
    if q != p {
      var i :| 0 <= i < |p| && q[i] != p[i];
      assert q[i] == 0;
    }
  }

  lemma ShortUnreadable(sum: Checksum, y: Bytes)
    requires |y| < SLOT_HEADER
    ensures ReadTerminal(sum, y) == Unreadable
  {
  }

  /** The slot holds the record with payload `p`, header and all. */
  ghost predicate Image(sum: Checksum, p: Bytes, y: Bytes) {
    && |p| <= MAX_PAYLOAD
    && SLOT_HEADER + |p| <= |y|
    && y[..SLOT_HEADER] == SlotHeader(sum, p)
    && y[SLOT_HEADER..SLOT_HEADER + |p|] == p
  }

  lemma ImageReadable(sum: Checksum, p: Bytes, y: Bytes)
    requires Image(sum, p, y)
    ensures ReadTerminal(sum, y) == Readable(SCHEMA, p)
  {
    ReadUnderHeader(sum, p, y);
  }

  /** A slot reads as a record of the current schema exactly if it holds that record, header and all. */
  lemma ReadableIffImage(sum: Checksum, p: Bytes, y: Bytes)
    ensures ReadTerminal(sum, y) == Readable(SCHEMA, p) <==> Image(sum, p, y)
  {
    if ReadTerminal(sum, y) == Readable(SCHEMA, p) {
      ReadableHeader(sum, p, y);
    }
    if Image(sum, p, y) {
      ImageReadable(sum, p, y);
    }
  }

  lemma ReadableHeader(sum: Checksum, p: Bytes, y: Bytes)
    requires ReadTerminal(sum, y) == Readable(SCHEMA, p)
    ensures Image(sum, p, y)
  {
    Ranges();
    ZeroPair();
    hide Le, FromLe, Range;
    FromLeRoundTrip(y[4..6]);
    FromLeRoundTrip(y[8..12]);
    FromLeRoundTrip(y[12..16]);
    Refields5(y[..SLOT_HEADER]);
    var h := y[..SLOT_HEADER];
    assert h[..4] == y[..4] && h[4..6] == y[4..6] && h[6..8] == y[6..8] && h[8..12] == y[8..12] && h[12..16] == y[12..16];
  }

  lemma Refields5(h: Bytes)
    requires |h| == SLOT_HEADER
    ensures h == h[..4] + h[4..6] + h[6..8] + h[8..12] + h[12..16]
  {
  }

  lemma CutTorn(sum: Checksum, p: Bytes, y: Bytes, n: nat)
    requires Torn(sum, p, y) && n <= |y|
    ensures Torn(sum, p, y[..n])
  {
  }

  // ---------------------------------------------------------------- writing a slot

  /** `y` grown with zeros to at least `n` bytes, as a file is by a write beyond its end. */
  function Grown(y: Bytes, n: nat): (z: Bytes)
    ensures |z| == if |y| >= n then |y| else n
    ensures forall i :: 0 <= i < |z| ==> z[i] == if i < |y| then y[i] else 0
  {
    if |y| >= n then y else y + Zeros(n - |y|)
  }

  function PutPayload(y: Bytes, p: Bytes): (z: Bytes)
    ensures |z| == |Grown(y, SLOT_HEADER + |p|)|
    ensures forall i :: 0 <= i < |z| ==>
              z[i] == if SLOT_HEADER <= i < SLOT_HEADER + |p| then p[i - SLOT_HEADER] else Grown(y, SLOT_HEADER + |p|)[i]
  {
    var g := Grown(y, SLOT_HEADER + |p|);
    g[..SLOT_HEADER] + p + g[SLOT_HEADER + |p|..]
  }

  function PutHeader(y: Bytes, h: Bytes): (z: Bytes)
    requires |h| == SLOT_HEADER
    ensures |z| == |Grown(y, SLOT_HEADER)|
    ensures forall i :: 0 <= i < |z| ==> z[i] == if i < SLOT_HEADER then h[i] else Grown(y, SLOT_HEADER)[i]
  {
    h + Grown(y, SLOT_HEADER)[SLOT_HEADER..]
  }

  /** `z` is what a payload write over `y` may leave behind: each byte old or new, cut anywhere past `y`. */
  ghost predicate PartPayload(y: Bytes, p: Bytes, z: Bytes) {
    && |y| <= |z| <= |PutPayload(y, p)|
    && forall i :: 0 <= i < |z| ==> z[i] == PutPayload(y, p)[i] || z[i] == Grown(y, |z|)[i]
  }

  /** Not cut inside a written header, so that writing goes on where the header is zero or whole. */
  ghost predicate Sound(y: Bytes) {
    HeaderZero(y) || |y| >= SLOT_HEADER
  }

  lemma PartPayloadTorn(sum: Checksum, p: Bytes, y: Bytes, z: Bytes)
    requires Torn(sum, p, y) && Sound(y) && |p| <= MAX_PAYLOAD && PartPayload(y, p, z)
    ensures Torn(sum, p, z) && Sound(z)
    ensures Image(sum, p, y) ==> z == y
  {
    hide SlotHeader;
  }

  lemma PutPayloadIsPart(p: Bytes, y: Bytes)
    ensures PartPayload(y, p, PutPayload(y, p))
  {
  }

  lemma PutHeaderTorn(sum: Checksum, p: Bytes, y: Bytes)
    requires Torn(sum, p, y) && Sound(y) && |p| <= MAX_PAYLOAD
    ensures var z := PutHeader(y, SlotHeader(sum, p));
            && Torn(sum, p, z) && Sound(z)
            && (Image(sum, p, y) ==> z == y)
            && (PayloadWritten(p, y) ==> Image(sum, p, z))
  {
    hide SlotHeader;
  }

  ghost predicate PayloadWritten(p: Bytes, y: Bytes) {
    SLOT_HEADER + |p| <= |y| && y[SLOT_HEADER..SLOT_HEADER + |p|] == p
  }

  lemma PutPayloadWrites(p: Bytes, y: Bytes)
    ensures PayloadWritten(p, PutPayload(y, p))
  {
  }

  /** Before anything is written a slot is zero, hence torn in every sense and unreadable. */
  lemma ZeroIsTorn(sum: Checksum, p: Bytes, y: Bytes)
    requires AllZero(y) && |y| <= SLOT_BYTES
    ensures Torn(sum, p, y) && Sound(y) && ReadTerminal(sum, y) == Unreadable
  {
    ZeroHeaderUnreadable(sum, y);
  }
}
