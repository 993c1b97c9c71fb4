/** Bytes and the little-endian integers that the spool's file formats are made of. */
module Bytes {

  type Byte = b: int | 0 <= b < 256
  type Bytes = seq<Byte>

  /** A 32-bit checksum value. */
  type Word = w: int | 0 <= w < 0x1_0000_0000

  /** The checksum is never looked into: every result holds for every such function. */
  type Checksum = Bytes -> Word

  /** 256 to the power `width`. */
  function Range(width: nat): (n: nat)
    ensures n > 0
  {
    if width == 0 then 1 else 256 * Range(width - 1)
  }

  /** `value` in `width` little-endian bytes. */
  function Le(value: nat, width: nat): (s: Bytes)
    requires value < Range(width)
    ensures |s| == width
    decreases width
  {
    if width == 0 then [] else [value % 256] + Le(value / 256, width - 1)
  }

  function FromLe(s: Bytes): (value: nat)
    ensures value < Range(|s|)
  {
    if s == [] then 0 else s[0] + 256 * FromLe(s[1..])
  }

  lemma {:induction false} LeRoundTrip(value: nat, width: nat)
    requires value < Range(width)
    ensures FromLe(Le(value, width)) == value
    decreases width
  {
    if width > 0 {
      LeRoundTrip(value / 256, width - 1);
      assert Le(value, width)[1..] == Le(value / 256, width - 1);
    }
  }

  lemma {:induction false} FromLeRoundTrip(s: Bytes)
    ensures Le(FromLe(s), |s|) == s
    decreases |s|
  {
    if s != [] {
      FromLeRoundTrip(s[1..]);
      LowByte(s[0], FromLe(s[1..]));
      LeStep(s[0], FromLe(s[1..]), |s| - 1);
      assert s == [s[0]] + s[1..];
    }
  }

  lemma LowByte(low: Byte, high: nat)
    ensures (low + 256 * high) % 256 == low && (low + 256 * high) / 256 == high
  {
  }

  lemma LeStep(low: Byte, high: nat, width: nat)
    requires high < Range(width)
    ensures low + 256 * high < Range(width + 1)
    ensures Le(low + 256 * high, width + 1) == [low] + Le(high, width)
  {
    LowByte(low, high);
  }

  lemma Ranges()
    ensures Range(2) == 0x1_0000
    ensures Range(4) == 0x1_0000_0000
    ensures Range(8) == 0x1_0000_0000_0000_0000
  {
  }

  lemma Assoc(a: Bytes, b: Bytes, c: Bytes)
    ensures (a + b) + c == a + (b + c)
  {
  }

  function Zeros(n: nat): (s: Bytes)
    ensures |s| == n
    ensures forall i :: 0 <= i < n ==> s[i] == 0
  {
    seq(n, _ => 0)
  }

  /** The chunks of a stream put together. */
  ghost function Concat(chunks: seq<Bytes>): Bytes {
    if chunks == [] then [] else chunks[0] + Concat(chunks[1..])
  }

  lemma {:induction false} ConcatSnoc(chunks: seq<Bytes>, i: nat)
    requires i < |chunks|
    ensures Concat(chunks[..i + 1]) == Concat(chunks[..i]) + chunks[i]
  {
    if i == 0 {
      assert chunks[..1] == [chunks[0]] && chunks[..0] == [] && Concat([chunks[0]][1..]) == [];
    } else {
      ConcatSnoc(chunks[1..], i - 1);
      assert chunks[..i + 1][1..] == chunks[1..][..i] && chunks[..i][1..] == chunks[1..][..i - 1];
    }
  }

  lemma {:induction false} ConcatPrefix(chunks: seq<Bytes>, i: nat)
    requires i <= |chunks|
    ensures Concat(chunks[..i]) <= Concat(chunks)
    decreases |chunks| - i
  {
    if i == |chunks| {
      assert chunks[..i] == chunks;
    } else {
      ConcatSnoc(chunks, i);
      ConcatPrefix(chunks, i + 1);
    }
  }
}
