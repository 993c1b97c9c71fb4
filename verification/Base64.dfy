/** Base64 with padding, as section 4 of RFC 4648 defines it, and the length bound the body builder uses. */
module Base64 {
  import opened Bytes

  const PAD: Byte := 61

  /** The symbol of a 6-bit digit. */
  function Symbol(digit: nat): Byte
    requires digit < 64
  {
    if digit < 26 then 65 + digit
    else if digit < 52 then 71 + digit
    else if digit < 62 then digit - 4
    else if digit == 62 then 43
    else 47
  }

  function Digit(symbol: Byte): (digit: nat)
    ensures digit < 64
  {
    if 65 <= symbol <= 90 then symbol - 65
    else if 97 <= symbol <= 122 then symbol - 71
    else if 48 <= symbol <= 57 then symbol + 4
    else if symbol == 43 then 62
    else if symbol == 47 then 63
    else 0
  }

  /** A 24-bit group cut into four 6-bit digits. */
  function Quad(group: nat): (s: Bytes)
    requires group < 0x100_0000
    ensures |s| == 4
  {
    [Symbol(group / 0x4_0000), Symbol(group / 0x1000 % 64), Symbol(group / 64 % 64), Symbol(group % 64)]
  }

  /** Three bytes put together. */
  function Group(a: int, b: int, c: int): (group: nat)
    requires 0 <= a < 256 && 0 <= b < 256 && 0 <= c < 256
    ensures group < 0x100_0000
  {
    a * 0x1_0000 + b * 0x100 + c
  }

  function Encode(s: Bytes): Bytes {
    if s == [] then []
    else if |s| == 1 then Quad(Group(s[0], 0, 0))[..2] + [PAD, PAD]
    else if |s| == 2 then Quad(Group(s[0], s[1], 0))[..3] + [PAD]
    else Quad(Group(s[0], s[1], s[2])) + Encode(s[3..])
  }

  function EncodedLen(length: nat): nat {
    (length + 2) / 3 * 4
  }

  lemma {:induction false} EncodeLength(s: Bytes)
    ensures |Encode(s)| == EncodedLen(|s|)
    decreases |s|
  {
    hide Quad, Group;
    if |s| >= 3 {
      EncodeLength(s[3..]);
    }
  }

  /** Reads quads back; a quad with padding stands for one or two bytes. */
  function Decode(t: Bytes): Bytes {
    if |t| < 4 then []
    else
      var group := Digit(t[0]) * 0x4_0000 + Digit(t[1]) * 0x1000 + Digit(t[2]) * 64 + Digit(t[3]);
      var bytes: Bytes := [group / 0x1_0000, group / 0x100 % 0x100, group % 0x100];
      if t[2] == PAD then bytes[..1] + Decode(t[4..])
      else if t[3] == PAD then bytes[..2] + Decode(t[4..])
      else bytes + Decode(t[4..])
  }

  lemma QuadDigits(group: nat)
    requires group < 0x100_0000
    ensures var q := Quad(group);
            && q[2] != PAD && q[3] != PAD
            && Digit(q[0]) * 0x4_0000 + Digit(q[1]) * 0x1000 + Digit(q[2]) * 64 + Digit(q[3]) == group
  {
    var q := Quad(group);
    assert Digit(q[0]) == group / 0x4_0000;
    assert Digit(q[1]) == group / 0x1000 % 64;
    assert Digit(q[2]) == group / 64 % 64;
    assert Digit(q[3]) == group % 64;
    assert group / 64 / 64 == group / 0x1000 && group / 0x1000 / 64 == group / 0x4_0000;
  }

  /** Padding stands for digits that are zero. */
  lemma PaddedDigits(a: int, b: int)
    requires 0 <= a < 256 && 0 <= b < 256
    ensures Digit(Quad(Group(a, b, 0))[3]) == Digit(PAD)
    ensures b == 0 ==> Digit(Quad(Group(a, b, 0))[2]) == Digit(PAD)
  {
    QuadTail(Group(a, b, 0));
    GroupTail(a, b);
    hide Quad, Group;
  }

  lemma QuadTail(group: nat)
    requires group < 0x100_0000
    ensures Digit(Quad(group)[2]) == group / 64 % 64 && Digit(Quad(group)[3]) == group % 64
  {
    SymbolDigit(group / 64 % 64);
    SymbolDigit(group % 64);
    hide Digit, Symbol;
  }

  lemma SymbolDigit(digit: nat)
    requires digit < 64
    ensures Digit(Symbol(digit)) == digit
  {
  }

  lemma GroupTail(a: int, b: int)
    requires 0 <= a < 256 && 0 <= b < 256
    ensures Group(a, b, 0) % 64 == 0
    ensures b == 0 ==> Group(a, b, 0) / 64 % 64 == 0
  {
    assert Group(a, b, 0) == 64 * (a * 1024 + b * 4);
    assert b == 0 ==> Group(a, b, 0) / 64 == 64 * (a * 16);
  }

  /** Decoding undoes encoding, for every byte string. */
  lemma {:induction false} DecodeEncode(s: Bytes)
    ensures Decode(Encode(s)) == s
    decreases |s|
  {
    hide Quad, Digit;
    if |s| == 0 {
    } else if |s| <= 2 {
      LastQuad(s);
    } else {
      var group := Group(s[0], s[1], s[2]);
      var t := Encode(s);
      QuadDigits(group);
      assert t[..4] == Quad(group) && t[4..] == Encode(s[3..]);
      assert t[0] == Quad(group)[0] && t[1] == Quad(group)[1] && t[2] == Quad(group)[2] && t[3] == Quad(group)[3];
      DecodeEncode(s[3..]);
      Ungroup(s[0], s[1], s[2]);
      assert Decode(t) == s[..3] + Decode(t[4..]);
    }
  }

  lemma Ungroup(a: int, b: int, c: int)
    requires 0 <= a < 256 && 0 <= b < 256 && 0 <= c < 256
    ensures var group := Group(a, b, c);
            group / 0x1_0000 == a && group / 0x100 % 0x100 == b && group % 0x100 == c
  {
    assert Group(a, b, c) / 0x100 == a * 0x100 + b;
  }

  lemma DecodePadded(t: Bytes, a: Byte, b: Byte)
    requires |t| == 4 && t[3] == PAD
    requires Digit(t[0]) * 0x4_0000 + Digit(t[1]) * 0x1000 + Digit(t[2]) * 64 + Digit(t[3]) == Group(a, b, 0)
    ensures Decode(t) == if t[2] == PAD then [a] else [a, b]
  {
    hide Digit, Group;
    Ungroup(a, b, 0);
    assert t[4..] == [] && Decode(t[4..]) == [];
  }

  lemma LastQuad(s: Bytes)
    requires 1 <= |s| <= 2
    ensures Decode(Encode(s)) == s
  {
    hide Quad, Digit, Symbol, Group, Decode;
    var b := if |s| == 1 then 0 else s[1];
    var q := Quad(Group(s[0], b, 0));
    var t := Encode(s);
    QuadDigits(Group(s[0], b, 0));
    PaddedDigits(s[0], b);
    assert t == if |s| == 1 then [q[0], q[1], PAD, PAD] else [q[0], q[1], q[2], PAD];
    DecodePadded(t, s[0], b);
  }

  /** Whole groups may be encoded on their own. */
  lemma {:induction false} EncodeSplit(a: Bytes, b: Bytes)
    requires |a| % 3 == 0
    ensures Encode(a + b) == Encode(a) + Encode(b)
    decreases |a|
  {
    hide Quad;
    if a == [] {
      assert a + b == b;
    } else {
      assert (a + b)[3..] == a[3..] + b;
      EncodeSplit(a[3..], b);
    }
  }

  function Total(lengths: seq<nat>): nat {
    if lengths == [] then 0 else lengths[0] + Total(lengths[1..])
  }

  function TotalEncoded(lengths: seq<nat>): nat {
    if lengths == [] then 0 else EncodedLen(lengths[0]) + TotalEncoded(lengths[1..])
  }

  lemma {:induction false} PartsBound(lengths: seq<nat>)
    ensures 3 * TotalEncoded(lengths) <= 4 * (Total(lengths) + 2 * |lengths|)
  {
    if lengths != [] {
      PartsBound(lengths[1..]);
    }
  }

  /**
    Images encoded one by one need more room than one encoding of their combined length, by 4 bytes for every
    two of three images at the most: 40 bytes for the 16 images a request may carry.
   */
  lemma SeparateImages(lengths: seq<nat>)
    ensures TotalEncoded(lengths) <= EncodedLen(Total(lengths)) + 4 * (2 * |lengths| / 3)
    ensures |lengths| <= 16 ==> TotalEncoded(lengths) <= EncodedLen(Total(lengths)) + 40
  {
    hide Total, TotalEncoded, EncodedLen;
    PartsBound(lengths);
    QuadsOnly(lengths);
    QuadCount(TotalEncoded(lengths) / 4, Total(lengths), |lengths|);
  }

  lemma QuadCount(quads: nat, total: nat, n: nat)
    requires 3 * quads <= total + 2 * n
    ensures 4 * quads <= EncodedLen(total) + 4 * (2 * n / 3)
  {
  }

  lemma {:induction false} QuadsOnly(lengths: seq<nat>)
    ensures TotalEncoded(lengths) % 4 == 0
  {
    if lengths != [] {
      QuadsOnly(lengths[1..]);
    }
  }

  /** The bound is met: sixteen images of one byte need 64 symbols where a combined one needs 24. */
  lemma SeparateImagesTight()
    ensures exists lengths: seq<nat> :: |lengths| == 16 && TotalEncoded(lengths) == EncodedLen(Total(lengths)) + 40
  {
    var lengths: seq<nat> := Ones(16);
    OnesTotal(16);
    assert TotalEncoded(lengths) == EncodedLen(Total(lengths)) + 40;
  }

  function Ones(n: nat): seq<nat> {
    if n == 0 then [] else [1] + Ones(n - 1)
  }

  lemma {:induction false} OnesTotal(n: nat)
    ensures |Ones(n)| == n && Total(Ones(n)) == n && TotalEncoded(Ones(n)) == 4 * n
  {
    if n > 0 {
      OnesTotal(n - 1);
      assert Ones(n)[1..] == Ones(n - 1);
    }
  }

  /** The alphabet, in order. */
  lemma Alphabet(digit: nat)
    requires digit < 64
    ensures 0 <= digit < 26 ==> Symbol(digit) == 'A' as int + digit
    ensures 26 <= digit < 52 ==> Symbol(digit) == 'a' as int + digit - 26
    ensures 52 <= digit < 62 ==> Symbol(digit) == '0' as int + digit - 52
    ensures Symbol(62) == '+' as int && Symbol(63) == '/' as int && PAD == '=' as int
  {
  }

  /** Digit by digit, the text is the bits of the bytes, six at a time. */
  lemma SixBits(a: Byte, b: Byte, c: Byte)
    ensures Encode([a, b, c]) == [Symbol(a / 4), Symbol(a % 4 * 16 + b / 16), Symbol(b % 16 * 4 + c / 64), Symbol(c % 64)]
    ensures Encode([a, b]) == [Symbol(a / 4), Symbol(a % 4 * 16 + b / 16), Symbol(b % 16 * 4), PAD]
    ensures Encode([a]) == [Symbol(a / 4), Symbol(a % 4 * 16), PAD, PAD]
  {
    GroupDigits(a, b, c);
    GroupDigits(a, b, 0);
    GroupDigits(a, 0, 0);
    hide Group, Symbol;
    assert [a, b, c][3..] == [];
  }

  lemma GroupDigits(a: int, b: int, c: int)
    requires 0 <= a < 256 && 0 <= b < 256 && 0 <= c < 256
    ensures var group := Group(a, b, c);
            && group / 0x4_0000 == a / 4 && group / 0x1000 % 64 == a % 4 * 16 + b / 16
            && group / 64 % 64 == b % 16 * 4 + c / 64 && group % 64 == c % 64
  {
    var group := Group(a, b, c);
    var high, low := a * 16 + b / 16, b % 16 * 256 + c;
    assert group == high * 0x1000 + low && 0 <= low < 0x1000;
    assert group / 0x1000 == high;
    assert high == a / 4 * 64 + (a % 4 * 16 + b / 16);
    assert group / 0x4_0000 == high / 64;
    LowDigits(high, low, b, c);
  }

  lemma LowDigits(high: nat, low: nat, b: int, c: int)
    requires 0 <= b < 256 && 0 <= c < 256 && low == b % 16 * 256 + c
    ensures (high * 0x1000 + low) / 64 % 64 == b % 16 * 4 + c / 64
    ensures (high * 0x1000 + low) % 64 == c % 64
  {
    assert low == 64 * (b % 16 * 4 + c / 64) + c % 64;
    assert (high * 0x1000 + low) / 64 == high * 64 + (b % 16 * 4 + c / 64);
  }
}
