/** UTF-8 after RFC 3629: decoding byte by byte, with the errors that a strict decoder reports. */
module Utf8 {
  import opened Bytes

  function CharSize(c: char): (n: nat)
    ensures 1 <= n <= 4
  {
    if c < '\U{80}' then 1 else if c < '\U{800}' then 2 else if c < '\U{10000}' then 3 else 4
  }

  /** Length in UTF-8. */
  function Size(s: string): (n: nat)
    ensures |s| <= n
  {
    if s == "" then 0 else CharSize(s[0]) + Size(s[1..])
  }

  /** What the bytes start with: a character of so many bytes, so many bytes to skip, or too few to tell. */
  datatype Start = Char(c: char, len: nat) | Bad(len: nat) | Incomplete

  predicate Tail(b: Byte) {
    0x80 <= b <= 0xBF
  }

  /** The second byte rules out overlong forms, surrogates and what lies beyond U+10FFFF. */
  predicate Second(first: Byte, b: Byte) {
    if first == 0xE0 then 0xA0 <= b <= 0xBF
    else if first == 0xED then 0x80 <= b <= 0x9F
    else if first == 0xF0 then 0x90 <= b <= 0xBF
    else if first == 0xF4 then 0x80 <= b <= 0x8F
    else Tail(b)
  }

  function Width(first: Byte): nat {
    if first < 0x80 then 1
    else if 0xC2 <= first <= 0xDF then 2
    else if 0xE0 <= first <= 0xEF then 3
    else if 0xF0 <= first <= 0xF4 then 4
    else 0
  }

  function CodePoint(s: Bytes): (n: int)
    requires s != [] && Width(s[0]) == |s| && (|s| > 1 ==> Second(s[0], s[1])) && forall i :: 1 <= i < |s| ==> Tail(s[i])
    ensures 0 <= n < 0xD800 || 0xE000 <= n < 0x11_0000
  {
    match |s|
    case 1 => s[0]
    case 2 => (s[0] as int - 0xC0) * 64 + (s[1] as int - 0x80)
    case 3 =>
      assert Tail(s[1]) && Tail(s[2]);
      assert s[0] <= 0xEC || (s[0] == 0xED && s[1] <= 0x9F) || s[0] >= 0xEE;
      (s[0] as int - 0xE0) * 4096 + (s[1] as int - 0x80) * 64 + (s[2] as int - 0x80)
    case _ =>
      assert Tail(s[1]) && Tail(s[2]) && Tail(s[3]);
      assert (s[0] == 0xF0 && s[1] >= 0x90) || 0xF1 <= s[0] <= 0xF3 || (s[0] == 0xF4 && s[1] <= 0x8F);
      (s[0] as int - 0xF0) * 262144 + (s[1] as int - 0x80) * 4096 + (s[2] as int - 0x80) * 64 + (s[3] as int - 0x80)
  }

  function First(s: Bytes): (start: Start)
    requires s != []
    ensures !start.Incomplete? ==> 1 <= start.len <= |s|
  {
    var width := Width(s[0]);
    if width == 0 then Bad(1)
    else if width == 1 then Char(CodePoint(s[..1]) as char, 1)
    else if |s| == 1 then Incomplete
    else if !Second(s[0], s[1]) then Bad(1)
    else if width == 2 then Char(CodePoint(s[..2]) as char, 2)
    else if |s| == 2 then Incomplete
    else if !Tail(s[2]) then Bad(2)
    else if width == 3 then Char(CodePoint(s[..3]) as char, 3)
    else if |s| == 3 then Incomplete
    else if !Tail(s[3]) then Bad(3)
    else Char(CodePoint(s[..4]) as char, 4)
  }

  /** More bytes do not change what the bytes start with, once that can be told. */
  lemma FirstStable(s: Bytes, more: Bytes)
    requires s != [] && !First(s).Incomplete?
    ensures First(s + more) == First(s)
  {
  }

  /** The text of the bytes, without what is not UTF-8. */
  function Text(s: Bytes): string {
    if s == [] then ""
    else
      match First(s)
      case Char(c, n) => [c] + Text(s[n..])
      case Bad(n) => Text(s[n..])
      case Incomplete => ""
  }

  /** The bytes at the end that may yet become a character. */
  function Rest(s: Bytes): Bytes {
    if s == [] then []
    else
      match First(s)
      case Char(_, n) => Rest(s[n..])
      case Bad(n) => Rest(s[n..])
      case Incomplete => s
  }

  /** Decoding piece by piece, with the rest carried over, is decoding the whole. */
  lemma {:induction false} TextInPieces(s: Bytes, more: Bytes)
    ensures Text(s + more) == Text(s) + Text(Rest(s) + more)
    ensures Rest(s + more) == Rest(Rest(s) + more)
    decreases |s|
  {
    hide First;
    if s == [] {
      assert s + more == more;
    } else if First(s).Incomplete? {
      assert Text(s) + Text(Rest(s) + more) == Text(s + more);
    } else {
      FirstStable(s, more);
      var n := First(s).len;
      assert (s + more)[n..] == s[n..] + more;
      TextInPieces(s[n..], more);
      if First(s).Char? {
        assert [First(s).c] + (Text(s[n..]) + Text(Rest(s[n..]) + more)) ==
               ([First(s).c] + Text(s[n..])) + Text(Rest(s[n..]) + more);
      }
    }
  }

  /** How many bytes there are before the first error. */
  function ValidUpTo(s: Bytes): (n: nat)
    ensures n <= |s|
  {
    if s == [] || !First(s).Char? then 0
    else
      var len := First(s).len;
      len + ValidUpTo(s[len..])
  }

  lemma {:induction false} ErrorAtValidUpTo(s: Bytes)
    ensures ValidUpTo(s) < |s| ==> !First(s[ValidUpTo(s)..]).Char?
    decreases |s|
  {
    hide First;
    var v := ValidUpTo(s);
    if v == 0 {
      assert s[0..] == s;
    } else {
      var len := First(s).len;
      ErrorAtValidUpTo(s[len..]);
      assert s[len..][v - len..] == s[v..];
    }
  }

  lemma FirstPrefix(s: Bytes, m: nat)
    requires s != [] && First(s).Char? && First(s).len <= m <= |s|
    ensures First(s[..m]) == First(s)
  {
  }

  lemma {:induction false} NoRestInValid(s: Bytes)
    ensures Rest(s[..ValidUpTo(s)]) == []
    decreases |s|
  {
    hide First;
    if s != [] && First(s).Char? {
      var n := First(s).len;
      var v := ValidUpTo(s);
      FirstPrefix(s, v);
      assert s[..v][n..] == s[n..][..v - n];
      NoRestInValid(s[n..]);
    }
  }

  /** The bytes before the first error decode on their own. */
  lemma TextAtError(s: Bytes)
    ensures var v := ValidUpTo(s);
            Text(s) == Text(s[..v]) + Text(s[v..]) && Rest(s) == Rest(s[v..])
  {
    hide First, Text, Rest;
    var v := ValidUpTo(s);
    NoRestInValid(s);
    assert s == s[..v] + s[v..];
    TextInPieces(s[..v], s[v..]);
    assert [] + s[v..] == s[v..];
  }

  /** A character in UTF-8. */
  function EncodeChar(c: char): (s: Bytes)
    ensures |s| == CharSize(c)
  {
    var n := c as int;
    if n < 0x80 then [n]
    else if n < 0x800 then [0xC0 + n / 64, 0x80 + n % 64]
    else if n < 0x1_0000 then [0xE0 + n / 4096, 0x80 + n / 64 % 64, 0x80 + n % 64]
    else [0xF0 + n / 262144, 0x80 + n / 4096 % 64, 0x80 + n / 64 % 64, 0x80 + n % 64]
  }

  /** What is decoded from an encoded character is that character. */
  lemma FirstOfEncoded(c: char)
    ensures First(EncodeChar(c)) == Char(c, CharSize(c))
  {
    var n := c as int;
    var s := EncodeChar(c);
    assert s[..|s|] == s;
    if n >= 0x1_0000 {
      assert n / 64 / 64 == n / 4096 && n / 4096 / 64 == n / 262144;
    } else if n >= 0x800 {
      assert n / 64 / 64 == n / 4096;
    }
  }

  /** What is decoded as a character is its encoding. */
  lemma FirstIsEncoding(s: Bytes)
    requires s != [] && First(s).Char?
    ensures s[..First(s).len] == EncodeChar(First(s).c)
  {
    var n := First(s).len;
    var t := s[..n];
    assert t[0] == s[0] && (n > 1 ==> t[1] == s[1]) && (n > 2 ==> t[2] == s[2]) && (n > 3 ==> t[3] == s[3]);
    CodePointBytes(t);
  }

  lemma CodePointBytes(t: Bytes)
    requires t != [] && Width(t[0]) == |t| && (|t| > 1 ==> Second(t[0], t[1])) && forall i :: 1 <= i < |t| ==> Tail(t[i])
    ensures EncodeChar(CodePoint(t) as char) == t
  {
    if |t| == 2 {
      assert Tail(t[1]);
      Digits(t[0] as int - 0xC0, t[1] as int - 0x80);
    } else if |t| == 3 {
      ThreeBytes(t);
    } else if |t| == 4 {
      FourBytes(t);
    }
  }

  lemma ThreeBytes(t: Bytes)
    requires |t| == 3 && Width(t[0]) == 3 && Second(t[0], t[1]) && forall i :: 1 <= i < |t| ==> Tail(t[i])
    ensures EncodeChar(CodePoint(t) as char) == t
  {
    assert Tail(t[1]) && Tail(t[2]);
    Digits(t[0] as int - 0xE0, t[1] as int - 0x80);
    Digits((t[0] as int - 0xE0) * 64 + (t[1] as int - 0x80), t[2] as int - 0x80);
  }

  lemma FourBytes(t: Bytes)
    requires |t| == 4 && Width(t[0]) == 4 && Second(t[0], t[1]) && forall i :: 1 <= i < |t| ==> Tail(t[i])
    ensures EncodeChar(CodePoint(t) as char) == t
  {
    assert Tail(t[1]) && Tail(t[2]) && Tail(t[3]);
    Digits(t[0] as int - 0xF0, t[1] as int - 0x80);
    Digits((t[0] as int - 0xF0) * 64 + (t[1] as int - 0x80), t[2] as int - 0x80);
    Digits(((t[0] as int - 0xF0) * 64 + (t[1] as int - 0x80)) * 64 + (t[2] as int - 0x80), t[3] as int - 0x80);
  }

  lemma Digits(high: nat, low: nat)
    requires low < 64
    ensures (high * 64 + low) / 64 == high && (high * 64 + low) % 64 == low
  {
  }

  /** The decoder finds a character exactly where the encoding of one stands. */
  lemma CharIffEncoded(s: Bytes)
    requires s != []
    ensures First(s).Char? <==> exists c :: EncodeChar(c) <= s
  {
    if First(s).Char? {
      FirstIsEncoding(s);
      assert EncodeChar(First(s).c) <= s;
    }
    if c :| EncodeChar(c) <= s {
      var n := |EncodeChar(c)|;
      FirstOfEncoded(c);
      assert s == EncodeChar(c) + s[n..];
      FirstStable(EncodeChar(c), s[n..]);
    }
  }

  /** What is skipped as bad holds no character: none begins at it, nor at any other byte that goes with it. */
  lemma BadSkipsNoChar(s: Bytes, i: nat, c: char)
    requires s != [] && First(s).Bad? && i < First(s).len
    ensures !(EncodeChar(c) <= s[i..])
  {
    if i == 0 {
      assert s[0..] == s;
      CharIffEncoded(s);
    } else {
      assert Tail(s[i]);
      EncodedStart(c);
    }
  }

  lemma EncodedStart(c: char)
    ensures !Tail(EncodeChar(c)[0])
  {
  }
}
