/** The padded URL-safe base64 of section 5 of RFC 4648, with the decoder's treatment of line breaks. */
module Base64 {
  import opened Domain

  type Byte = b: int | 0 <= b < 256

  const PAD: Byte := '=' as int
  const CARRIAGE_RETURN: Byte := '\r' as int
  const NEWLINE: Byte := '\n' as int

  /** The character of a 6-bit value. */
  function Symbol(v: int): Byte
    requires 0 <= v < 64
  {
    if v < 26 then 'A' as int + v
    else if v < 52 then 'a' as int + v - 26
    else if v < 62 then '0' as int + v - 52
    else if v == 62 then '-' as int
    else '_' as int
  }

  /** The 6-bit value of a character; padding and everything else have none. */
  function ValueOf(b: Byte): (v: Option<int>)
    ensures v.Some? ==> 0 <= v.value < 64
  {
    if 'A' as int <= b <= 'Z' as int then Some(b - 'A' as int)
    else if 'a' as int <= b <= 'z' as int then Some(b - 'a' as int + 26)
    else if '0' as int <= b <= '9' as int then Some(b - '0' as int + 52)
    else if b == '-' as int then Some(62)
    else if b == '_' as int then Some(63)
    else None
  }

  function Encode(s: seq<Byte>): (r: seq<Byte>)
    ensures |r| == (|s| + 2) / 3 * 4
  {
    if |s| == 0 then []
    else if |s| == 1 then [Symbol(s[0] / 4), Symbol(s[0] % 4 * 16), PAD, PAD]
    else if |s| == 2 then [Symbol(s[0] / 4), Symbol(s[0] % 4 * 16 + s[1] / 16), Symbol(s[1] % 16 * 4), PAD]
    else [Symbol(s[0] / 4), Symbol(s[0] % 4 * 16 + s[1] / 16), Symbol(s[1] % 16 * 4 + s[2] / 64), Symbol(s[2] % 64)]
         + Encode(s[3..])
  }

  function WithoutLineBreaks(s: seq<Byte>): seq<Byte> {
    if s == [] then []
    else if s[0] == CARRIAGE_RETURN || s[0] == NEWLINE then WithoutLineBreaks(s[1..])
    else [s[0]] + WithoutLineBreaks(s[1..])
  }

  /** The bytes of up to four symbols' worth of bits; the bits left over in a short last group are ignored. */
  function ThreeBytes(a: int, b: int, c: int, d: int): seq<Byte>
    requires 0 <= a < 64 && 0 <= b < 64 && 0 <= c < 64 && 0 <= d < 64
  {
    [a * 4 + b / 16, b % 16 * 16 + c / 4, c % 4 * 64 + d]
  }

  function DecodeGroups(s: seq<Byte>): Option<seq<Byte>> {
    if |s| == 0 then Some([])
    else if |s| < 4 || ValueOf(s[0]).None? || ValueOf(s[1]).None? then None
    else
      var a, b := ValueOf(s[0]).value, ValueOf(s[1]).value;
      if s[2] == PAD then
        if s[3] == PAD && |s| == 4 then Some(ThreeBytes(a, b, 0, 0)[..1]) else None
      else if ValueOf(s[2]).None? then None
      else if s[3] == PAD then
        if |s| == 4 then Some(ThreeBytes(a, b, ValueOf(s[2]).value, 0)[..2]) else None
      else if ValueOf(s[3]).None? then None
      else match DecodeGroups(s[4..])
        case None => None
        case Some(rest) => Some(ThreeBytes(a, b, ValueOf(s[2]).value, ValueOf(s[3]).value) + rest)
  }

  function Decode(s: seq<Byte>): Option<seq<Byte>> {
    DecodeGroups(WithoutLineBreaks(s))
  }

  lemma SymbolRoundTrip(v: int)
    requires 0 <= v < 64
    ensures ValueOf(Symbol(v)) == Some(v) && Symbol(v) != PAD
    ensures Symbol(v) != CARRIAGE_RETURN && Symbol(v) != NEWLINE
  {
  }

  lemma GroupRoundTrip(x: Byte, y: Byte, z: Byte)
    ensures ThreeBytes(x / 4, x % 4 * 16 + y / 16, y % 16 * 4 + z / 64, z % 64) == [x, y, z]
  {
  }

  lemma {:induction false} EncodingIsOneLine(s: seq<Byte>, k: nat)
    requires k < |Encode(s)|
    ensures Encode(s)[k] != CARRIAGE_RETURN && Encode(s)[k] != NEWLINE
  {
    if k >= 4 {
      EncodingIsOneLine(s[3..], k - 4);
    }
  }

  lemma {:induction false} OneLineStays(s: seq<Byte>)
    requires forall k | 0 <= k < |s| :: s[k] != CARRIAGE_RETURN && s[k] != NEWLINE
    ensures WithoutLineBreaks(s) == s
  {
    if s != [] {
      OneLineStays(s[1..]);
    }
  }

  lemma LastByte(x: Byte)
    ensures DecodeGroups(Encode([x])) == Some([x])
  {
    hide Symbol, ValueOf, ThreeBytes;
    SymbolRoundTrip(x / 4);
    SymbolRoundTrip(x % 4 * 16);
    GroupRoundTrip(x, 0, 0);
    assert [x, 0, 0][..1] == [x];
  }

  lemma LastTwoBytes(x: Byte, y: Byte)
    ensures DecodeGroups(Encode([x, y])) == Some([x, y])
  {
    hide Symbol, ValueOf, ThreeBytes;
    SymbolRoundTrip(x / 4);
    SymbolRoundTrip(x % 4 * 16 + y / 16);
    SymbolRoundTrip(y % 16 * 4);
    GroupRoundTrip(x, y, 0);
    assert [x, y, 0][..2] == [x, y];
  }

  lemma {:induction false} GroupsRoundTrip(s: seq<Byte>)
    ensures DecodeGroups(Encode(s)) == Some(s)
  {
    hide Symbol, ValueOf, ThreeBytes;
    if |s| == 0 {
    } else if |s| == 1 {
      assert s == [s[0]];
      LastByte(s[0]);
    } else if |s| == 2 {
      assert s == [s[0], s[1]];
      LastTwoBytes(s[0], s[1]);
    } else {
      GroupRoundTrip(s[0], s[1], s[2]);
      SymbolRoundTrip(s[0] / 4);
      SymbolRoundTrip(s[0] % 4 * 16 + s[1] / 16);
      SymbolRoundTrip(s[1] % 16 * 4 + s[2] / 64);
      SymbolRoundTrip(s[2] % 64);
      GroupsRoundTrip(s[3..]);
      var e := Encode(s);
      assert e[4..] == Encode(s[3..]);
      assert s == [s[0], s[1], s[2]] + s[3..];
    }
  }

  /** Decoding gives back exactly the bytes that were encoded. */
  lemma Base64RoundTrip(s: seq<Byte>)
    ensures Decode(Encode(s)) == Some(s)
  {
    forall k | 0 <= k < |Encode(s)|
      ensures Encode(s)[k] != CARRIAGE_RETURN && Encode(s)[k] != NEWLINE
    {
      EncodingIsOneLine(s, k);
    }
    OneLineStays(Encode(s));
    GroupsRoundTrip(s);
  }

  // ---------------------------------------------------------------------------------------------
  // The encoding, character by character
  // ---------------------------------------------------------------------------------------------

  /** The URL-safe alphabet: table 2 of RFC 4648. */
  lemma UrlSafeAlphabet(v: int)
    requires 0 <= v < 64
    ensures Symbol(v) == (if v < 26 then "ABCDEFGHIJKLMNOPQRSTUVWXYZ"[v]
                          else if v < 52 then "abcdefghijklmnopqrstuvwxyz"[v - 26]
                          else "0123456789-_"[v - 52]) as int
  {
  }

  lemma BitsOf(a: int, b: int, c: int, d: int, e: int, f: int, n: int)
    requires 0 <= a < 64 && 0 <= b < 4 && 0 <= c < 16 && 0 <= d < 16 && 0 <= e < 4 && 0 <= f < 64
    requires n == 262144 * a + 65536 * b + 4096 * c + 256 * d + 64 * e + f
    ensures n / 262144 == a && n / 4096 % 64 == 16 * b + c && n / 64 % 64 == 4 * d + e && n % 64 == f
  {
    assert n / 4096 == 64 * a + 16 * b + c;
    assert n / 64 == 4096 * a + 1024 * b + 64 * c + 4 * d + e;
  }

  lemma Bits(x: Byte, y: Byte, z: Byte, n: int)
    requires n == x * 65536 + y * 256 + z
    ensures n / 262144 == x / 4 && n / 4096 % 64 == x % 4 * 16 + y / 16
    ensures n / 64 % 64 == y % 16 * 4 + z / 64 && n % 64 == z % 64
  {
    var a, b, c, d, e, f := x / 4, x % 4, y / 16, y % 16, z / 64, z % 64;
    assert x == 4 * a + b && y == 16 * c + d && z == 64 * e + f;
    BitsOf(a, b, c, d, e, f, n);
  }

  /** Three bytes are 24 bits, most significant first, and become four 6-bit symbols. */
  lemma EncodesInGroups(x: Byte, y: Byte, z: Byte, rest: seq<Byte>, n: int)
    requires n == x * 65536 + y * 256 + z
    ensures 0 <= n / 262144 < 64
    ensures Encode([x, y, z] + rest) == [Symbol(n / 262144), Symbol(n / 4096 % 64), Symbol(n / 64 % 64), Symbol(n % 64)] + Encode(rest)
  {
    hide Symbol;
    Bits(x, y, z, n);
    assert ([x, y, z] + rest)[3..] == rest;
  }

  /** One or two bytes left over are padded. */
  lemma EncodesTheRest(x: Byte, y: Byte, n: int)
    requires n == x * 65536 + y * 256
    ensures 0 <= x * 65536 / 262144 < 64 && 0 <= n / 262144 < 64
    ensures Encode([]) == []
    ensures Encode([x]) == [Symbol(x * 65536 / 262144), Symbol(x * 65536 / 4096 % 64), '=' as int, '=' as int]
    ensures Encode([x, y]) == [Symbol(n / 262144), Symbol(n / 4096 % 64), Symbol(n / 64 % 64), '=' as int]
  {
    hide Symbol;
    Bits(x, y, 0, n);
    Bits(x, 0, 0, x * 65536);
  }

  lemma {:induction false} BreakDropped(s: seq<Byte>, i: nat, b: Byte)
    requires i <= |s| && (b == 13 || b == 10)
    ensures WithoutLineBreaks(s[..i] + [b] + s[i..]) == WithoutLineBreaks(s)
  {
    var t := s[..i] + [b] + s[i..];
    if i == 0 {
      assert t[1..] == s;
    } else {
      assert t[1..] == s[1..][..i - 1] + [b] + s[1..][i - 1..];
      BreakDropped(s[1..], i - 1, b);
    }
  }

  /** Carriage returns and newlines anywhere in the input are skipped. */
  lemma LineBreaksAreIgnored(s: seq<Byte>, i: nat, b: Byte)
    requires i <= |s| && (b == 13 || b == 10)
    ensures Decode(s[..i] + [b] + s[i..]) == Decode(s)
  {
    BreakDropped(s, i, b);
  }

  lemma {:induction false} OthersKept(s: seq<Byte>, b: Byte)
    requires b in s && b != 13 && b != 10
    ensures b in WithoutLineBreaks(s)
  {
    if s[0] != b {
      OthersKept(s[1..], b);
    }
  }

  lemma {:induction false} GroupsOfSymbols(s: seq<Byte>, b: Byte)
    requires b in s && DecodeGroups(s).Some?
    ensures b == PAD || ValueOf(b).Some?
  {
    if b !in s[..4] {
      assert s == s[..4] + s[4..];
      GroupsOfSymbols(s[4..], b);
    } else {
      var k :| 0 <= k < 4 && s[k] == b;
    }
  }

  /** Any other character, the '+' and '/' of the standard alphabet included, makes the input invalid. */
  lemma ForeignCharactersFail(s: seq<Byte>, b: Byte)
    requires b in s && Decode(s).Some?
    ensures b in {13, 10, '=' as int, '-' as int, '_' as int}
            || 'A' as int <= b <= 'Z' as int || 'a' as int <= b <= 'z' as int || '0' as int <= b <= '9' as int
  {
    if b != 13 && b != 10 {
      OthersKept(s, b);
      GroupsOfSymbols(WithoutLineBreaks(s), b);
    }
  }
}
