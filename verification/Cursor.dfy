/** The opaque page cursor: a timestamp, a separator and an id, in base64. */
module Cursor {
  import opened Domain
  import opened Base64
  import opened Timestamps

  const SEPARATOR: Byte := '|' as int

  datatype CursorError = NotBase64 | MissingSeparator | BadTimestamp | BadId

  function EncodeCursor(t: nat, id: seq<Byte>): seq<Byte> {
    Encode(Format(t) + [SEPARATOR] + id)
  }

  /** The position of the first separator, or the length when there is none. */
  function FirstSeparator(s: seq<Byte>): (k: nat)
    ensures k <= |s| && (k < |s| ==> s[k] == SEPARATOR) && forall j | 0 <= j < k :: s[j] != SEPARATOR
  {
    if s == [] || s[0] == SEPARATOR then 0 else 1 + FirstSeparator(s[1..])
  }

  /** Splits at the first separator only, so an id may contain more of them. */
  function DecodeCursor(cursor: seq<Byte>): Result<(int, seq<Byte>), CursorError> {
    match Decode(cursor)
    case None => Failure(NotBase64)
    case Some(raw) =>
      var k := FirstSeparator(raw);
      if k == |raw| then Failure(MissingSeparator)
      else match Parse(raw[..k])
        case None => Failure(BadTimestamp)
        case Some(t) => Success((t, raw[k + 1..]))
  }

  lemma EncodingLength(s: seq<Byte>)
    requires s != []
    ensures Encode(s) != []
  {
  }

  /**
   * Every instant of the years 0 to 9999 and every id comes back exactly, whatever bytes the id holds.
   * A cursor is never empty, so it cannot be mistaken for the end of a list.
   */
  lemma CursorRoundTrip(t: int, id: seq<Byte>)
    requires InRange(t)
    ensures DecodeCursor(EncodeCursor(t, id)) == Success((t, id))
    ensures EncodeCursor(t, id) != []
  {
    hide Encode, Decode, Format, Parse;
    var stamp, raw := Format(t), Format(t) + [SEPARATOR] + id;
    Base64RoundTrip(raw);
    TimestampRoundTrip(t);
    NoSeparator(t, SEPARATOR);
    assert raw[|stamp|] == SEPARATOR;
    var k := FirstSeparator(raw);
    assert k == |stamp| && raw[..k] == stamp && raw[k + 1..] == id;
    EncodingLength(raw);
  }

  /** Under the base64 is the timestamp, a vertical bar, and the id. */
  lemma CursorContent(t: int, id: seq<Byte>)
    requires InRange(t)
    ensures Decode(EncodeCursor(t, id)) == Some(Format(t) + ['|' as int] + id)
  {
    hide Encode, Decode, Format;
    Base64RoundTrip(Format(t) + [SEPARATOR] + id);
  }

  lemma {:induction false} FirstBar(s: seq<Byte>, k: nat)
    requires k < |s| && s[k] == '|' as int && forall j | 0 <= j < k :: s[j] != '|' as int
    ensures FirstSeparator(s) == k
  {
    if k > 0 {
      FirstBar(s[1..], k - 1);
    }
  }

  /** A cursor that is no base64, or holds no bar, is refused as such. */
  lemma MalformedCursors(cursor: seq<Byte>)
    ensures DecodeCursor(cursor) == Failure(NotBase64) <==> Decode(cursor).None?
    ensures DecodeCursor(cursor) == Failure(MissingSeparator) <==> Decode(cursor).Some? && '|' as int !in Decode(cursor).value
  {
    hide Decode, Parse;
  }

  /** The first bar separates; what is before it must be a timestamp, and what is after it is the id. */
  lemma SplitsAtFirstBar(cursor: seq<Byte>, stamp: seq<Byte>, id: seq<Byte>)
    requires Decode(cursor) == Some(stamp + ['|' as int] + id) && '|' as int !in stamp
    ensures Parse(stamp).None? ==> DecodeCursor(cursor) == Failure(BadTimestamp)
    ensures Parse(stamp).Some? ==> DecodeCursor(cursor) == Success((Parse(stamp).value, id))
  {
    hide Decode, Parse;
    var raw := stamp + ['|' as int] + id;
    FirstBar(raw, |stamp|);
    assert raw[..|stamp|] == stamp && raw[|stamp| + 1..] == id;
  }

  /** Distinct keys have distinct cursors. */
  lemma CursorsAreInjective(t: int, id: seq<Byte>, t': int, id': seq<Byte>)
    requires InRange(t) && InRange(t') && EncodeCursor(t, id) == EncodeCursor(t', id')
    ensures t == t' && id == id'
  {
    hide EncodeCursor, DecodeCursor;
    CursorRoundTrip(t, id);
    CursorRoundTrip(t', id');
  }

  // ---------------------------------------------------------------------------------------------
  // Ids as 128-bit UUIDs
  // ---------------------------------------------------------------------------------------------

  const UUID_LIMIT: nat := 0x1_0000_0000_0000_0000_0000_0000_0000_0000

  type Uuid = u: nat | u < UUID_LIMIT

  function HexDigit(v: int): Byte
    requires 0 <= v < 16
  {
    if v < 10 then '0' as int + v else 'a' as int + v - 10
  }

  function HexValue(b: Byte): (v: Option<int>)
    ensures v.Some? ==> 0 <= v.value < 16
  {
    if '0' as int <= b <= '9' as int then Some(b - '0' as int)
    else if 'a' as int <= b <= 'f' as int then Some(b - 'a' as int + 10)
    else if 'A' as int <= b <= 'F' as int then Some(b - 'A' as int + 10)
    else None
  }

  function Hex(n: nat, width: nat): (s: seq<Byte>)
    ensures |s| == width
  {
    if width == 0 then [] else Hex(n / 16, width - 1) + [HexDigit(n % 16)]
  }

  function ParseHex(s: seq<Byte>): Option<nat> {
    if s == [] then Some(0)
    else match ParseHex(s[..|s| - 1])
      case None => None
      case Some(x) =>
        match HexValue(s[|s| - 1])
        case None => None
        case Some(v) => Some(16 * x + v)
  }

  function Pow16(k: nat): (p: nat)
    ensures p > 0
  {
    if k == 0 then 1 else 16 * Pow16(k - 1)
  }

  lemma {:induction false} HexRoundTrip(n: nat, width: nat)
    requires n < Pow16(width)
    ensures ParseHex(Hex(n, width)) == Some(n)
  {
    if width > 0 {
      HexRoundTrip(n / 16, width - 1);
      var s := Hex(n, width);
      assert s[..|s| - 1] == Hex(n / 16, width - 1);
    }
  }

  lemma {:induction false} ParseHexBound(s: seq<Byte>)
    ensures ParseHex(s).Some? ==> ParseHex(s).value < Pow16(|s|)
  {
    if s != [] {
      ParseHexBound(s[..|s| - 1]);
    }
  }

  lemma UuidLimit()
    ensures Pow16(32) == UUID_LIMIT
  {
    assert Pow16(4) == 0x1_0000;
    assert Pow16(8) == 0x1_0000 * Pow16(4);
    assert Pow16(12) == 0x1_0000 * Pow16(8);
    assert Pow16(16) == 0x1_0000 * Pow16(12);
    assert Pow16(20) == 0x1_0000 * Pow16(16);
    assert Pow16(24) == 0x1_0000 * Pow16(20);
    assert Pow16(28) == 0x1_0000 * Pow16(24);
    assert Pow16(32) == 0x1_0000 * Pow16(28);
  }

  /** The canonical 8-4-4-4-12 form. */
  function UuidToString(u: Uuid): (s: seq<Byte>)
    ensures |s| == 36
  {
    var h := Hex(u, 32);
    h[..8] + [DASH] + h[8..12] + [DASH] + h[12..16] + [DASH] + h[16..20] + [DASH] + h[20..]
  }

  /** The hex digits of 36 characters (whatever separates the groups) or of 32. */
  function ParseUuid(s: seq<Byte>): Result<Uuid, CursorError> {
    var h := if |s| == 36 then s[..8] + s[9..13] + s[14..18] + s[19..23] + s[24..] else s;
    ParseHexBound(h);
    UuidLimit();
    if |h| == 32 && ParseHex(h).Some? then Success(ParseHex(h).value) else Failure(BadId)
  }

  lemma UuidRoundTrip(u: Uuid)
    ensures ParseUuid(UuidToString(u)) == Success(u)
  {
    hide Hex, ParseHex;
    var h, s := Hex(u, 32), UuidToString(u);
    assert s[..8] == h[..8] && s[9..13] == h[8..12] && s[14..18] == h[12..16] && s[19..23] == h[16..20] && s[24..] == h[20..];
    assert s[..8] + s[9..13] + s[14..18] + s[19..23] + s[24..] == h;
    UuidLimit();
    HexRoundTrip(u, 32);
  }

  // ---------------------------------------------------------------------------------------------
  // The canonical form, character by character
  // ---------------------------------------------------------------------------------------------

  lemma DivideTwice(n: nat, p: nat)
    requires p > 0
    ensures n / 16 / p == n / (16 * p)
  {
    var d := 16 * p;
    var q := n / d;
    var w := p * q;
    assert n == d * q + n % d && d * q == 16 * w;
    QuotientIs(n / 16, p, q);
  }

  lemma {:induction false} DigitOfHex(n: nat, width: nat, k: nat)
    requires k < width
    ensures Hex(n, width)[k] == "0123456789abcdef"[n / Pow16(width - 1 - k) % 16] as int
  {
    if k < width - 1 {
      DigitOfHex(n / 16, width - 1, k);
      var p := Pow16(width - 2 - k);
      assert Pow16(width - 1 - k) == 16 * p;
      DivideTwice(n, p);
    } else {
      assert Pow16(0) == 1;
    }
  }

  /** Thirty-two lower-case hex digits, most significant first, with hyphens after the 8th, 12th, 16th and 20th. */
  lemma CanonicalForm(u: Uuid, k: nat)
    requires k < 36
    ensures UuidToString(u)[k] ==
            if k in {8, 13, 18, 23} then '-' as int
            else var digit := if k < 8 then k else if k < 13 then k - 1 else if k < 18 then k - 2 else if k < 23 then k - 3 else k - 4;
                 "0123456789abcdef"[u / Pow16(31 - digit) % 16] as int
  {
    hide Hex;
    if k !in {8, 13, 18, 23} {
      var digit := if k < 8 then k else if k < 13 then k - 1 else if k < 18 then k - 2 else if k < 23 then k - 3 else k - 4;
      DigitOfHex(u, 32, digit);
      assert UuidToString(u)[k] == Hex(u, 32)[digit];
    }
  }
}
