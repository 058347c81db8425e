/**
 * The timestamps of section 5.6 of RFC 3339 with up to nine fractional digits, as Go's RFC3339Nano
 * layout prints them in UTC and its fast path parses them. An instant counts nanoseconds from the
 * start of year 0 of the proleptic Gregorian calendar.
 */
module Timestamps {
  import opened Domain
  import opened Base64

  const DAY_SECONDS: int := 86_400
  const MAX_YEAR: nat := 9999

  // ---------------------------------------------------------------------------------------------
  // The calendar
  // ---------------------------------------------------------------------------------------------

  predicate IsLeap(year: nat) {
    year % 4 == 0 && (year % 100 != 0 || year % 400 == 0)
  }

  function DaysInYear(year: nat): nat {
    if IsLeap(year) then 366 else 365
  }

  function DaysIn(month: nat, year: nat): nat {
    if month == 2 then (if IsLeap(year) then 29 else 28)
    else if month in {4, 6, 9, 11} then 30
    else 31
  }

  function DaysBeforeYear(year: nat): nat {
    if year == 0 then 0 else DaysBeforeYear(year - 1) + DaysInYear(year - 1)
  }

  /** Days of `year` before its month `month`. */
  function DaysBeforeMonth(month: nat, year: nat): nat {
    if month <= 1 then 0 else DaysBeforeMonth(month - 1, year) + DaysIn(month - 1, year)
  }

  datatype Civil = Civil(year: nat, month: nat, day: nat, hour: nat, minute: nat, second: nat, nanos: nat)

  ghost predicate IsCivil(c: Civil) {
    && 1 <= c.month <= 12 && 1 <= c.day <= DaysIn(c.month, c.year)
    && c.hour < 24 && c.minute < 60 && c.second < 60 && c.nanos < SECOND
  }

  function InstantOf(c: Civil): int {
    var days := DaysBeforeYear(c.year) + DaysBeforeMonth(c.month, c.year) + c.day - 1;
    (days * DAY_SECONDS + c.hour * 3600 + c.minute * 60 + c.second) * SECOND + c.nanos
  }

  /** The year `days` days after the start of `year`, and the days into that year. */
  function YearAfter(days: nat, year: nat): (r: (nat, nat))
    ensures r.1 < DaysInYear(r.0) && DaysBeforeYear(r.0) + r.1 == DaysBeforeYear(year) + days
  {
    if days < DaysInYear(year) then (year, days) else YearAfter(days - DaysInYear(year), year + 1)
  }

  lemma {:induction false} MonthsFillTheYear(year: nat)
    ensures DaysBeforeMonth(13, year) == DaysInYear(year)
  {
    assert DaysBeforeMonth(2, year) == 31;
    assert DaysBeforeMonth(3, year) == 31 + DaysIn(2, year);
    assert DaysBeforeMonth(5, year) == DaysBeforeMonth(3, year) + 61;
    assert DaysBeforeMonth(7, year) == DaysBeforeMonth(5, year) + 61;
    assert DaysBeforeMonth(9, year) == DaysBeforeMonth(7, year) + 62;
    assert DaysBeforeMonth(11, year) == DaysBeforeMonth(9, year) + 61;
  }

  /** The month that day `days` of the year falls in, from `month` on, and the days into that month. */
  function MonthAfter(days: nat, month: nat, year: nat): (r: (nat, nat))
    requires 1 <= month <= 12 && days < DaysBeforeMonth(13, year) - DaysBeforeMonth(month, year)
    ensures 1 <= r.0 <= 12 && r.1 < DaysIn(r.0, year)
    ensures DaysBeforeMonth(r.0, year) + r.1 == DaysBeforeMonth(month, year) + days
    decreases 12 - month
  {
    if days < DaysIn(month, year) then (month, days)
    else
      assert DaysBeforeMonth(month + 1, year) == DaysBeforeMonth(month, year) + DaysIn(month, year);
      MonthAfter(days - DaysIn(month, year), month + 1, year)
  }

  function CivilOf(t: nat): (c: Civil)
    ensures IsCivil(c) && InstantOf(c) == t
  {
    var seconds, nanos := t / SECOND, t % SECOND;
    var days, clock := seconds / DAY_SECONDS, seconds % DAY_SECONDS;
    var (year, ofYear) := YearAfter(days, 0);
    MonthsFillTheYear(year);
    var (month, ofMonth) := MonthAfter(ofYear, 1, year);
    Civil(year, month, ofMonth + 1, clock / 3600, clock / 60 % 60, clock % 60, nanos)
  }

  // ---------------------------------------------------------------------------------------------
  // Numbers
  // ---------------------------------------------------------------------------------------------

  function Pow10(k: nat): nat {
    if k == 0 then 1 else 10 * Pow10(k - 1)
  }

  predicate IsDigit(b: Byte) {
    '0' as int <= b <= '9' as int
  }

  /** The last `width` decimal digits of a number. */
  function Digits(n: nat, width: nat): (s: seq<Byte>)
    ensures |s| == width && forall k | 0 <= k < width :: IsDigit(s[k])
  {
    if width == 0 then [] else Digits(n / 10, width - 1) + ['0' as int + n % 10]
  }

  function ParseUint(s: seq<Byte>): Option<nat> {
    if s == [] then Some(0)
    else
      var last := s[|s| - 1];
      match ParseUint(s[..|s| - 1])
      case None => None
      case Some(x) => if IsDigit(last) then Some(10 * x + last - '0' as int) else None
  }

  /** A number within bounds. */
  function ParseIn(s: seq<Byte>, lo: nat, hi: nat): Option<nat> {
    match ParseUint(s)
    case None => None
    case Some(x) => if lo <= x <= hi then Some(x) else None
  }

  lemma {:induction false} ParseDigits(n: nat, width: nat)
    requires n < Pow10(width)
    ensures ParseUint(Digits(n, width)) == Some(n)
  {
    if width > 0 {
      ParseDigits(n / 10, width - 1);
      var s := Digits(n, width);
      assert s[..|s| - 1] == Digits(n / 10, width - 1);
    }
  }

  // ---------------------------------------------------------------------------------------------
  // Fractions of a second
  // ---------------------------------------------------------------------------------------------

  const DOT: Byte := '.' as int

  function TrimZeros(s: seq<Byte>): (r: seq<Byte>)
    ensures |r| <= |s| && r == s[..|r|]
  {
    if s != [] && s[|s| - 1] == '0' as int then TrimZeros(s[..|s| - 1]) else s
  }

  /** The fraction without trailing zeros, and nothing at all for a whole second. */
  function Fraction(nanos: nat): seq<Byte> {
    var digits := TrimZeros(Digits(nanos, 9));
    if digits == [] then [] else [DOT] + digits
  }

  /** The number of digits `s` starts with. */
  function DigitRun(s: seq<Byte>): (n: nat)
    ensures n <= |s|
  {
    if s != [] && IsDigit(s[0]) then 1 + DigitRun(s[1..]) else 0
  }

  /** The nanoseconds of a fraction's digits; digits after the ninth are ignored. */
  function NanosOf(digits: seq<Byte>): Option<nat> {
    var kept := if |digits| > 9 then digits[..9] else digits;
    match ParseUint(kept)
    case None => None
    case Some(x) => Some(x * Pow10(9 - |kept|))
  }

  /** A fraction at the start of `s`, if there is one, and what follows. */
  function ParseFraction(s: seq<Byte>): (Option<nat>, seq<Byte>) {
    if |s| >= 2 && s[0] == DOT && IsDigit(s[1]) then
      var n := DigitRun(s[1..]);
      (NanosOf(s[1..][..n]), s[1..][n..])
    else (Some(0), s)
  }

  lemma Regroup(x: int, p: int)
    ensures x * (10 * p) == 10 * x * p
  {
  }

  lemma {:induction false} AllDigitsParse(s: seq<Byte>)
    requires forall k | 0 <= k < |s| :: IsDigit(s[k])
    ensures ParseUint(s).Some?
  {
    if s != [] {
      AllDigitsParse(s[..|s| - 1]);
    }
  }

  lemma {:induction false} TrimmedNanos(s: seq<Byte>)
    requires |s| <= 9 && forall k | 0 <= k < |s| :: IsDigit(s[k])
    ensures NanosOf(TrimZeros(s)) == NanosOf(s)
  {
    if s != [] && s[|s| - 1] == '0' as int {
      var front := s[..|s| - 1];
      TrimmedNanos(front);
      AllDigitsParse(front);
      Regroup(ParseUint(front).value, Pow10(9 - |s|));
    }
  }

  lemma {:induction false} RunOfDigits(s: seq<Byte>, rest: seq<Byte>)
    requires (forall k | 0 <= k < |s| :: IsDigit(s[k])) && (rest != [] ==> !IsDigit(rest[0]))
    ensures DigitRun(s + rest) == |s|
  {
    if s != [] {
      RunOfDigits(s[1..], rest);
      assert (s + rest)[1..] == s[1..] + rest;
    } else {
      assert s + rest == rest;
    }
  }

  lemma NineDigits()
    ensures Pow10(9) == SECOND && Pow10(2) == 100 && Pow10(4) == 10_000
  {
    assert Pow10(5) == 10 * Pow10(4);
    assert Pow10(7) == 100 * Pow10(5);
  }

  lemma FractionRoundTrip(nanos: nat, rest: seq<Byte>)
    requires nanos < SECOND && rest != [] && !IsDigit(rest[0]) && rest[0] != DOT
    ensures ParseFraction(Fraction(nanos) + rest) == (Some(nanos), rest)
  {
    NineDigits();
    var all := Digits(nanos, 9);
    var digits := TrimZeros(all);
    ParseDigits(nanos, 9);
    TrimmedNanos(all);
    assert NanosOf(all) == Some(nanos);
    if digits == [] {
      assert Fraction(nanos) + rest == rest;
    } else {
      RunOfDigits(digits, rest);
      var s := Fraction(nanos) + rest;
      assert s[1..] == digits + rest;
    }
  }

  // ---------------------------------------------------------------------------------------------
  // Timestamps
  // ---------------------------------------------------------------------------------------------

  const DASH: Byte := '-' as int
  const COLON: Byte := ':' as int
  const LETTER_T: Byte := 'T' as int
  const LETTER_Z: Byte := 'Z' as int

  function DateTime(c: Civil): (s: seq<Byte>)
    ensures |s| == 19
  {
    Digits(c.year, 4) + [DASH] + Digits(c.month, 2) + [DASH] + Digits(c.day, 2) + [LETTER_T]
    + Digits(c.hour, 2) + [COLON] + Digits(c.minute, 2) + [COLON] + Digits(c.second, 2)
  }

  /** The timestamp of an instant in UTC; years have four digits. */
  function Format(t: nat): seq<Byte> {
    var c := CivilOf(t);
    DateTime(c) + Fraction(c.nanos) + [LETTER_Z]
  }

  predicate InRange(t: int) {
    t >= 0 && CivilOf(t).year <= MAX_YEAR
  }

  /** The nanoseconds to subtract for a zone at the end of a timestamp. */
  function ParseZone(s: seq<Byte>): Option<int> {
    if s == [LETTER_Z] then Some(0)
    else if |s| != 6 then None
    else
      var hours, minutes := ParseIn(s[1..3], 0, 23), ParseIn(s[4..6], 0, 59);
      if hours.None? || minutes.None? || !(s[0] == DASH || s[0] == '+' as int) || s[3] != COLON then None
      else
        var offset := (hours.value * 60 + minutes.value) * 60 * SECOND;
        Some(if s[0] == DASH then -offset else offset)
  }

  function ParseDateTime(s: seq<Byte>): Option<Civil>
    requires |s| == 19
  {
    var year, month := ParseIn(s[0..4], 0, MAX_YEAR), ParseIn(s[5..7], 1, 12);
    if year.None? || month.None? then None
    else
      var day := ParseIn(s[8..10], 1, DaysIn(month.value, year.value));
      var hour, minute, second := ParseIn(s[11..13], 0, 23), ParseIn(s[14..16], 0, 59), ParseIn(s[17..19], 0, 59);
      if day.None? || hour.None? || minute.None? || second.None? then None
      else if s[4] == DASH && s[7] == DASH && s[10] == LETTER_T && s[13] == COLON && s[16] == COLON
      then Some(Civil(year.value, month.value, day.value, hour.value, minute.value, second.value, 0))
      else None
  }

  function Parse(s: seq<Byte>): Option<int> {
    if |s| < 19 then None
    else match ParseDateTime(s[..19])
      case None => None
      case Some(c) =>
        var (nanos, zone) := ParseFraction(s[19..]);
        if nanos.None? || ParseZone(zone).None? then None
        else Some(InstantOf(c.(nanos := nanos.value)) - ParseZone(zone).value)
  }

  lemma DateTimeParts(c: Civil)
    ensures var s := DateTime(c);
            && s[0..4] == Digits(c.year, 4) && s[4] == DASH && s[5..7] == Digits(c.month, 2) && s[7] == DASH
            && s[8..10] == Digits(c.day, 2) && s[10] == LETTER_T && s[11..13] == Digits(c.hour, 2) && s[13] == COLON
            && s[14..16] == Digits(c.minute, 2) && s[16] == COLON && s[17..19] == Digits(c.second, 2)
  {
    hide Digits;
  }

  lemma DateTimeRoundTrip(c: Civil)
    requires IsCivil(c) && c.year <= MAX_YEAR
    ensures ParseDateTime(DateTime(c)) == Some(c.(nanos := 0))
  {
    hide DateTime, Digits, ParseUint;
    DateTimeParts(c);
    NineDigits();
    ParseDigits(c.year, 4);
    ParseDigits(c.month, 2);
    ParseDigits(c.day, 2);
    ParseDigits(c.hour, 2);
    ParseDigits(c.minute, 2);
    ParseDigits(c.second, 2);
  }

  /** Every instant of the years 0 to 9999 comes back exactly. */
  lemma TimestampRoundTrip(t: int)
    requires InRange(t)
    ensures Parse(Format(t)) == Some(t)
  {
    hide DateTime, ParseDateTime, Fraction, ParseFraction, InstantOf;
    var c := CivilOf(t);
    var s := Format(t);
    DateTimeRoundTrip(c);
    FractionRoundTrip(c.nanos, [LETTER_Z]);
    assert s[..19] == DateTime(c);
    assert s[19..] == Fraction(c.nanos) + [LETTER_Z];
    assert c.(nanos := 0).(nanos := c.nanos) == c;
  }

  lemma NoSeparatorInFraction(nanos: nat, b: Byte)
    requires !IsDigit(b) && b != DOT
    ensures b !in Fraction(nanos)
  {
    hide Digits;
    assert Fraction(nanos) == [] || Fraction(nanos)[1..] == Digits(nanos, 9)[..|Fraction(nanos)| - 1];
  }

  lemma NoSeparator(t: int, b: Byte)
    requires InRange(t) && !IsDigit(b) && b !in {DASH, COLON, DOT, LETTER_T, LETTER_Z}
    ensures b !in Format(t)
  {
    hide Digits, InstantOf, IsCivil, DaysIn;
    NoSeparatorInFraction(CivilOf(t).nanos, b);
    assert b !in DateTime(CivilOf(t));
    hide DateTime, Fraction;
  }

  // ---------------------------------------------------------------------------------------------
  // The calendar in closed form
  // ---------------------------------------------------------------------------------------------

  lemma NextQuarter(z: nat)
    ensures (z + 4) / 4 == (z + 3) / 4 + if z % 4 == 0 then 1 else 0
  {
  }

  lemma NextCentury(z: nat)
    ensures (z + 100) / 100 == (z + 99) / 100 + if z % 100 == 0 then 1 else 0
  {
    var q, r := z / 100, z % 100;
    assert z == 100 * q + r;
    assert (z + 100) / 100 == q + 1 && (z + 99) / 100 == if r == 0 then q else q + 1;
  }

  lemma NextCycle(z: nat)
    ensures (z + 400) / 400 == (z + 399) / 400 + if z % 400 == 0 then 1 else 0
  {
    var q, r := z / 400, z % 400;
    assert z == 400 * q + r;
    assert (z + 400) / 400 == q + 1 && (z + 399) / 400 == if r == 0 then q else q + 1;
  }

  lemma RemainderOf(w: nat, d: nat, r: nat)
    requires d == 4 || d == 100
    ensures r == 0 ==> (d * w + r) % d == 0
  {
  }

  lemma CenturiesAreQuarters(z: nat)
    ensures z % 100 == 0 ==> z % 4 == 0
    ensures z % 400 == 0 ==> z % 100 == 0
  {
    var q, r := z / 100, z % 100;
    assert z == 4 * (25 * q) + r;
    var p, u := z / 400, z % 400;
    assert z == 100 * (4 * p) + u;
    RemainderOf(25 * q, 4, r);
    RemainderOf(4 * p, 100, u);
  }

  lemma LeapYears(year: nat)
    ensures IsLeap(year) <==> year % 400 == 0 || (year % 4 == 0 && year % 100 != 0)
  {
    CenturiesAreQuarters(year);
  }

  /** Every fourth year has a day more, except three of four centuries. */
  lemma {:induction false} DaysOfYears(year: nat)
    ensures DaysBeforeYear(year) == 365 * year + (year + 3) / 4 - (year + 99) / 100 + (year + 399) / 400
  {
    if year > 0 {
      var z := year - 1;
      DaysOfYears(z);
      NextQuarter(z);
      NextCentury(z);
      NextCycle(z);
      CenturiesAreQuarters(z);
      assert DaysInYear(z) == 365 + (if z % 4 == 0 then 1 else 0) - (if z % 100 == 0 then 1 else 0) + (if z % 400 == 0 then 1 else 0);
    }
  }

  lemma DaysOfMonths(month: nat, year: nat)
    requires 1 <= month <= 12
    ensures DaysIn(month, year) == if month in {1, 3, 5, 7, 8, 10, 12} then 31
                                   else if month != 2 then 30
                                   else if year % 400 == 0 || (year % 4 == 0 && year % 100 != 0) then 29 else 28
  {
    LeapYears(year);
    hide IsLeap;
  }

  /** The Unix epoch, in nanoseconds from the start of year 0. */
  lemma Epoch()
    ensures InstantOf(Civil(1970, 1, 1, 0, 0, 0, 0)) == 62_167_219_200_000_000_000
  {
    DaysOfYears(1970);
    assert DaysBeforeYear(1970) == 719_528;
    hide DaysBeforeYear;
    assert DaysBeforeMonth(1, 1970) == 0;
  }

  lemma {:induction false} YearsInOrder(y: nat, z: nat)
    requires y <= z
    ensures DaysBeforeYear(y) <= DaysBeforeYear(z)
  {
    if y < z {
      YearsInOrder(y, z - 1);
    }
  }

  lemma YearOf(t: nat)
    ensures var days := t / 86_400_000_000_000; DaysBeforeYear(CivilOf(t).year) <= days < DaysBeforeYear(CivilOf(t).year + 1)
  {
    assert t / SECOND / DAY_SECONDS == t / 86_400_000_000_000;
  }

  /** The instants that print with a four-digit year, in nanoseconds. */
  lemma RangeInNanos(t: int)
    ensures InRange(t) <==> 0 <= t < 315_569_520_000_000_000_000
  {
    if t >= 0 {
      var year := CivilOf(t).year;
      YearOf(t);
      hide CivilOf;
      DaysOfYears(10_000);
      assert DaysBeforeYear(10_000) == 3_652_425;
      if year <= 9_999 {
        YearsInOrder(year + 1, 10_000);
      } else {
        YearsInOrder(10_000, year);
      }
    }
  }

  // ---------------------------------------------------------------------------------------------
  // The printed form, character by character
  // ---------------------------------------------------------------------------------------------

  lemma TwoDigits(n: nat)
    requires n < 100
    ensures Digits(n, 2) == ['0' as int + n / 10, '0' as int + n % 10]
  {
    assert Digits(n / 10, 1) == Digits(n / 100, 0) + ['0' as int + n / 10 % 10];
  }

  lemma FourDigits(n: nat)
    requires n < 10_000
    ensures Digits(n, 4) == ['0' as int + n / 1000, '0' as int + n / 100 % 10, '0' as int + n / 10 % 10, '0' as int + n % 10]
  {
    TwoDigits(n / 100);
    assert Digits(n / 10, 3) == Digits(n / 100, 2) + ['0' as int + n / 10 % 10];
  }

  lemma SlicesAgree(s: seq<Byte>, d: seq<Byte>)
    requires |s| >= 19 && |d| == 19 && s[..19] == d
    ensures s[0..4] == d[0..4] && s[5..7] == d[5..7] && s[8..10] == d[8..10]
    ensures s[11..13] == d[11..13] && s[14..16] == d[14..16] && s[17..19] == d[17..19]
    ensures s[4] == d[4] && s[7] == d[7] && s[10] == d[10] && s[13] == d[13] && s[16] == d[16]
  {
  }

  /** The layout of a timestamp: yyyy-mm-ddThh:mm:ss, a fraction, and Z. */
  lemma PrintedLayout(t: nat)
    requires InRange(t)
    ensures var c, s := CivilOf(t), Format(t);
            && |s| >= 20
            && s[4] == s[7] == '-' as int && s[10] == 'T' as int && s[13] == s[16] == ':' as int && s[|s| - 1] == 'Z' as int
            && s[0..4] == ['0' as int + c.year / 1000, '0' as int + c.year / 100 % 10, '0' as int + c.year / 10 % 10, '0' as int + c.year % 10]
            && s[5..7] == ['0' as int + c.month / 10, '0' as int + c.month % 10]
            && s[8..10] == ['0' as int + c.day / 10, '0' as int + c.day % 10]
            && s[11..13] == ['0' as int + c.hour / 10, '0' as int + c.hour % 10]
            && s[14..16] == ['0' as int + c.minute / 10, '0' as int + c.minute % 10]
            && s[17..19] == ['0' as int + c.second / 10, '0' as int + c.second % 10]
            && s[19..|s| - 1] == Fraction(c.nanos)
  {
    hide DateTime, Fraction, Digits, InstantOf, CivilOf;
    var c, s := CivilOf(t), Format(t);
    var d := DateTime(c);
    DateTimeParts(c);
    FourDigits(c.year);
    TwoDigits(c.month);
    TwoDigits(c.day);
    TwoDigits(c.hour);
    TwoDigits(c.minute);
    TwoDigits(c.second);
    assert s[..19] == d && s[19..|s| - 1] == Fraction(c.nanos);
    hide Format;
    SlicesAgree(s, d);
  }

  lemma {:induction false} Multiples(d: nat, p: nat, q: nat)
    requires p < q
    ensures d * p + d <= d * q
  {
    assert d * q == d * (q - 1) + d;
    if p < q - 1 {
      Multiples(d, p, q - 1);
    }
  }

  lemma QuotientIs(x: nat, d: nat, q: nat)
    requires d > 0 && d * q <= x < d * q + d
    ensures x / d == q
  {
    var r := x / d;
    assert x == d * r + x % d;
    if r < q {
      Multiples(d, r, q);
    } else if q < r {
      Multiples(d, q, r);
    }
  }

  lemma TenthOf(n: nat, p: nat)
    requires p > 0
    ensures n / 10 / p == n / (10 * p)
  {
    var d := 10 * p;
    var q := n / d;
    var w := p * q;
    assert n == d * q + n % d && d * q == 10 * w;
    QuotientIs(n / 10, p, q);
  }

  lemma {:induction false} DigitOf(n: nat, width: nat, k: nat)
    requires k < width && n < Pow10(width)
    ensures Pow10(width - 1 - k) > 0 && Digits(n, width)[k] == '0' as int + n / Pow10(width - 1 - k) % 10
  {
    if k < width - 1 {
      DigitOf(n / 10, width - 1, k);
      var p := Pow10(width - 2 - k);
      assert Pow10(width - 1 - k) == 10 * p;
      TenthOf(n, p);
    } else {
      assert Pow10(0) == 1;
    }
  }

  lemma {:induction false} Trimmed(s: seq<Byte>)
    ensures TrimZeros(s) != [] ==> TrimZeros(s)[|TrimZeros(s)| - 1] != '0' as int
    ensures forall k | |TrimZeros(s)| <= k < |s| :: s[k] == '0' as int
  {
    if s != [] && s[|s| - 1] == '0' as int {
      Trimmed(s[..|s| - 1]);
    }
  }

  /** A fraction is a dot and the digits of the nanoseconds up to the last that is not zero, or nothing at all. */
  lemma PrintedFraction(nanos: nat, k: nat)
    requires nanos < 1_000_000_000 && k < 9
    ensures Pow10(8 - k) > 0 && |Fraction(nanos)| <= 10
    ensures Fraction(nanos) != [] ==> Fraction(nanos)[0] == '.' as int && Fraction(nanos)[|Fraction(nanos)| - 1] !in {'0' as int, '.' as int}
    ensures if k + 1 < |Fraction(nanos)| then Fraction(nanos)[k + 1] == '0' as int + nanos / Pow10(8 - k) % 10
            else nanos / Pow10(8 - k) % 10 == 0
  {
    NineDigits();
    DigitOf(nanos, 9, k);
    Trimmed(Digits(nanos, 9));
  }

  // ---------------------------------------------------------------------------------------------
  // What is accepted
  // ---------------------------------------------------------------------------------------------

  lemma {:induction false} ParsedDigits(s: seq<Byte>)
    requires ParseUint(s).Some?
    ensures ParseUint(s).value < Pow10(|s|) && Digits(ParseUint(s).value, |s|) == s
  {
    if s != [] {
      var front, last := s[..|s| - 1], s[|s| - 1];
      ParsedDigits(front);
      var x, digit := ParseUint(front).value, last - '0' as int;
      assert ParseUint(s) == Some(10 * x + digit) && 0 <= digit <= 9;
      hide ParseUint;
      assert (10 * x + digit) / 10 == x && (10 * x + digit) % 10 == digit;
      assert s == front + [last];
    }
  }

  lemma FieldIs(s: seq<Byte>, lo: nat, hi: nat)
    requires ParseIn(s, lo, hi).Some?
    ensures lo <= ParseIn(s, lo, hi).value <= hi && Digits(ParseIn(s, lo, hi).value, |s|) == s
  {
    ParsedDigits(s);
  }

  lemma SameParts(s: seq<Byte>, t: seq<Byte>)
    requires |s| == |t| == 19
    requires s[0..4] == t[0..4] && s[4] == t[4] && s[5..7] == t[5..7] && s[7] == t[7] && s[8..10] == t[8..10] && s[10] == t[10]
    requires s[11..13] == t[11..13] && s[13] == t[13] && s[14..16] == t[14..16] && s[16] == t[16] && s[17..19] == t[17..19]
    ensures s == t
  {
    assert s == s[0..4] + [s[4]] + s[5..7] + [s[7]] + s[8..10] + [s[10]] + s[11..13] + [s[13]] + s[14..16] + [s[16]] + s[17..19];
    assert t == t[0..4] + [t[4]] + t[5..7] + [t[7]] + t[8..10] + [t[10]] + t[11..13] + [t[13]] + t[14..16] + [t[16]] + t[17..19];
  }

  lemma ParsesInZone(t: nat, zone: seq<Byte>)
    requires InRange(t) && ParseZone(zone).Some? && zone != [] && !IsDigit(zone[0]) && zone[0] != DOT
    ensures var c := CivilOf(t); Parse(DateTime(c) + Fraction(c.nanos) + zone) == Some(t - ParseZone(zone).value)
  {
    hide DateTime, ParseDateTime, Fraction, ParseFraction, InstantOf, ParseZone;
    var c := CivilOf(t);
    DateTimeRoundTrip(c);
    FractionRoundTrip(c.nanos, zone);
    var s := DateTime(c) + Fraction(c.nanos) + zone;
    assert s[..19] == DateTime(c);
    assert s[19..] == Fraction(c.nanos) + zone;
    assert c.(nanos := 0).(nanos := c.nanos) == c;
  }

  lemma ZoneIs(zone: seq<Byte>, hours: nat, minutes: nat)
    requires |zone| == 6 && hours <= 23 && minutes <= 59 && (zone[0] == '-' as int || zone[0] == '+' as int) && zone[3] == ':' as int
    requires ParseUint(zone[1..3]) == Some(hours) && ParseUint(zone[4..6]) == Some(minutes)
    ensures var offset := (hours * 3600 + minutes * 60) * 1_000_000_000;
            ParseZone(zone) == Some(if zone[0] == '-' as int then -offset else offset)
  {
    hide ParseUint;
  }

  lemma ZoneOf(sign: Byte, hours: nat, minutes: nat, zone: seq<Byte>)
    requires hours <= 23 && minutes <= 59 && (sign == '-' as int || sign == '+' as int)
    requires zone == [sign, '0' as int + hours / 10, '0' as int + hours % 10, ':' as int, '0' as int + minutes / 10, '0' as int + minutes % 10]
    ensures var offset := (hours * 3600 + minutes * 60) * 1_000_000_000;
            ParseZone(zone) == Some(if sign == '-' as int then -offset else offset)
  {
    NineDigits();
    TwoDigits(hours);
    TwoDigits(minutes);
    ParseDigits(hours, 2);
    ParseDigits(minutes, 2);
    hide Digits, ParseUint, Pow10;
    assert zone[1..3] == Digits(hours, 2) && zone[4..6] == Digits(minutes, 2);
    ZoneIs(zone, hours, minutes);
  }

  /** Exactly the valid dates and times of the years 0 to 9999 are accepted, each in its one printed form. */
  lemma DateTimesExactly(s: seq<Byte>, c: Civil)
    requires |s| == 19 && c.nanos == 0
    ensures ParseDateTime(s) == Some(c) <==> IsCivil(c) && c.year <= 9999 && s == DateTime(c)
  {
    if ParseDateTime(s) == Some(c) {
      hide Digits, ParseIn;
      FieldIs(s[0..4], 0, MAX_YEAR);
      FieldIs(s[5..7], 1, 12);
      FieldIs(s[8..10], 1, DaysIn(c.month, c.year));
      FieldIs(s[11..13], 0, 23);
      FieldIs(s[14..16], 0, 59);
      FieldIs(s[17..19], 0, 59);
      DateTimeParts(c);
      SameParts(s, DateTime(c));
    } else if IsCivil(c) && c.year <= 9999 && s == DateTime(c) {
      DateTimeRoundTrip(c);
      assert false;
    }
  }

  /** The same wall clock in a zone ahead of UTC is an earlier instant, by hours and minutes. */
  lemma OffsetsAreSubtracted(t: nat, behind: bool, hours: nat, minutes: nat)
    requires InRange(t) && hours <= 23 && minutes <= 59
    ensures var wall := Format(t)[..|Format(t)| - 1];
            var zone := [if behind then '-' as int else '+' as int, '0' as int + hours / 10, '0' as int + hours % 10, ':' as int,
                         '0' as int + minutes / 10, '0' as int + minutes % 10];
            var offset := (hours * 3600 + minutes * 60) * 1_000_000_000;
            Parse(wall + zone) == Some(if behind then t + offset else t - offset)
  {
    hide Digits, ParseZone, ParseUint, InstantOf, Parse, DateTime, Fraction, CivilOf;
    var c := CivilOf(t);
    var wall := Format(t)[..|Format(t)| - 1];
    var zone := [if behind then '-' as int else '+' as int, '0' as int + hours / 10, '0' as int + hours % 10, ':' as int,
                 '0' as int + minutes / 10, '0' as int + minutes % 10];
    ZoneOf(if behind then '-' as int else '+' as int, hours, minutes, zone);
    assert wall == DateTime(c) + Fraction(c.nanos);
    ParsesInZone(t, zone);
  }
}
