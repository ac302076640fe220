/**
 * The Java number parsers the tools rely on, as partial functions on
 * strings: `Integer.parseInt`/`Long.parseLong` with a radix, and
 * `Integer.decode`/`Long.decode`. `None` stands for a thrown
 * `NumberFormatException`. Only ASCII digits and letters are digits here.
 */
module JavaNumbers {
  import opened Base

  const IntMin: int := -0x8000_0000
  const IntMax: int := 0x7fff_ffff
  const LongMin: int := -0x8000_0000_0000_0000
  const LongMax: int := 0x7fff_ffff_ffff_ffff

  /** `Character.digit(c, 36)`: the value of a digit or letter, -1 for anything else. */
  function DigitOf(c: char): (d: int)
    ensures -1 <= d < 36
  {
    if '0' <= c <= '9' then c as int - '0' as int
    else if 'a' <= c <= 'z' then c as int - 'a' as int + 10
    else if 'A' <= c <= 'Z' then c as int - 'A' as int + 10
    else -1
  }

  predicate AllDigits(s: string, radix: nat)
  {
    forall i :: 0 <= i < |s| ==> 0 <= DigitOf(s[i]) < radix
  }

  /** The value of a digit string, most significant digit first. */
  function DigitsValue(s: string, radix: nat): nat
    requires AllDigits(s, radix)
  {
    if s == [] then 0 else DigitsValue(s[..|s| - 1], radix) * radix + DigitOf(s[|s| - 1])
  }

  /**
   * `Integer.parseInt(s, radix)` (with `lo`, `hi` the int range) or
   * `Long.parseLong(s, radix)` (the long range): an optional sign, then at
   * least one digit, and a value inside the range.
   */
  function ParseSigned(s: string, radix: nat, lo: int, hi: int): (r: Option<int>)
    ensures r.Some? ==> lo <= r.value <= hi
    ensures r.Some? ==> |s| > 0
  {
    if |s| == 0 then None
    else
      var negative := s[0] == '-';
      var digits := if s[0] == '-' || s[0] == '+' then s[1..] else s;
      if digits == [] || !AllDigits(digits, radix) then None
      else
        var v: int := if negative then 0 - DigitsValue(digits, radix) as int else DigitsValue(digits, radix);
        if lo <= v <= hi then Some(v) else None
  }

  /** `Integer.parseInt(s)` */
  function ParseInt(s: string): Option<int>
  {
    ParseSigned(s, 10, IntMin, IntMax)
  }

  /** The radix `Integer.decode` picks after the sign, and how many prefix characters it skips. */
  function DecodeRadix(nm: string, index: nat): (rs: (nat, nat))
    requires index <= |nm|
    ensures rs.0 in {8, 10, 16} && index + rs.1 <= |nm|
  {
    var rest := nm[index..];
    if StartsWith(rest, "0x") || StartsWith(rest, "0X") then (16, 2)
    else if StartsWith(rest, "#") then (16, 1)
    else if StartsWith(rest, "0") && |nm| > 1 + index then (8, 1)
    else (10, 0)
  }

  /**
   * `Integer.decode` (with the int range) or `Long.decode` (with the long
   * range): optional sign, then `0x`, `0X` or `#` for hex, a leading `0`
   * followed by more characters for octal, decimal otherwise; a second
   * sign after the prefix is refused.
   */
  function Decode(nm: string, lo: int, hi: int): (r: Option<int>)
    ensures r.Some? ==> lo <= r.value <= hi
  {
    if |nm| == 0 then None
    else
      var negative := nm[0] == '-';
      var index := if nm[0] == '-' || nm[0] == '+' then 1 else 0;
      var (radix, skip) := DecodeRadix(nm, index);
      var digits := nm[index + skip..];
      if StartsWith(digits, "-") || StartsWith(digits, "+") then None
      else if digits == [] || !AllDigits(digits, radix) then None
      else
        var v: int := if negative then 0 - DigitsValue(digits, radix) as int else DigitsValue(digits, radix);
        if lo <= v <= hi then Some(v) else None
  }

  /** `Integer.decode(s).intValue()`, the tools' `toInt`. */
  function DecodeInt(s: string): Option<int>
  {
    Decode(s, IntMin, IntMax)
  }

  /** `Long.decode(s).longValue()` */
  function DecodeLong(s: string): Option<int>
  {
    Decode(s, LongMin, LongMax)
  }

  // ---------------------------------------------------------------------
  // Round trips with the renderings of Base

  lemma {:induction false} DigitsValueOfNatToString(n: nat)
    ensures AllDigits(NatToString(n), 10) && DigitsValue(NatToString(n), 10) == n
  {
    var s := NatToString(n);
    if n >= 10 {
      DigitsValueOfNatToString(n / 10);
      assert s[..|s| - 1] == NatToString(n / 10);
    }
  }

  /** Parsing the decimal rendering of a number in range gives the number back. */
  lemma ParseNatToString(n: nat, lo: int, hi: int)
    requires lo <= 0 && n <= hi
    ensures ParseSigned(NatToString(n), 10, lo, hi) == Some(n)
  {
    DigitsValueOfNatToString(n);
  }

  lemma DigitOfHexDigit(d: nat)
    requires d < 16
    ensures DigitOf(HexDigit(d)) == d
  {
  }

  /** `Integer.parseInt(pair, 16)` of a byte's two hex digits is that byte. */
  lemma ParseHexOfByte(b: byte)
    ensures ParseSigned(ToHex([b]), 16, IntMin, IntMax) == Some(b as int)
  {
    var s := ToHex([b]);
    assert s == [HexDigit(b / 16), HexDigit(b % 16)];
    DigitOfHexDigit(b / 16);
    DigitOfHexDigit(b % 16);
    assert s[..1] == [HexDigit(b / 16)];
    assert DigitsValue(s[..1], 16) == b / 16;
  }
}
