/**
 * The property tool's value codec: the byte literal of the six-token `set`
 * (`toByteArray`), the authorisation key of `-authorize`
 * (`getAuthorizeKey`) and the hex groups of the `get` fallback.
 */
module ValueCodec {
  import opened Base
  import opened JavaNumbers

  // ---------------------------------------------------------------------
  // Big-endian numbers

  function Pow256(n: nat): (p: nat)
    ensures p >= 1
  {
    if n == 0 then 1 else 256 * Pow256(n - 1)
  }

  /** The unsigned big-endian value of a byte sequence. */
  function Value(b: seq<byte>): nat
  {
    if b == [] then 0 else Value(b[..|b| - 1]) * 256 + b[|b| - 1]
  }

  /** Java's `l / 0x100` on a long: the quotient truncated toward zero. */
  function TruncDiv256(l: int): int
  {
    if l >= 0 then l / 256 else -((-l) / 256)
  }

  function Abs(l: int): nat
  {
    if l < 0 then -l else l
  }

  /** How often `toByteArray`'s first loop divides by 0x100 until it reaches zero. */
  function ByteCount(l: int): nat
    decreases Abs(l)
  {
    if l == 0 then 0 else 1 + ByteCount(TruncDiv256(l))
  }

  /**
   * The `n` bytes `toByteArray`'s second loop writes from the right: the low
   * eight bits of `l` (`l & 0xff`), then of `l / 0x100`, and so on.
   */
  function BigEndian(l: int, n: nat): (b: seq<byte>)
    ensures |b| == n
    decreases n
  {
    if n == 0 then [] else BigEndian(TruncDiv256(l), n - 1) + [l % 256]
  }

  /** `l` after `n` of those divisions. */
  function Shift(l: int, n: nat): int
    decreases n
  {
    if n == 0 then l else Shift(TruncDiv256(l), n - 1)
  }

  /** The bytes of a parsed long: one byte per step of the count, at least one. */
  function LongBytes(l: int): seq<byte>
  {
    BigEndian(l, if ByteCount(l) == 0 then 1 else ByteCount(l))
  }

  // ---------------------------------------------------------------------
  // The byte literal of `set ... <data>`

  predicate IsHexLiteral(s: string)
  {
    StartsWith(s, "0x") || StartsWith(s, "0X")
  }

  /** Number of bytes of a hex literal: `(s.length() - 1) / 2`. */
  function HexCount(s: string): nat
  {
    if |s| < 2 then 0 else (|s| - 1) / 2
  }

  /**
   * A literal of length `len` is its prefix and `2 * HexCount - odd` digits,
   * where `odd` is `len % 2`: an odd digit count makes the first group one
   * digit wide.
   */
  lemma HexLayout(len: nat)
    requires len >= 2
    ensures len % 2 < 2 && len == 2 * ((len - 1) / 2) + 2 - len % 2
  {
  }

  /** Where the `j`-th hex group starts ... */
  function GroupStart(odd: nat, j: nat): int
  {
    if j == 0 then 2 else 2 * j + 2 - odd as int
  }

  /** ... and where it ends. */
  function GroupEnd(odd: nat, j: nat): int
  {
    2 * j + 4 - odd
  }

  lemma GroupBounds(odd: nat, count: nat, j: nat)
    requires odd < 2 && j < count
    ensures 2 <= GroupStart(odd, j) < GroupEnd(odd, j) <= 2 * count + 2 - odd
    ensures GroupEnd(odd, j) - GroupStart(odd, j) == (if j == 0 && odd == 1 then 1 else 2)
  {
  }

  /** The loop's step from one group to the next: the next group starts where this one ends. */
  lemma GroupNext(odd: nat, count: nat, j: nat)
    requires odd < 2 && j < count
    ensures GroupStart(odd, j + 1) == GroupEnd(odd, j) && GroupEnd(odd, j + 1) == GroupEnd(odd, j) + 2
    ensures (GroupEnd(odd, j) - 1) / 2 == j + 1
    ensures (GroupEnd(odd, j) < 2 * count + 2 - odd) == (j + 1 < count)
  {
  }

  function HexGroup(s: string, j: nat): string
    requires |s| >= 2 && j < HexCount(s)
  {
    HexLayout(|s|);
    GroupBounds(|s| % 2, HexCount(s), j);
    s[GroupStart(|s| % 2, j)..GroupEnd(|s| % 2, j)]
  }

  /** `(byte) Integer.parseInt(group, 16)`; `None` when the group is not a number. */
  function GroupByte(g: string): Option<byte>
  {
    match ParseSigned(g, 16, IntMin, IntMax)
    case Some(v) => Some(v % 256)
    case None => None
  }

  function WithPrefix(prefix: seq<byte>, r: Result<seq<byte>, string>): Result<seq<byte>, string>
  {
    match r
    case Ok(rest) => Ok(prefix + rest)
    case Err(e) => Err(e)
  }

  lemma WithPrefixNothing(r: Result<seq<byte>, string>)
    ensures WithPrefix([], r) == r
  {
    if r.Ok? {
      assert [] + r.value == r.value;
    }
  }

  lemma WithPrefixTwice(p: seq<byte>, q: seq<byte>, r: Result<seq<byte>, string>)
    ensures WithPrefix(p, WithPrefix(q, r)) == WithPrefix(p + q, r)
  {
    if r.Ok? {
      assert p + (q + r.value) == (p + q) + r.value;
    }
  }

  /** The groups of a hex literal, in order. */
  function HexGroups(s: string): (gs: seq<string>)
    ensures |gs| == HexCount(s)
  {
    if |s| < 2 then [] else seq(HexCount(s), j requires 0 <= j < HexCount(s) => HexGroup(s, j))
  }

  /** Parses the groups one after the other: the bytes of all of them, or the first group that does not parse. */
  function ParseGroups(groups: seq<string>, parse: string -> Option<byte>): Result<seq<byte>, string>
  {
    if groups == [] then Ok([])
    else match parse(groups[0])
      case None => Err(groups[0])
      case Some(b) => WithPrefix([b], ParseGroups(groups[1..], parse))
  }

  /**
   * The number a non-hex literal denotes, in `toByteArray`'s order: a
   * leading `0` (and more characters) is octal, a leading `b` binary,
   * anything else decimal; the error carries the text that did not parse.
   */
  function NumberLiteral(s: string): Result<int, string>
  {
    if |s| > 1 && s[0] == '0' then
      match ParseSigned(s, 8, LongMin, LongMax)
      case Some(l) => Ok(l)
      case None => Err(s)
    else if StartsWith(s, "b") then
      match ParseSigned(s[1..], 2, LongMin, LongMax)
      case Some(l) => Ok(l)
      case None => Err(s[1..])
    else
      match ParseSigned(s, 10, LongMin, LongMax)
      case Some(l) => Ok(l)
      case None => Err(s)
  }

  /** What `toByteArray` returns, or the text whose parse throws. */
  function ToByteArraySpec(s: string): Result<seq<byte>, string>
  {
    if IsHexLiteral(s) then ParseGroups(HexGroups(s), GroupByte)
    else match NumberLiteral(s)
      case Ok(l) => Ok(LongBytes(l))
      case Err(e) => Err(e)
  }

  /** The first groups parse, one after the other, to `prefix`. */
  predicate ParsedPrefix(groups: seq<string>, parse: string -> Option<byte>, prefix: seq<byte>)
  {
    |prefix| <= |groups| && forall t :: 0 <= t < |prefix| ==> parse(groups[t]) == Some(prefix[t])
  }

  /** Once the first groups are parsed, the result is their bytes before those of the rest. */
  lemma {:induction false} ParsedPrefixResult(groups: seq<string>, parse: string -> Option<byte>, prefix: seq<byte>)
    requires ParsedPrefix(groups, parse, prefix)
    ensures ParseGroups(groups, parse) == WithPrefix(prefix, ParseGroups(groups[|prefix|..], parse))
  {
    if prefix == [] {
      assert groups[0..] == groups;
      WithPrefixNothing(ParseGroups(groups, parse));
    } else {
      var tail := groups[1..];
      assert ParsedPrefix(tail, parse, prefix[1..]) by {
        forall t | 0 <= t < |prefix[1..]| ensures parse(tail[t]) == Some(prefix[1..][t]) {
          assert tail[t] == groups[t + 1];
        }
      }
      ParsedPrefixResult(tail, parse, prefix[1..]);
      assert tail[|prefix[1..]|..] == groups[|prefix|..];
      WithPrefixTwice([prefix[0]], prefix[1..], ParseGroups(groups[|prefix|..], parse));
      assert [prefix[0]] + prefix[1..] == prefix;
    }
  }

  /** `toByteArray` on a hex literal: fills the array group by group, from the left. */
  method HexLiteralBytes(s: string) returns (r: Result<seq<byte>, string>)
    requires IsHexLiteral(s)
    ensures r == ParseGroups(HexGroups(s), GroupByte)
  {
    var d := new byte[(|s| - 1) / 2](_ => 0);
    var i, k := 2, if |s| % 2 != 0 then 3 else 4;
    ghost var j := 0;
    ghost var gs := HexGroups(s);
    ghost var odd := |s| % 2;
    HexLayout(|s|);
    while i < |s|
      invariant odd < 2 && |s| == 2 * |gs| + 2 - odd
      invariant j <= |gs| == d.Length
      invariant i == GroupStart(odd, j) && k == GroupEnd(odd, j)
      invariant (i < |s|) == (j < |gs|)
      invariant (i - 1) / 2 == j
      invariant ParsedPrefix(gs, GroupByte, d[..j])
      decreases |s| - i
    {
      GroupBounds(odd, |gs|, j);
      assert s[i..k] == gs[j];
      var v := GroupByte(s[i..k]);
      if v.None? {
        ParsedPrefixResult(gs, GroupByte, d[..j]);
        assert gs[j..][0] == gs[j];
        return Err(s[i..k]);
      }
      d[(i - 1) / 2] := v.value;
      GroupNext(odd, |gs|, j);
      i, k := k, k + 2;
      j := j + 1;
    }
    assert d[..j] == d[..];
    ParsedPrefixResult(gs, GroupByte, d[..]);
    assert gs[j..] == [] && d[..] + [] == d[..];
    return Ok(d[..]);
  }

  /** `toByteArray` on a number: counts its bytes, then fills the array from the right. */
  method NumberBytes(l: int) returns (b: seq<byte>)
    ensures b == LongBytes(l)
  {
    var i := 0;
    var test := l;
    while test != 0
      invariant i + ByteCount(test) == ByteCount(l)
      decreases Abs(test)
    {
      i := i + 1;
      test := TruncDiv256(test);
    }
    var d := new byte[if i == 0 then 1 else i](_ => 0);
    ghost var n := i;
    var rest := l;
    while i > 0
      invariant 0 <= i <= n && d.Length == (if n == 0 then 1 else n)
      invariant BigEndian(l, n) == BigEndian(rest, i) + d[i..n]
      invariant n == 0 ==> d[..] == [0]
    {
      i := i - 1;
      d[i] := rest % 256;
      rest := TruncDiv256(rest);
    }
    if n == 0 {
      assert l == 0 && LongBytes(l) == [0];
    } else {
      assert d[..] == d[0..n];
    }
    return d[..];
  }

  /**
   * `toByteArray`: a `0x`/`0X` literal is hex, anything else a number; a
   * text that does not parse is the error.
   */
  method ToByteArray(s: string) returns (r: Result<seq<byte>, string>)
    ensures r == ToByteArraySpec(s)
  {
    if StartsWith(s, "0x") || StartsWith(s, "0X") {
      r := HexLiteralBytes(s);
      return;
    }
    match NumberLiteral(s) {
      case Err(e) =>
        return Err(e);
      case Ok(l) =>
        var b := NumberBytes(l);
        return Ok(b);
    }
  }

  // ---------------------------------------------------------------------
  // Properties of the byte literal

  /** Parsing succeeds exactly when every group parses, and then gives one byte per group. */
  lemma {:induction false} ParseGroupsOk(groups: seq<string>, parse: string -> Option<byte>)
    ensures ParseGroups(groups, parse).Ok? <==> forall t :: 0 <= t < |groups| ==> parse(groups[t]).Some?
    ensures ParseGroups(groups, parse).Ok? ==>
      |ParseGroups(groups, parse).value| == |groups| &&
      forall t :: 0 <= t < |groups| ==> parse(groups[t]) == Some(ParseGroups(groups, parse).value[t])
  {
    if groups != [] {
      var tail := groups[1..];
      ParseGroupsOk(tail, parse);
      assert forall t :: 0 < t < |groups| ==> groups[t] == tail[t - 1];
      if parse(groups[0]).Some? {
        var rest := ParseGroups(tail, parse);
        if rest.Ok? {
          var v := ParseGroups(groups, parse).value;
          assert v == [parse(groups[0]).value] + rest.value;
        } else {
          var t' :| 0 <= t' < |tail| && parse(tail[t']).None?;
          assert parse(groups[t' + 1]).None?;
        }
      }
    }
  }

  /** A failure names the first group that does not parse. */
  lemma {:induction false} ParseGroupsErr(groups: seq<string>, parse: string -> Option<byte>)
    requires ParseGroups(groups, parse).Err?
    ensures exists t :: 0 <= t < |groups| && ParseGroups(groups, parse).error == groups[t] &&
                        parse(groups[t]).None? && forall u :: 0 <= u < t ==> parse(groups[u]).Some?
  {
    if parse(groups[0]).Some? {
      var tail := groups[1..];
      ParseGroupsErr(tail, parse);
      var t' :| 0 <= t' < |tail| && ParseGroups(tail, parse).error == tail[t'] &&
        parse(tail[t']).None? && forall u :: 0 <= u < t' ==> parse(tail[u]).Some?;
      assert forall u :: 0 < u < |groups| ==> groups[u] == tail[u - 1];
      assert groups[t' + 1] == tail[t'];
    }
  }

  /** A hex literal that decodes has `(len - 1) / 2` bytes, each the parsed group at its position. */
  lemma HexLiteralLength(s: string)
    requires IsHexLiteral(s) && ToByteArraySpec(s).Ok?
    ensures |ToByteArraySpec(s).value| == (|s| - 1) / 2
    ensures forall t :: 0 <= t < (|s| - 1) / 2 ==> GroupByte(HexGroup(s, t)) == Some(ToByteArraySpec(s).value[t])
  {
    ParseGroupsOk(HexGroups(s), GroupByte);
  }

  /** A number literal that decodes gives at least one byte. */
  lemma NumberLiteralLength(s: string)
    requires !IsHexLiteral(s) && ToByteArraySpec(s).Ok?
    ensures |ToByteArraySpec(s).value| >= 1
  {
  }

  lemma GroupAt(s: string, j: nat)
    requires |s| >= 2 && j < HexCount(s)
    ensures HexGroups(s)[j] == s[GroupStart(|s| % 2, j)..GroupEnd(|s| % 2, j)]
  {
  }

  /** A one-digit group parses to the value of its digit ... */
  lemma GroupByteOne(c: char)
    requires 0 <= DigitOf(c) < 16
    ensures GroupByte([c]) == Some(DigitOf(c))
  {
    var s := [c];
    assert s[0] != '-' && s[0] != '+' && AllDigits(s, 16);
    assert s[..0] == [];
    assert DigitsValue(s, 16) == DigitOf(c);
    assert ParseSigned(s, 16, IntMin, IntMax) == Some(DigitOf(c));
  }

  /** ... and a two-digit group to the value of its two digits. */
  lemma GroupByteTwo(c: char, d: char)
    requires 0 <= DigitOf(c) < 16 && 0 <= DigitOf(d) < 16
    ensures GroupByte([c, d]) == Some(DigitOf(c) * 16 + DigitOf(d))
  {
    var s := [c, d];
    assert s[0] != '-' && s[0] != '+' && AllDigits(s, 16);
    assert s[..1] == [c] && [c][..0] == [];
    assert DigitsValue([c], 16) == DigitOf(c);
    assert DigitsValue(s, 16) == DigitOf(c) * 16 + DigitOf(d);
    assert ParseSigned(s, 16, IntMin, IntMax) == Some(DigitOf(c) * 16 + DigitOf(d));
  }

  /** The parse of two groups, each a byte, is those two bytes. */
  lemma TwoGroups(gs: seq<string>, x: byte, y: byte)
    requires |gs| == 2 && GroupByte(gs[0]) == Some(x) && GroupByte(gs[1]) == Some(y)
    ensures ParseGroups(gs, GroupByte) == Ok([x, y])
  {
    assert ParsedPrefix(gs, GroupByte, [x, y]);
    ParsedPrefixResult(gs, GroupByte, [x, y]);
    assert gs[2..] == [] && [x, y] + [] == [x, y];
  }

  /** With an odd digit count the single leading digit makes the first byte. */
  lemma OddHexExample()
    ensures ToByteArraySpec("0x123") == Ok([0x01, 0x23])
  {
    var s := "0x123";
    GroupAt(s, 0);
    GroupAt(s, 1);
    assert HexGroups(s)[0] == s[2..3] == ['1'];
    assert HexGroups(s)[1] == s[3..5] == ['2', '3'];
    GroupByteOne('1');
    GroupByteTwo('2', '3');
    TwoGroups(HexGroups(s), 0x01, 0x23);
  }

  /** `0x` alone is the empty array; leading zero bytes survive. */
  lemma HexExamples()
    ensures ToByteArraySpec("0x") == Ok([])
    ensures ToByteArraySpec("0X0001") == Ok([0x00, 0x01])
  {
    var s := "0X0001";
    GroupAt(s, 0);
    GroupAt(s, 1);
    assert HexGroups(s)[0] == s[2..4] == ['0', '0'];
    assert HexGroups(s)[1] == s[4..6] == ['0', '1'];
    GroupByteTwo('0', '0');
    GroupByteTwo('0', '1');
    TwoGroups(HexGroups(s), 0x00, 0x01);
  }

  lemma {:induction false} ToHexPair(b: seq<byte>, j: nat)
    requires j < |b|
    ensures ToHex(b)[2 * j..2 * j + 2] == ToHex([b[j]])
  {
    if j > 0 {
      ToHexPair(b[1..], j - 1);
      assert ToHex(b)[2 * j..2 * j + 2] == ToHex(b[1..])[2 * (j - 1)..2 * (j - 1) + 2];
    }
  }

  /** Behind the prefix, an even number of digits splits into pairs. */
  lemma PrefixedGroup(h: string, m: nat, t: nat)
    requires |h| == 2 * m && t < m
    ensures HexCount("0x" + h) == m && HexGroups("0x" + h)[t] == h[2 * t..2 * t + 2]
  {
    var s := "0x" + h;
    HexLayout(|s|);
    assert s[2 * t + 2..2 * t + 4] == h[2 * t..2 * t + 2];
  }

  lemma HexGroupOfRendering(b: seq<byte>, t: nat)
    requires t < |b|
    ensures HexCount("0x" + ToHex(b)) == |b|
    ensures HexGroups("0x" + ToHex(b))[t] == ToHex([b[t]])
  {
    PrefixedGroup(ToHex(b), |b|, t);
    ToHexPair(b, t);
  }

  lemma GroupByteOfHex(x: byte)
    ensures GroupByte(ToHex([x])) == Some(x)
  {
    ParseHexOfByte(x);
  }

  /** Round trip: rendering bytes as an even-length hex literal and decoding it gives them back. */
  lemma HexRoundTrip(b: seq<byte>)
    ensures ToByteArraySpec("0x" + ToHex(b)) == Ok(b)
  {
    var s := "0x" + ToHex(b);
    assert IsHexLiteral(s);
    var gs := HexGroups(s);
    forall t | 0 <= t < |gs|
      ensures GroupByte(gs[t]) == Some(b[t])
    {
      HexGroupOfRendering(b, t);
      GroupByteOfHex(b[t]);
    }
    ParseGroupsOk(gs, GroupByte);
    var v := ParseGroups(gs, GroupByte).value;
    assert v == b;
  }

  lemma Regroup(a: int, p: int, x: int, r: int)
    ensures 256 * (a * p + x) + r == a * (256 * p) + (x * 256 + r)
  {
  }

  /** The bytes hold the low part of a nonnegative number, `Shift` the part above them. */
  lemma {:induction false} BigEndianSplit(l: nat, n: nat)
    ensures Shift(l, n) >= 0
    ensures l == Shift(l, n) * Pow256(n) + Value(BigEndian(l, n))
    ensures Value(BigEndian(l, n)) < Pow256(n)
  {
    if n > 0 {
      var q := l / 256;
      BigEndianSplit(q, n - 1);
      var b := BigEndian(l, n);
      assert b[..|b| - 1] == BigEndian(q, n - 1);
      var v' := Value(BigEndian(q, n - 1));
      var sh := Shift(q, n - 1);
      var p := Pow256(n - 1);
      assert Shift(l, n) == sh;
      assert Pow256(n) == 256 * p;
      assert Value(b) == v' * 256 + l % 256;
      assert l == 256 * q + l % 256;
      assert q == sh * p + v';
      Regroup(sh, p, v', l % 256);
    }
  }

  lemma {:induction false} ShiftCount(l: int, k: nat)
    requires k <= ByteCount(l)
    ensures ByteCount(Shift(l, k)) == ByteCount(l) - k
    decreases k
  {
    if k > 0 {
      ShiftCount(TruncDiv256(l), k - 1);
    }
  }

  lemma {:induction false} FirstByte(l: int, n: nat)
    requires n >= 1
    ensures BigEndian(l, n)[0] == Shift(l, n - 1) % 256
    decreases n
  {
    if n > 1 {
      FirstByte(TruncDiv256(l), n - 1);
    }
  }

  lemma ShiftNonnegative(l: nat, n: nat)
    ensures Shift(l, n) >= 0
  {
    BigEndianSplit(l, n);
  }

  /**
   * A nonnegative number is written as its minimal big-endian bytes: at
   * least one byte, no leading zero byte unless it is the only one, and
   * the bytes read back as the number.
   */
  lemma MinimalBigEndian(l: nat)
    ensures |LongBytes(l)| >= 1
    ensures Value(LongBytes(l)) == l
    ensures |LongBytes(l)| > 1 ==> LongBytes(l)[0] != 0
    ensures l == 0 <==> LongBytes(l) == [0]
  {
    var c := ByteCount(l);
    var n := |LongBytes(l)|;
    BigEndianSplit(l, n);
    if l > 0 {
      ShiftCount(l, c);
      assert Shift(l, c) == 0;
      if n > 1 {
        FirstByte(l, n);
        ShiftCount(l, c - 1);
        ShiftNonnegative(l, c - 1);
        var top := Shift(l, c - 1);
        assert ByteCount(top) == 1;
        assert top != 0 && TruncDiv256(top) == 0;
      } else {
        assert LongBytes(l)[0] == l % 256;
        assert l < 256;
      }
    }
  }

  lemma LongBytesExamples()
    ensures LongBytes(0) == [0x00]
    ensures LongBytes(256) == [0x01, 0x00]
    ensures LongBytes(-257) == [0xff, 0xff]
  {
    assert ByteCount(256) == 2;
    assert ByteCount(-257) == 2;
  }

  /** The decimal rendering of a number in range is read back as that number. */
  lemma NumberLiteralOfNat(n: nat)
    requires n <= LongMax
    ensures !IsHexLiteral(NatToString(n)) && NumberLiteral(NatToString(n)) == Ok(n)
  {
    var s := NatToString(n);
    assert !StartsWith(s, "b") by {
      assert s[..1][0] == s[0] != 'b';
    }
    assert !IsHexLiteral(s) by {
      if |s| >= 2 { assert s[..2][1] == s[1] != 'x'; assert s[1] != 'X'; }
    }
    assert !(|s| > 1 && s[0] == '0') by {
      if n == 0 { assert s == "0"; }
    }
    ParseNatToString(n, LongMin, LongMax);
  }

  /** The decimal rendering of a nonnegative long is encoded as its minimal big-endian bytes. */
  lemma DecimalLiteral(n: nat)
    requires n <= LongMax
    ensures ToByteArraySpec(NatToString(n)) == Ok(LongBytes(n))
  {
    NumberLiteralOfNat(n);
  }

  /**
   * A literal with a leading `0` (and more characters) that is not hex is
   * read in octal, its digits taken as one unsigned number: it is accepted
   * exactly when every character is an octal digit and the number fits a
   * long, and then gives that number's bytes; otherwise the whole literal
   * is the text that did not parse.
   */
  lemma OctalLiteral(s: string)
    requires |s| > 1 && s[0] == '0' && !IsHexLiteral(s)
    ensures ToByteArraySpec(s).Ok? <==> AllDigits(s, 8) && DigitsValue(s, 8) <= LongMax
    ensures ToByteArraySpec(s).Ok? && AllDigits(s, 8) ==>
      ToByteArraySpec(s) == Ok(LongBytes(DigitsValue(s, 8))) && Value(ToByteArraySpec(s).value) == DigitsValue(s, 8)
    ensures ToByteArraySpec(s).Err? ==> ToByteArraySpec(s).error == s
  {
    if AllDigits(s, 8) {
      MinimalBigEndian(DigitsValue(s, 8));
    }
  }

  /**
   * A literal with a leading `b` is read in binary after the `b`: binary
   * digits are accepted exactly when their number fits a long, and then
   * give that number's bytes; a lone `b` or any text after it that does not
   * parse is reported without the `b`.
   */
  lemma BinaryLiteral(s: string)
    requires StartsWith(s, "b")
    ensures |s| > 1 && AllDigits(s[1..], 2) ==>
      (ToByteArraySpec(s).Ok? <==> DigitsValue(s[1..], 2) <= LongMax) &&
      (ToByteArraySpec(s).Ok? ==>
        ToByteArraySpec(s) == Ok(LongBytes(DigitsValue(s[1..], 2))) &&
        Value(ToByteArraySpec(s).value) == DigitsValue(s[1..], 2))
    ensures |s| == 1 ==> ToByteArraySpec(s) == Err("")
    ensures ToByteArraySpec(s).Err? ==> ToByteArraySpec(s).error == s[1..]
  {
    assert s[0] == s[..1][0] == 'b';
    if |s| > 1 && AllDigits(s[1..], 2) {
      MinimalBigEndian(DigitsValue(s[1..], 2));
    }
  }

  /** `010` is octal for eight. */
  lemma OctalExample()
    ensures ToByteArraySpec("010") == Ok([8])
  {
    assert AllDigits("010", 8) && DigitsValue("010", 8) == 8 by {
      assert "010"[..2] == "01" && "01"[..1] == "0" && "0"[..0] == "";
    }
    assert ToByteArraySpec("010") == Ok(LongBytes(8)) by {
      assert !IsHexLiteral("010") by {
        assert "010"[..2] == "01";
      }
      OctalLiteral("010");
    }
    assert LongBytes(8) == [8] by {
      assert ByteCount(8) == 1;
    }
  }

  /** `b101` is binary for five. */
  lemma BinaryExample()
    ensures ToByteArraySpec("b101") == Ok([5])
  {
    assert AllDigits("101", 2) && DigitsValue("101", 2) == 5 by {
      assert "101"[..2] == "10" && "10"[..1] == "1" && "1"[..0] == "";
    }
    assert ToByteArraySpec("b101") == Ok(LongBytes(5)) by {
      assert StartsWith("b101", "b") && "b101"[1..] == "101" by {
        assert "b101"[..1] == "b";
      }
      BinaryLiteral("b101");
    }
    assert LongBytes(5) == [5] by {
      assert ByteCount(5) == 1;
    }
  }

  /** A lone `0` is decimal zero, a single byte. */
  lemma ZeroExample()
    ensures ToByteArraySpec("0") == Ok([0])
  {
    assert NatToString(0) == "0";
    DecimalLiteral(0);
    MinimalBigEndian(0);
  }

  /** An `8` is no octal digit, and a lone `b` has no binary digits. */
  lemma RefusedLiteralExamples()
    ensures ToByteArraySpec("08") == Err("08")
    ensures ToByteArraySpec("b") == Err("")
  {
    assert !IsHexLiteral("08") by {
      assert "08"[..2] == "08";
    }
    assert !AllDigits("08", 8) by {
      assert DigitOf("08"[1]) == 8;
    }
    OctalLiteral("08");
    assert StartsWith("b", "b") by {
      assert "b"[..1] == "b";
    }
    BinaryLiteral("b");
  }

  // ---------------------------------------------------------------------
  // The authorisation key of `-authorize`

  /** Round trip: the big-endian bytes of a byte sequence's value are that sequence. */
  lemma {:induction false} BigEndianOfValue(b: seq<byte>)
    ensures BigEndian(Value(b), |b|) == b
    ensures Value(b) < Pow256(|b|)
  {
    if b != [] {
      var init := b[..|b| - 1];
      var x := b[|b| - 1];
      BigEndianOfValue(init);
      assert Value(b) == Value(init) * 256 + x;
      assert TruncDiv256(Value(b)) == Value(init) && Value(b) % 256 == x;
      assert b == init + [x];
    }
  }

  /**
   * The four bytes `(byte)(v >> 24), (byte)(v >> 16), (byte)(v >> 8), (byte) v`:
   * for a nonnegative `v` each shift is a repeated division by 0x100.
   */
  function KeyBytes(v: int): (b: seq<byte>)
    requires 0 <= v <= 0xFFFF_FFFF
    ensures |b| == 4 && Value(b) == v
  {
    BigEndianSplit(v, 4);
    assert Pow256(4) == 0x1_0000_0000;
    BigEndian(v, 4)
  }

  /** Every four bytes are the key of exactly one number in range. */
  lemma KeyBytesOfValue(b: seq<byte>)
    requires |b| == 4
    ensures Value(b) <= 0xFFFF_FFFF && KeyBytes(Value(b)) == b
  {
    BigEndianOfValue(b);
    assert Pow256(4) == 0x1_0000_0000;
  }

  datatype KeyError = KeyNotANumber | KeyOutOfRange

  /** `getAuthorizeKey`: a long in 0..0xFFFFFFFF becomes four big-endian bytes. */
  function GetAuthorizeKey(key: string): (r: Result<seq<byte>, KeyError>)
    ensures r.Ok? <==> DecodeLong(key).Some? && 0 <= DecodeLong(key).value <= 0xFFFF_FFFF
    ensures r.Ok? ==> |r.value| == 4 && Value(r.value) == DecodeLong(key).value
    ensures r == Err(KeyOutOfRange) <==> DecodeLong(key).Some? && !(0 <= DecodeLong(key).value <= 0xFFFF_FFFF)
  {
    match DecodeLong(key)
    case None => Err(KeyNotANumber)
    case Some(v) =>
      if v < 0 || v > 0xFFFF_FFFF then Err(KeyOutOfRange) else Ok(KeyBytes(v))
  }

  // ---------------------------------------------------------------------
  // The hex groups of the `get` fallback

  lemma MulStep(count: nat, chars: nat, len: nat)
    requires count > 0 && count * chars <= len
    ensures (count - 1) * chars + chars == count * chars <= len
  {
  }

  /** The `count` slices of `chars` hex characters that the fallback of `get` cuts, in order. */
  function Slices(s: string, chars: nat, count: nat): (r: seq<string>)
    requires count * chars <= |s|
    ensures |r| == count
  {
    if count == 0 then []
    else
      MulStep(count, chars, |s|);
      Slices(s, chars, count - 1) + [s[(count - 1) * chars..count * chars]]
  }

  /** Each slice written as `0x`, its characters and one space. */
  function Framed(groups: seq<string>): string
  {
    if groups == [] then "" else Framed(groups[..|groups| - 1]) + "0x" + groups[|groups| - 1] + " "
  }

  function Concat(groups: seq<string>): string
  {
    if groups == [] then "" else Concat(groups[..|groups| - 1]) + groups[|groups| - 1]
  }

  /**
   * The slices all have the same width and, put back together, are the
   * first `count * chars` characters of the hex string: no digit is lost
   * or repeated.
   */
  lemma {:induction false} SlicesCover(s: string, chars: nat, count: nat)
    requires count * chars <= |s|
    ensures forall i :: 0 <= i < count ==> |Slices(s, chars, count)[i]| == chars
    ensures Concat(Slices(s, chars, count)) == s[..count * chars]
  {
    if count > 0 {
      MulStep(count, chars, |s|);
      SlicesCover(s, chars, count - 1);
      var r := Slices(s, chars, count);
      assert r[..count - 1] == Slices(s, chars, count - 1);
      assert s[..count * chars] == s[..(count - 1) * chars] + s[(count - 1) * chars..count * chars];
    }
  }

  /** Framing one more slice appends exactly one `0x<slice> ` block. */
  lemma FramedSnoc(groups: seq<string>, g: string)
    ensures Framed(groups + [g]) == Framed(groups) + "0x" + g + " "
  {
    assert (groups + [g])[..|groups|] == groups;
  }
}
