/**
 * `generateUUID` of the orders service: sixteen random bytes, the version
 * and variant bits of a version 4 UUID set (section 4.4 of RFC 4122), then
 * printed as 8-4-4-4-12 lower-case hex digits. The random bytes are a
 * parameter.
 */
module Uuid {

  /** Version 4 in the high nibble of byte 6, variant `10` in the top two bits of byte 8. */
  predicate IsVersion4(b: seq<bv8>)
    requires |b| == 16
  {
    b[6] >> 4 == 4 && b[8] >> 6 == 2
  }

  /** The two masking lines of `generateUUID`. */
  function SetVersionBits(b: seq<bv8>): (r: seq<bv8>)
    requires |b| == 16
    ensures |r| == 16 && IsVersion4(r)
    ensures forall i | 0 <= i < 16 && i != 6 && i != 8 :: r[i] == b[i]
    ensures r[6] & 0x0f == b[6] & 0x0f && r[8] & 0x3f == b[8] & 0x3f
  {
    b[6 := (b[6] & 0x0f) | 0x40][8 := (b[8] & 0x3f) | 0x80]
  }

  /** The masking changes nothing exactly when the bytes already carry the version 4 bits. */
  lemma SetVersionBitsFixesVersion4(b: seq<bv8>)
    requires |b| == 16
    ensures SetVersionBits(b) == b <==> IsVersion4(b)
  {
    if IsVersion4(b) {
      assert (b[6] & 0x0f) | 0x40 == b[6];
      assert (b[8] & 0x3f) | 0x80 == b[8];
      assert SetVersionBits(b) == b;
    }
  }

  /** One lower-case hex digit. */
  function HexDigit(n: bv8): (c: char)
    requires n < 16
  {
    "0123456789abcdef"[n as int]
  }

  /** The value of a lower-case hex digit. */
  function HexValue(c: char): bv8 {
    if '0' <= c <= '9' then (c as int - '0' as int) as bv8
    else if 'a' <= c <= 'f' then (c as int - 'a' as int + 10) as bv8
    else 0
  }

  lemma HexValueOfDigit(n: bv8)
    requires n < 16
    ensures HexValue(HexDigit(n)) == n
  {
  }

  /** `%x` of a byte slice: two lower-case digits per byte, high nibble first. */
  function Hex(bs: seq<bv8>): (s: string)
    ensures |s| == 2 * |bs|
  {
    if bs == [] then []
    else [HexDigit(bs[0] >> 4), HexDigit(bs[0] & 0x0f)] + Hex(bs[1..])
  }

  /** Bytes back from pairs of hex digits. */
  function Unhex(s: string): seq<bv8>
    decreases |s|
  {
    if |s| < 2 then []
    else [(HexValue(s[0]) << 4) | HexValue(s[1])] + Unhex(s[2..])
  }

  lemma {:induction false} UnhexOfHex(bs: seq<bv8>)
    ensures Unhex(Hex(bs)) == bs
  {
    if bs != [] {
      var x := bs[0];
      HexValueOfDigit(x >> 4);
      HexValueOfDigit(x & 0x0f);
      assert (((x >> 4) << 4) | (x & 0x0f)) == x;
      assert Hex(bs)[2..] == Hex(bs[1..]);
      UnhexOfHex(bs[1..]);
    }
  }

  lemma {:induction false} HexOfConcat(a: seq<bv8>, b: seq<bv8>)
    ensures Hex(a + b) == Hex(a) + Hex(b)
  {
    if a != [] {
      assert (a + b)[0] == a[0];
      assert (a + b)[1..] == a[1..] + b;
      HexOfConcat(a[1..], b);
    }
    else {
      assert a + b == b;
    }
  }

  /** `fmt.Sprintf("%08x-%04x-%04x-%04x-%012x", ...)` over the five slices of the bytes. */
  function Format(b: seq<bv8>): (s: string)
    requires |b| == 16
    ensures |s| == 36
  {
    Hex(b[..4]) + "-" + Hex(b[4..6]) + "-" + Hex(b[6..8]) + "-" + Hex(b[8..10]) + "-" + Hex(b[10..])
  }

  /** `generateUUID` over the bytes `rand.Read` produced. */
  function GenerateUuid(random: seq<bv8>): (s: string)
    requires |random| == 16
    ensures |s| == 36 && Parse(s) == SetVersionBits(random)
  {
    ParseFormat(SetVersionBits(random));
    Format(SetVersionBits(random))
  }

  /** The bytes of an 8-4-4-4-12 hex string, hyphens skipped. */
  function Parse(s: string): seq<bv8>
    requires |s| == 36
  {
    Unhex(s[..8] + s[9..13] + s[14..18] + s[19..23] + s[24..])
  }

  /** The hex digits of a printed UUID, hyphens skipped, are the hex of all sixteen bytes. */
  lemma FormatDigits(b: seq<bv8>)
    requires |b| == 16
    ensures var s := Format(b); s[..8] + s[9..13] + s[14..18] + s[19..23] + s[24..] == Hex(b)
  {
    var s := Format(b);
    var h0, h1, h2, h3, h4 := Hex(b[..4]), Hex(b[4..6]), Hex(b[6..8]), Hex(b[8..10]), Hex(b[10..]);
    var a3 := h0 + "-" + h1 + "-" + h2 + "-" + h3;
    var a2 := h0 + "-" + h1 + "-" + h2;
    var a1 := h0 + "-" + h1;
    assert s == a3 + "-" + h4;
    assert s[24..] == h4 && s[..23] == a3;
    assert a3 == a2 + "-" + h3;
    assert a3[19..] == h3 && a3[..18] == a2;
    assert a2 == a1 + "-" + h2;
    assert a2[14..] == h2 && a2[..13] == a1;
    assert a1 == h0 + "-" + h1;
    assert a1[9..] == h1 && a1[..8] == h0;
    assert s[..8] == h0 && s[9..13] == h1 && s[14..18] == h2 && s[19..23] == h3;
    HexOfConcat(b[..4], b[4..6]);
    HexOfConcat(b[..6], b[6..8]);
    HexOfConcat(b[..8], b[8..10]);
    HexOfConcat(b[..10], b[10..]);
    assert b[..4] + b[4..6] == b[..6];
    assert b[..6] + b[6..8] == b[..8];
    assert b[..8] + b[8..10] == b[..10];
    assert b[..10] + b[10..] == b;
  }

  /** `%x` prints only lower-case hex digits. */
  lemma {:induction false} HexIsDigits(bs: seq<bv8>)
    ensures forall i | 0 <= i < |Hex(bs)| :: Hex(bs)[i] in "0123456789abcdef"
  {
    if bs != [] {
      HexIsDigits(bs[1..]);
      var h := Hex(bs);
      assert h == [HexDigit(bs[0] >> 4), HexDigit(bs[0] & 0x0f)] + Hex(bs[1..]);
      forall i | 0 <= i < |h|
        ensures h[i] in "0123456789abcdef"
      {
        if i >= 2 {
          assert h[i] == Hex(bs[1..])[i - 2];
        }
      }
    }
  }

  /**
   * Every printed UUID has the 8-4-4-4-12 layout: hyphens at 8, 13, 18 and
   * 23 and a lower-case hex digit everywhere else.
   */
  lemma FormatLayout(b: seq<bv8>)
    requires |b| == 16
    ensures var s := Format(b);
      && s[8] == '-' && s[13] == '-' && s[18] == '-' && s[23] == '-'
      && forall i | 0 <= i < 36 && i != 8 && i != 13 && i != 18 && i != 23 :: s[i] in "0123456789abcdef"
  {
    var s := Format(b);
    FormatDigits(b);
    HexIsDigits(b);
    var d := s[..8] + s[9..13] + s[14..18] + s[19..23] + s[24..];
    assert d == Hex(b);
    forall i | 0 <= i < 36 && i != 8 && i != 13 && i != 18 && i != 23
      ensures s[i] in "0123456789abcdef"
    {
      var j := if i < 8 then i else if i < 13 then i - 1 else if i < 18 then i - 2 else if i < 23 then i - 3 else i - 4;
      assert s[i] == d[j];
    }
  }

  /** The printed form loses nothing: parsing it gives the bytes back. */
  lemma ParseFormat(b: seq<bv8>)
    requires |b| == 16
    ensures Parse(Format(b)) == b
  {
    FormatDigits(b);
    UnhexOfHex(b);
  }

  /**
   * The text `generateUUID` returns has the RFC 4122 layout: hyphens at 8,
   * 13, 18 and 23, the version digit '4' at 14, and one of '8', '9', 'a',
   * 'b' (variant `10`) at 19.
   */
  lemma GeneratedUuidLayout(random: seq<bv8>)
    requires |random| == 16
    ensures var s := GenerateUuid(random);
      && |s| == 36
      && s[8] == '-' && s[13] == '-' && s[18] == '-' && s[23] == '-'
      && s[14] == '4'
      && s[19] in "89ab"
  {
    var b := SetVersionBits(random);
    var s := Format(b);
    var h2, h3 := Hex(b[6..8]), Hex(b[8..10]);
    assert s[14] == h2[0] && s[19] == h3[0];
    assert h2[0] == HexDigit(b[6] >> 4);
    assert h3[0] == HexDigit(b[8] >> 4);
    assert b[8] >> 4 == 8 || b[8] >> 4 == 9 || b[8] >> 4 == 10 || b[8] >> 4 == 11;
  }
}
