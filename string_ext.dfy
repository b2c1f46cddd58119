/**
 * `String?.hashedString()` (util/StringExt.kt): null stays null; otherwise
 * the SHA-256 digest of the string's bytes is folded, byte by byte, into a
 * `StringBuilder` as two lowercase hex digits each (`"%02x"`), which is the
 * lowercase form of the base 16 encoding of section 8 of RFC 4648.
 *
 * The digest (`MessageDigest` and `toByteArray`) is a parameter: any function
 * from strings to 32 signed bytes.
 */
module StringExt {
  import opened Wrappers

  /** A JVM `Byte`. */
  newtype JByte = x: int | -128 <= x < 128

  /** What SHA-256 returns: 32 bytes. */
  type Digest = d: seq<JByte> | |d| == 32 witness seq(32, _ => 0)

  /** `0-9` or `a-f`. */
  predicate IsHexDigit(c: char)
  {
    '0' <= c <= '9' || 'a' <= c <= 'f'
  }

  /** The lowercase hex digit of a value below 16. */
  function HexDigit(v: int): (c: char)
    requires 0 <= v < 16
    ensures IsHexDigit(c)
  {
    if v < 10 then ('0' as int + v) as char else ('a' as int + v - 10) as char
  }

  /** The value `"%02x"` formats a byte as: negative bytes have 256 added. */
  function Unsigned(b: JByte): (u: int)
    ensures 0 <= u < 256
    ensures u % 256 == b as int % 256
  {
    if b < 0 then b as int + 256 else b as int
  }

  /** `"%02x".format(b)`: two lowercase digits, high nibble first. */
  function ByteHex(b: JByte): string
  {
    [HexDigit(Unsigned(b) / 16), HexDigit(Unsigned(b) % 16)]
  }

  /** The string the fold builds: the bytes' `ByteHex`, in order. */
  function LowerHex(d: seq<JByte>): string
  {
    if d == [] then "" else LowerHex(d[..|d| - 1]) + ByteHex(d[|d| - 1])
  }

  /** The fold of `hashedString` over the digest into a `StringBuilder`. */
  method HexFold(digest: seq<JByte>) returns (s: string)
    ensures s == LowerHex(digest)
  {
    var sb := "";
    var i := 0;
    while i < |digest|
      invariant 0 <= i <= |digest|
      invariant sb == LowerHex(digest[..i])
    {
      assert digest[..i + 1][..i] == digest[..i];
      sb := sb + ByteHex(digest[i]);
      i := i + 1;
    }
    assert digest[..i] == digest;
    s := sb;
  }

  /** `hashedString`: null for null, otherwise the lowercase hex of the digest. */
  method HashedString(s: Option<string>, digestOf: string -> Digest) returns (r: Option<string>)
    ensures r.None? <==> s.None?
    ensures s.Some? ==> r == Some(LowerHex(digestOf(s.value)))
  {
    if s.None? {
      r := None;
    } else {
      var hex := HexFold(digestOf(s.value));
      r := Some(hex);
    }
  }

  // ---------------------------------------------------------------------
  // What the encoding promises
  // ---------------------------------------------------------------------

  /** Two characters per byte. */
  lemma {:induction false} LowerHexLength(d: seq<JByte>)
    ensures |LowerHex(d)| == 2 * |d|
  {
    if d != [] {
      LowerHexLength(d[..|d| - 1]);
    }
  }

  /** The hex of a digest, and so every non-null `hashedString`, has 64 characters. */
  lemma HashedLength(d: Digest)
    ensures |LowerHex(d)| == 64
  {
    LowerHexLength(d);
  }

  /** Byte i is written at characters 2i and 2i+1. */
  lemma {:induction false} LowerHexAt(d: seq<JByte>, i: int)
    requires 0 <= i < |d|
    ensures |LowerHex(d)| == 2 * |d|
    ensures LowerHex(d)[2 * i] == HexDigit(Unsigned(d[i]) / 16)
    ensures LowerHex(d)[2 * i + 1] == HexDigit(Unsigned(d[i]) % 16)
  {
    LowerHexLength(d);
    var init := d[..|d| - 1];
    LowerHexLength(init);
    if i < |d| - 1 {
      LowerHexAt(init, i);
    }
  }

  /** Every character is a lowercase hex digit. */
  predicate IsLowerHex(s: string)
  {
    forall k :: 0 <= k < |s| ==> IsHexDigit(s[k])
  }

  /** Every character written is a lowercase hex digit. */
  lemma AllLowerHex(d: seq<JByte>)
    ensures IsLowerHex(LowerHex(d))
  {
    LowerHexLength(d);
    forall k | 0 <= k < |LowerHex(d)|
      ensures IsHexDigit(LowerHex(d)[k])
    {
      LowerHexAt(d, k / 2);
    }
  }

  /** The value of a lowercase hex digit. */
  function HexValue(c: char): (v: int)
    requires IsHexDigit(c)
    ensures 0 <= v < 16 && HexDigit(v) == c
  {
    if '0' <= c <= '9' then c as int - '0' as int else c as int - 'a' as int + 10
  }

  /** Reading back a digit gives its value. */
  lemma DigitRoundTrip(v: int)
    requires 0 <= v < 16
    ensures HexValue(HexDigit(v)) == v
  {
  }

  /** The byte two digits stand for, read back as a signed JVM byte. */
  function ByteOf(hi: char, lo: char): JByte
    requires IsHexDigit(hi) && IsHexDigit(lo)
  {
    var u := HexValue(hi) * 16 + HexValue(lo);
    if u >= 128 then (u - 256) as JByte else u as JByte
  }

  /**
   * Decoding, pair of digits by pair of digits from the end: the inverse of
   * `LowerHex` (a lone leading digit is ignored).
   */
  function HexDecode(s: string): seq<JByte>
    requires IsLowerHex(s)
  {
    if |s| < 2 then [] else HexDecode(s[..|s| - 2]) + [ByteOf(s[|s| - 2], s[|s| - 1])]
  }

  /** Reading back the two digits of a byte gives the byte. */
  lemma ByteHexDecodes(b: JByte)
    ensures ByteOf(ByteHex(b)[0], ByteHex(b)[1]) == b
  {
    var u := Unsigned(b);
    DigitRoundTrip(u / 16);
    DigitRoundTrip(u % 16);
    assert u == u / 16 * 16 + u % 16;
  }

  /** Decoding the hex gives back the digest. */
  lemma {:induction false} DecodeLowerHex(d: seq<JByte>)
    ensures IsLowerHex(LowerHex(d))
    ensures HexDecode(LowerHex(d)) == d
  {
    LowerHexLength(d);
    AllLowerHex(d);
    if d != [] {
      var init, last := d[..|d| - 1], d[|d| - 1];
      var s := LowerHex(d);
      assert s == LowerHex(init) + ByteHex(last);
      LowerHexLength(init);
      assert s[..|s| - 2] == LowerHex(init);
      assert s[|s| - 2] == ByteHex(last)[0] && s[|s| - 1] == ByteHex(last)[1];
      DecodeLowerHex(init);
      ByteHexDecodes(last);
      assert HexDecode(s) == init + [last];
      assert init + [last] == d;
    }
  }

  /** Different digests never give the same hex. */
  lemma LowerHexInjective(d1: seq<JByte>, d2: seq<JByte>)
    ensures LowerHex(d1) == LowerHex(d2) <==> d1 == d2
  {
    if LowerHex(d1) == LowerHex(d2) {
      DecodeLowerHex(d1);
      DecodeLowerHex(d2);
    }
  }
}
