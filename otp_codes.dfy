/*
 * utils/otp.js: one-time codes and opaque tokens derived from random bytes.
 * The random bytes are an input; everything else is deterministic.
 */
module OtpCodes {

  newtype byte = x: int | 0 <= x < 256

  /** Default length of generateOTP and default byte count of generateToken. */
  const DEFAULT_OTP_LENGTH: nat := 6
  const DEFAULT_TOKEN_BYTES: nat := 32

  /** The decimal digit written for one random byte: `bytes[i] % 10`. */
  function DigitOf(b: byte): (c: char)
    ensures '0' <= c <= '9'
    ensures (c as int - '0' as int) == b as int % 10
  {
    ('0' as int + b as int % 10) as char
  }

  /**
   * generateOTP: one digit per drawn byte, appended in a loop.
   * `bytes` stands for crypto.randomBytes(length), so the code has |bytes| digits.
   */
  method GenerateOtp(bytes: seq<byte>) returns (otp: string)
    ensures |otp| == |bytes|
    ensures forall i :: 0 <= i < |bytes| ==> otp[i] as int - '0' as int == bytes[i] as int % 10
    ensures forall i :: 0 <= i < |otp| ==> '0' <= otp[i] <= '9'
  {
    otp := "";
    var i := 0;
    while i < |bytes|
      invariant 0 <= i <= |bytes|
      invariant |otp| == i
      invariant forall k :: 0 <= k < i ==> otp[k] == DigitOf(bytes[k])
    {
      otp := otp + [DigitOf(bytes[i])];
      i := i + 1;
    }
  }

  /** The number of byte values v < n that produce digit d. */
  function Preimages(d: nat, n: nat): nat
  {
    if n == 0 then 0 else Preimages(d, n - 1) + (if (n - 1) % 10 == d then 1 else 0)
  }

  lemma {:induction false} PreimagesClosedForm(d: nat, n: nat)
    requires d < 10
    ensures Preimages(d, n) == n / 10 + (if d < n % 10 then 1 else 0)
  {
    if n > 0 {
      PreimagesClosedForm(d, n - 1);
      var m := n - 1;
      assert m == 10 * (m / 10) + m % 10;
      if m % 10 == 9 {
        assert n / 10 == m / 10 + 1 && n % 10 == 0;
      } else {
        assert n / 10 == m / 10 && n % 10 == m % 10 + 1;
      }
    }
  }

  /** Each of the digits 0..5 comes from 26 byte values and each of 6..9 from 25: the digits are not uniform. */
  lemma DigitBias(d: nat)
    requires d < 10
    ensures Preimages(d, 256) == (if d <= 5 then 26 else 25)
  {
    PreimagesClosedForm(d, 256);
  }

  const HEX_DIGITS: string := "0123456789abcdef"

  /** A lower-case base16 digit. */
  predicate IsHexDigit(c: char)
  {
    '0' <= c <= '9' || 'a' <= c <= 'f'
  }

  function HexDigit(v: nat): (c: char)
    requires v < 16
    ensures IsHexDigit(c)
  {
    HEX_DIGITS[v]
  }

  function HexValue(c: char): (v: nat)
    ensures v < 16
  {
    if '0' <= c <= '9' then c as int - '0' as int
    else if 'a' <= c <= 'f' then c as int - 'a' as int + 10
    else 0
  }

  lemma HexValueOfDigit(v: nat)
    requires v < 16
    ensures HexValue(HexDigit(v)) == v
  {
  }

  /** The high and low nibbles of a byte. */
  function Hi(b: byte): (r: nat)
    ensures r < 16
  {
    b as int / 16
  }

  function Lo(b: byte): (r: nat)
    ensures r < 16
  {
    b as int % 16
  }

  lemma NibblesRebuild(b: byte)
    ensures 16 * Hi(b) + Lo(b) == b as int
  {
  }

  /** Buffer.prototype.toString('hex'): lower-case base16, high nibble first. */
  function HexEncode(bytes: seq<byte>): (s: string)
    ensures |s| == 2 * |bytes|
    ensures forall i :: 0 <= i < |s| ==> IsHexDigit(s[i])
  {
    if bytes == [] then ""
    else [HexDigit(Hi(bytes[0])), HexDigit(Lo(bytes[0]))] + HexEncode(bytes[1..])
  }

  /** Buffer.from(s, 'hex'): two digits per byte; a trailing odd digit is dropped. */
  function HexDecode(s: string): (bytes: seq<byte>)
    ensures 2 * |bytes| <= |s| < 2 * |bytes| + 2
  {
    if |s| < 2 then []
    else [(16 * HexValue(s[0]) + HexValue(s[1])) as byte] + HexDecode(s[2..])
  }

  lemma {:induction false} HexRoundTrip(bytes: seq<byte>)
    ensures HexDecode(HexEncode(bytes)) == bytes
  {
    if bytes != [] {
      var b := bytes[0];
      var rest := HexEncode(bytes[1..]);
      assert HexEncode(bytes) == [HexDigit(Hi(b)), HexDigit(Lo(b))] + rest;
      HexDecodePair(HexDigit(Hi(b)), HexDigit(Lo(b)), rest);
      DigitPairDecodes(b);
      HexRoundTrip(bytes[1..]);
      assert bytes == [b] + bytes[1..];
    }
  }

  /** Decoding reads the leading pair of digits as one byte, then the rest. */
  lemma HexDecodePair(hi: char, lo: char, rest: string)
    ensures HexDecode([hi, lo] + rest) == [(16 * HexValue(hi) + HexValue(lo)) as byte] + HexDecode(rest)
  {
    var s := [hi, lo] + rest;
    assert s[0] == hi && s[1] == lo && s[2..] == rest;
  }

  /** The two digits written for one byte read back as that byte. */
  lemma DigitPairDecodes(b: byte)
    ensures (16 * HexValue(HexDigit(Hi(b))) + HexValue(HexDigit(Lo(b)))) as byte == b
  {
    HexValueOfDigit(Hi(b));
    HexValueOfDigit(Lo(b));
    NibblesRebuild(b);
  }

  /** generateToken: the hex encoding of the drawn bytes (`bytes` stands for crypto.randomBytes(length)). */
  function GenerateToken(bytes: seq<byte>): (token: string)
  {
    HexEncode(bytes)
  }

  lemma TokenShape(bytes: seq<byte>)
    ensures |GenerateToken(bytes)| == 2 * |bytes|
    ensures forall i :: 0 <= i < |GenerateToken(bytes)| ==> IsHexDigit(GenerateToken(bytes)[i])
    ensures HexDecode(GenerateToken(bytes)) == bytes
  {
    HexRoundTrip(bytes);
  }
}
