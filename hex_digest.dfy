/** The CUDA tool's `md5_hex`: a 16-byte MD5 digest rendered as 32 lowercase
    hexadecimal characters, high nibble first. MD5 itself is not modelled; it
    is passed in as a function from bytes to digests. */
module HexDigest {
  import opened Common

  /** MD5_DIGEST_LENGTH. */
  const DIGEST_LENGTH: nat := 16

  type Digest = d: seq<Byte> | |d| == DIGEST_LENGTH witness seq(16, i => 0)

  /** The lookup table `hex` of `md5_hex`. */
  const HEX_DIGITS: string := "0123456789abcdef"

  predicate IsLowerHex(c: char)
  {
    '0' <= c <= '9' || 'a' <= c <= 'f'
  }

  predicate AllLowerHex(s: string)
  {
    forall i :: 0 <= i < |s| ==> IsLowerHex(s[i])
  }

  /** The value of a lowercase hex digit. */
  function NibbleValue(c: char): (v: nat)
    requires IsLowerHex(c)
    ensures v < 16
  {
    if c <= '9' then c as int - '0' as int else c as int - 'a' as int + 10
  }

  /** `hex[v]`: the digit for a nibble, and the only digit with that value. */
  function HexChar(v: nat): (c: char)
    requires v < 16
    ensures IsLowerHex(c) && NibbleValue(c) == v
  {
    HEX_DIGITS[v]
  }

  /** Every lowercase hex digit is the table entry of its value. */
  lemma HexCharOfValue(c: char)
    requires IsLowerHex(c)
    ensures HexChar(NibbleValue(c)) == c
  {
  }

  /** `(b >> 4) & 0xF` and `b & 0xF` of an unsigned byte. */
  function HighNibble(b: Byte): nat { b / 16 }
  function LowNibble(b: Byte): nat { b % 16 }

  /** The hex rendering of a byte string: two digits per byte. */
  function HexEncode(d: seq<Byte>): (s: string)
    ensures |s| == 2 * |d|
    ensures AllLowerHex(s)
  {
    if d == [] then []
    else
      var n := |d| - 1;
      HexEncode(d[..n]) + [HexChar(HighNibble(d[n])), HexChar(LowNibble(d[n]))]
  }

  /** Characters `2i` and `2i+1` of the rendering are the high and the low
      nibble of byte `i`. */
  lemma {:induction false} HexEncodeNibbles(d: seq<Byte>)
    ensures forall i :: 0 <= i < |d| ==>
      NibbleValue(HexEncode(d)[2 * i]) == HighNibble(d[i]) && NibbleValue(HexEncode(d)[2 * i + 1]) == LowNibble(d[i])
  {
    if d != [] {
      var n := |d| - 1;
      HexEncodeNibbles(d[..n]);
      var s, t := HexEncode(d), HexEncode(d[..n]);
      assert s == t + [HexChar(HighNibble(d[n])), HexChar(LowNibble(d[n]))];
      forall i | 0 <= i < |d|
        ensures NibbleValue(s[2 * i]) == HighNibble(d[i]) && NibbleValue(s[2 * i + 1]) == LowNibble(d[i])
      {
        if i < n {
          assert s[2 * i] == t[2 * i] && s[2 * i + 1] == t[2 * i + 1];
          assert d[..n][i] == d[i];
        }
      }
    }
  }

  /** Reads two digits per byte back into bytes. */
  function HexDecode(s: string): (d: seq<Byte>)
    requires |s| % 2 == 0 && AllLowerHex(s)
    ensures |d| == |s| / 2
  {
    seq(|s| / 2, i requires 0 <= i < |s| / 2 => NibbleValue(s[2 * i]) * 16 + NibbleValue(s[2 * i + 1]))
  }

  /** Decoding undoes encoding, so distinct digests get distinct strings. */
  lemma HexRoundTrip(d: seq<Byte>)
    ensures HexDecode(HexEncode(d)) == d
  {
    var s := HexEncode(d);
    HexEncodeNibbles(d);
    forall i | 0 <= i < |d|
      ensures HexDecode(s)[i] == d[i]
    {
      assert NibbleValue(s[2 * i]) * 16 + NibbleValue(s[2 * i + 1]) == HighNibble(d[i]) * 16 + LowNibble(d[i]);
    }
  }

  /** Encoding undoes decoding: every even-length lowercase hex string is the
      rendering of exactly one byte string. */
  lemma HexEncodeDecode(s: string)
    requires |s| % 2 == 0 && AllLowerHex(s)
    ensures HexEncode(HexDecode(s)) == s
  {
    var d := HexDecode(s);
    var t := HexEncode(d);
    HexEncodeNibbles(d);
    forall k | 0 <= k < |s|
      ensures t[k] == s[k]
    {
      var i := k / 2;
      var b := d[i];
      assert b == NibbleValue(s[2 * i]) * 16 + NibbleValue(s[2 * i + 1]);
      assert HighNibble(b) == NibbleValue(s[2 * i]) && LowNibble(b) == NibbleValue(s[2 * i + 1]);
      HexCharOfValue(s[k]);
      HexCharOfValue(t[k]);
    }
  }

  lemma HexInjective(d1: seq<Byte>, d2: seq<Byte>)
    ensures HexEncode(d1) == HexEncode(d2) <==> d1 == d2
  {
    if HexEncode(d1) == HexEncode(d2) {
      HexRoundTrip(d1);
      HexRoundTrip(d2);
    }
  }

  /** `md5_hex(data, n)`: a 32-character string, filled two characters per
      digest byte. */
  method Md5Hex(md5: seq<Byte> -> Digest, data: seq<Byte>) returns (out: string)
    ensures out == HexEncode(md5(data))
    ensures |out| == 2 * DIGEST_LENGTH && AllLowerHex(out)
  {
    var digest := md5(data);
    // `out.resize(MD5_DIGEST_LENGTH * 2)` fills with NUL characters.
    out := seq(2 * DIGEST_LENGTH, _ => '\0');
    for i := 0 to DIGEST_LENGTH
      invariant |out| == 2 * DIGEST_LENGTH
      invariant forall k :: 0 <= k < 2 * i ==> IsLowerHex(out[k])
      invariant forall j :: 0 <= j < i ==>
        NibbleValue(out[2 * j]) == HighNibble(digest[j]) && NibbleValue(out[2 * j + 1]) == LowNibble(digest[j])
    {
      out := out[2 * i := HEX_DIGITS[HighNibble(digest[i])]];
      out := out[2 * i + 1 := HEX_DIGITS[LowNibble(digest[i])]];
    }
    EncodingDeterminedByNibbles(out, digest);
  }

  /** A lowercase hex string whose digit values are the nibbles of `d`
      decodes to `d`. */
  lemma DecodeOfNibbles(s: string, d: seq<Byte>)
    requires |s| % 2 == 0 && |s| / 2 == |d| && AllLowerHex(s)
    requires forall j :: 0 <= j < |d| ==>
      NibbleValue(s[2 * j]) == HighNibble(d[j]) && NibbleValue(s[2 * j + 1]) == LowNibble(d[j])
    ensures HexDecode(s) == d
  {
    forall j | 0 <= j < |d|
      ensures HexDecode(s)[j] == d[j]
    {
      assert HighNibble(d[j]) * 16 + LowNibble(d[j]) == d[j];
    }
  }

  /** ... and so is the encoding of `d`. */
  lemma EncodingDeterminedByNibbles(s: string, d: seq<Byte>)
    requires |s| % 2 == 0 && |s| / 2 == |d| && AllLowerHex(s)
    requires forall j :: 0 <= j < |d| ==>
      NibbleValue(s[2 * j]) == HighNibble(d[j]) && NibbleValue(s[2 * j + 1]) == LowNibble(d[j])
    ensures s == HexEncode(d)
  {
    DecodeOfNibbles(s, d);
    HexEncodeDecode(s);
  }
}
