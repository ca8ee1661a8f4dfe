/**
 * The `%x` verb of Go's fmt package applied to a byte slice: every byte
 * becomes two lowercase hexadecimal digits, high nibble first, and the
 * pairs are concatenated in the order of the bytes.  The filestat plugin
 * uses it to render an MD5 digest as the value of the `md5_sum` field.
 *
 * HexDecode is the inverse, written independently of HexEncode. The two
 * round-trip lemmas, with HexDecodeTotal (every even-length string of
 * lowercase hex digits decodes), show that HexEncode is a bijection between
 * byte sequences and those strings.
 */
module Hex {
  import opened Wrappers

  type Byte = b: int | 0 <= b < 0x100

  predicate IsLowerHexDigit(c: char) {
    '0' <= c <= '9' || 'a' <= c <= 'f'
  }

  /** The lowercase hex digit of a nibble. */
  function HexDigit(n: int): (c: char)
    requires 0 <= n < 16
    ensures IsLowerHexDigit(c)
  {
    if n < 10 then ('0' as int + n) as char else ('a' as int + n - 10) as char
  }

  /** The value of a lowercase hex digit; None for any other character. */
  function DigitValue(c: char): (r: Option<int>)
    ensures r.Some? <==> IsLowerHexDigit(c)
    ensures r.Some? ==> 0 <= r.value < 16 && HexDigit(r.value) == c
  {
    if '0' <= c <= '9' then Some(c as int - '0' as int)
    else if 'a' <= c <= 'f' then Some(c as int - 'a' as int + 10)
    else None
  }

  lemma DigitValueOfHexDigit(n: int)
    requires 0 <= n < 16
    ensures DigitValue(HexDigit(n)) == Some(n)
  {
  }

  /** `fmt.Sprintf("%x", bytes)`. */
  function HexEncode(bytes: seq<Byte>): (s: string)
    ensures |s| == 2 * |bytes|
    ensures forall i :: 0 <= i < |s| ==> IsLowerHexDigit(s[i])
  {
    if bytes == [] then ""
    else [HexDigit(bytes[0] / 16), HexDigit(bytes[0] % 16)] + HexEncode(bytes[1..])
  }

  /** Byte k of the input is rendered at positions 2k (high nibble) and 2k+1 (low nibble). */
  lemma {:induction false} HexEncodeAt(bytes: seq<Byte>, k: int)
    requires 0 <= k < |bytes|
    ensures HexEncode(bytes)[2 * k] == HexDigit(bytes[k] / 16)
    ensures HexEncode(bytes)[2 * k + 1] == HexDigit(bytes[k] % 16)
  {
    if k > 0 {
      HexEncodeAt(bytes[1..], k - 1);
    }
  }

  /** Reads a string of lowercase hex digit pairs back into bytes. */
  function HexDecode(s: string): (r: Option<seq<Byte>>)
    decreases |s|
  {
    if s == [] then Some([])
    else if |s| == 1 then None
    else
      match (DigitValue(s[0]), DigitValue(s[1]), HexDecode(s[2..]))
      case (Some(hi), Some(lo), Some(rest)) => Some([hi * 16 + lo] + rest)
      case _ => None
  }

  lemma {:induction false} HexDecodeEncode(bytes: seq<Byte>)
    ensures HexDecode(HexEncode(bytes)) == Some(bytes)
  {
    if bytes != [] {
      var s := HexEncode(bytes);
      var b := bytes[0];
      assert s[2..] == HexEncode(bytes[1..]);
      DigitValueOfHexDigit(b / 16);
      DigitValueOfHexDigit(b % 16);
      HexDecodeEncode(bytes[1..]);
      assert [b / 16 * 16 + b % 16] + bytes[1..] == bytes;
    }
  }

  lemma {:induction false} HexEncodeDecode(s: string)
    requires HexDecode(s).Some?
    ensures HexEncode(HexDecode(s).value) == s
    decreases |s|
  {
    if s != [] {
      var hi := DigitValue(s[0]).value;
      var lo := DigitValue(s[1]).value;
      var rest := HexDecode(s[2..]).value;
      HexEncodeDecode(s[2..]);
      var b: Byte := hi * 16 + lo;
      assert b / 16 == hi && b % 16 == lo;
      assert ([b] + rest)[1..] == rest;
      assert s == [s[0], s[1]] + s[2..];
    }
  }

  /** Every even-length string of lowercase hex digits decodes. */
  lemma {:induction false} HexDecodeTotal(s: string)
    requires |s| % 2 == 0
    requires forall i :: 0 <= i < |s| ==> IsLowerHexDigit(s[i])
    ensures HexDecode(s).Some?
    decreases |s|
  {
    if s != [] {
      HexDecodeTotal(s[2..]);
    }
  }

  /** Distinct digests never share an `md5_sum` rendering. */
  lemma HexEncodeInjective(a: seq<Byte>, b: seq<Byte>)
    requires HexEncode(a) == HexEncode(b)
    ensures a == b
  {
    HexDecodeEncode(a);
    HexDecodeEncode(b);
  }
}
