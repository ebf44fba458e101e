/**
 * The UTF-8 transformation that `encodeURIComponent` applies to each code point
 * it escapes (ECMA-262 5.1, section 15.1.3, Table 21), and its inverse, which
 * `decodeURIComponent` applies to the octets it unescapes.
 *
 * A Dafny `char` is a Unicode scalar value (a code point outside the surrogate
 * range D800-DFFF), which is what the encoder sees once a JavaScript string's
 * surrogate pairs have been combined.
 */
module Utf8 {
  import opened Wrappers

  type Byte = b: int | 0 <= b < 256

  /** True of the octets 10xxxxxx that follow the leading octet of a sequence. */
  predicate IsContinuation(b: Byte) {
    0x80 <= b < 0xC0
  }

  /**
   * The length of the sequence that a leading octet announces, or 0 when the
   * octet cannot start a sequence (a continuation octet, or 11111xxx).
   */
  function SequenceLength(lead: Byte): (n: nat)
    ensures n <= 4
  {
    if lead < 0x80 then 1
    else if lead < 0xC0 then 0
    else if lead < 0xE0 then 2
    else if lead < 0xF0 then 3
    else if lead < 0xF8 then 4
    else 0
  }

  /** The smallest code point that may be written with `n` octets (anything smaller is overlong). */
  function MinScalar(n: nat): nat {
    if n <= 1 then 0 else if n == 2 then 0x80 else if n == 3 then 0x800 else 0x10000
  }

  /** True of the octet sequences that are the UTF-8 encoding of exactly one code point. */
  predicate WellFormed(bs: seq<Byte>) {
    |bs| > 0 && SequenceLength(bs[0]) == |bs| &&
    forall i :: 1 <= i < |bs| ==> IsContinuation(bs[i])
  }

  /** Table 21 of ECMA-262 5.1: one to four octets, depending on the range of the code point. */
  function EncodeScalar(c: char): (bs: seq<Byte>)
    ensures WellFormed(bs)
    ensures |bs| == 1 <==> c as int < 0x80
    ensures |bs| == 2 <==> 0x80 <= c as int < 0x800
    ensures |bs| == 3 <==> 0x800 <= c as int < 0x10000
    ensures |bs| == 4 <==> 0x10000 <= c as int
  {
    var v := c as int;
    if v < 0x80 then
      [v]
    else if v < 0x800 then
      [0xC0 + v / 64, 0x80 + v % 64]
    else if v < 0x10000 then
      var q := v / 64;
      [0xE0 + q / 64, 0x80 + q % 64, 0x80 + v % 64]
    else
      var q := v / 64;
      var q2 := q / 64;
      [0xF0 + q2 / 64, 0x80 + q2 % 64, 0x80 + q % 64, 0x80 + v % 64]
  }

  /** The value carried by a sequence whose shape has been checked: the payload bits, most significant first. */
  function Payload(bs: seq<Byte>): int
    requires WellFormed(bs)
  {
    if |bs| == 1 then bs[0]
    else if |bs| == 2 then (bs[0] as int - 0xC0) * 64 + (bs[1] as int - 0x80)
    else if |bs| == 3 then ((bs[0] as int - 0xE0) * 64 + (bs[1] as int - 0x80)) * 64 + (bs[2] as int - 0x80)
    else (((bs[0] as int - 0xF0) * 64 + (bs[1] as int - 0x80)) * 64 + (bs[2] as int - 0x80)) * 64 + (bs[3] as int - 0x80)
  }

  /**
   * The code point that a complete octet sequence encodes, or None when it is
   * not a valid UTF-8 encoding of one code point: a bad shape, an overlong
   * form, a surrogate, or a value above 10FFFF.
   */
  function DecodeScalar(bs: seq<Byte>): (r: Option<char>)
    ensures r.Some? ==> WellFormed(bs)
  {
    if !WellFormed(bs) then None
    else
      var v := Payload(bs);
      if v < MinScalar(|bs|) || (0xD800 <= v < 0xE000) || 0x110000 <= v then None
      else Some(v as char)
  }

  /** Decoding undoes encoding. */
  lemma DecodeEncodeScalar(c: char)
    ensures DecodeScalar(EncodeScalar(c)) == Some(c)
  {
    var v := c as int;
    var bs := EncodeScalar(c);
    if 0x800 <= v < 0x10000 {
      var q := v / 64;
      assert Payload(bs) == ((q / 64) * 64 + q % 64) * 64 + v % 64;
    } else if 0x10000 <= v {
      var q := v / 64;
      var q2 := q / 64;
      assert Payload(bs) == (((q2 / 64) * 64 + q2 % 64) * 64 + q % 64) * 64 + v % 64;
    }
  }

  /** The decoder accepts nothing but the encoder's output: every valid sequence is the encoding of what it decodes to. */
  lemma EncodeDecodeScalar(bs: seq<Byte>, c: char)
    requires DecodeScalar(bs) == Some(c)
    ensures EncodeScalar(c) == bs
  {
    var v := Payload(bs);
    if |bs| == 2 {
      assert v / 64 == bs[0] as int - 0xC0 && v % 64 == bs[1] as int - 0x80;
    } else if |bs| == 3 {
      var q := v / 64;
      assert q == (bs[0] as int - 0xE0) * 64 + (bs[1] as int - 0x80) && v % 64 == bs[2] as int - 0x80;
      assert q / 64 == bs[0] as int - 0xE0 && q % 64 == bs[1] as int - 0x80;
    } else if |bs| == 4 {
      var q := v / 64;
      var q2 := q / 64;
      assert q == ((bs[0] as int - 0xF0) * 64 + (bs[1] as int - 0x80)) * 64 + (bs[2] as int - 0x80);
      assert v % 64 == bs[3] as int - 0x80;
      assert q2 == (bs[0] as int - 0xF0) * 64 + (bs[1] as int - 0x80) && q % 64 == bs[2] as int - 0x80;
      assert q2 / 64 == bs[0] as int - 0xF0 && q2 % 64 == bs[1] as int - 0x80;
    }
  }

  /** Distinct code points have distinct encodings. */
  lemma EncodeScalarInjective(c: char, d: char)
    requires EncodeScalar(c) == EncodeScalar(d)
    ensures c == d
  {
  }
}
