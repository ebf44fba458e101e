/**
 * `encodeURIComponent` (ECMA-262 5.1, sections 15.1.3 and 15.1.3.4): every code
 * point outside the unreserved set becomes the "%XY" escapes of its UTF-8
 * octets. `decodeURIComponent` (section 15.1.3.2) is modelled beside it as the
 * inverse against which the encoder is checked; a URIError is `None`.
 */
module UriComponent {
  import opened Wrappers
  import opened Utf8

  /** uriAlpha, DecimalDigit and uriMark: the characters the encoder copies unchanged. */
  predicate IsUnreserved(c: char) {
    ('A' <= c <= 'Z') || ('a' <= c <= 'z') || ('0' <= c <= '9') ||
    c == '-' || c == '_' || c == '.' || c == '!' || c == '~' || c == '*' || c == '\'' || c == '(' || c == ')'
  }

  predicate IsUpperHexDigit(c: char) {
    ('0' <= c <= '9') || ('A' <= c <= 'F')
  }

  /** The upper-case hexadecimal digit for `d`, as the encoder writes it. */
  function HexDigit(d: nat): (c: char)
    requires d < 16
    ensures IsUpperHexDigit(c)
  {
    if d < 10 then ('0' as int + d) as char else ('A' as int + d - 10) as char
  }

  /** The value of a hexadecimal digit of either case, as the decoder reads it. */
  function HexValue(c: char): (r: Option<nat>)
    ensures r.Some? ==> r.value < 16
  {
    if '0' <= c <= '9' then Some(c as int - '0' as int)
    else if 'A' <= c <= 'F' then Some(c as int - 'A' as int + 10)
    else if 'a' <= c <= 'f' then Some(c as int - 'a' as int + 10)
    else None
  }

  /** "%XY", XY being two upper-case hexadecimal digits for the octet. */
  function EscapeOctet(b: Byte): (s: string)
    ensures |s| == 3 && s[0] == '%' && IsUpperHexDigit(s[1]) && IsUpperHexDigit(s[2])
  {
    ['%', HexDigit(b / 16), HexDigit(b % 16)]
  }

  /** The escapes of several octets, one "%XY" triple each. */
  function EscapeOctets(bs: seq<Byte>): (s: string)
    ensures |s| == 3 * |bs|
  {
    if bs == [] then [] else EscapeOctet(bs[0]) + EscapeOctets(bs[1..])
  }

  /** One code point: copied when unreserved, otherwise the escapes of its UTF-8 octets. */
  function EncodeChar(c: char): (s: string)
    ensures |s| == 1 <==> IsUnreserved(c)
    ensures !IsUnreserved(c) ==> |s| == 3 * |EncodeScalar(c)|
  {
    if IsUnreserved(c) then [c] else EscapeOctets(EncodeScalar(c))
  }

  /** `encodeURIComponent(s)`: the characters' encodings, in order; never shorter than `s`. */
  function EncodeUriComponent(s: string): (r: string)
    ensures |r| >= |s|
  {
    if s == [] then [] else EncodeChar(s[0]) + EncodeUriComponent(s[1..])
  }

  /** The octet written as "%XY" at the front of `s`, if `s` starts with such an escape. */
  function UnescapeOctet(s: string): Option<Byte> {
    if |s| < 3 || s[0] != '%' then None
    else
      match (HexValue(s[1]), HexValue(s[2]))
      case (Some(hi), Some(lo)) => Some(hi * 16 + lo)
      case _ => None
  }

  /** `n` escaped octets from the front of `s`, or None if fewer are there. */
  function UnescapeOctets(s: string, n: nat): (r: Option<seq<Byte>>)
    ensures r.Some? ==> |r.value| == n && 3 * n <= |s|
  {
    if n == 0 then Some([])
    else
      match UnescapeOctet(s)
      case None => None
      case Some(b) =>
        match UnescapeOctets(s[3..], n - 1)
        case None => None
        case Some(bs) => Some([b] + bs)
  }

  /**
   * The code point whose escaped UTF-8 octets start `s`, with the number of
   * characters they take; None for a bad escape, a bad leading octet, too few
   * continuation octets, or an invalid UTF-8 sequence.
   */
  function DecodeEscape(s: string): (r: Option<(char, nat)>)
    ensures r.Some? ==> 3 <= r.value.1 <= |s|
  {
    match UnescapeOctet(s)
    case None => None
    case Some(lead) =>
      var n := SequenceLength(lead);
      if n == 0 then None
      else
        match UnescapeOctets(s, n)
        case None => None
        case Some(bs) =>
          match DecodeScalar(bs)
          case None => None
          case Some(c) => Some((c, 3 * n))
  }

  /** `decodeURIComponent(s)`: characters other than '%' are copied, escapes are decoded. */
  function DecodeUriComponent(s: string): Option<string>
    decreases |s|
  {
    if s == [] then Some([])
    else if s[0] != '%' then
      match DecodeUriComponent(s[1..])
      case None => None
      case Some(t) => Some([s[0]] + t)
    else
      match DecodeEscape(s)
      case None => None
      case Some((c, k)) =>
        match DecodeUriComponent(s[k..])
        case None => None
        case Some(t) => Some([c] + t)
  }

  /** A code point is left as it is exactly when it is unreserved. */
  lemma EncodeCharUnchangedIff(c: char)
    ensures EncodeChar(c) == [c] <==> IsUnreserved(c)
  {
  }

  /** A code point that is not unreserved becomes three characters per UTF-8 octet, each triple an escape. */
  lemma EncodeCharEscapes(c: char)
    requires !IsUnreserved(c)
    ensures |EncodeChar(c)| == 3 * |EncodeScalar(c)|
    ensures forall k :: 0 <= k < |EncodeScalar(c)| ==>
      UnescapeOctet(EncodeChar(c)[3 * k..]) == Some(EncodeScalar(c)[k])
  {
    forall k | 0 <= k < |EncodeScalar(c)|
      ensures UnescapeOctet(EncodeChar(c)[3 * k..]) == Some(EncodeScalar(c)[k])
    {
      EscapedOctetAt(EncodeScalar(c), k);
    }
  }

  lemma {:induction false} EscapedOctetAt(bs: seq<Byte>, k: nat)
    requires k < |bs|
    ensures UnescapeOctet(EscapeOctets(bs)[3 * k..]) == Some(bs[k])
  {
    var s := EscapeOctets(bs);
    if k == 0 {
      UnescapeEscapeOctet(bs[0], EscapeOctets(bs[1..]));
    } else {
      EscapedOctetAt(bs[1..], k - 1);
      assert s[3 * k..] == EscapeOctets(bs[1..])[3 * (k - 1)..];
    }
  }

  /** Reading back one escape gives the octet written. */
  lemma UnescapeEscapeOctet(b: Byte, rest: string)
    ensures UnescapeOctet(EscapeOctet(b) + rest) == Some(b)
  {
    var s := EscapeOctet(b) + rest;
    assert s[1] == HexDigit(b / 16) && s[2] == HexDigit(b % 16);
  }

  /** Reading back a run of escapes gives the octets written, whatever follows them. */
  lemma {:induction false} UnescapeEscapeOctets(bs: seq<Byte>, rest: string)
    ensures UnescapeOctets(EscapeOctets(bs) + rest, |bs|) == Some(bs)
  {
    if bs != [] {
      var s := EscapeOctets(bs) + rest;
      var tail := EscapeOctets(bs[1..]) + rest;
      assert s == EscapeOctet(bs[0]) + tail;
      UnescapeEscapeOctet(bs[0], tail);
      assert s[3..] == tail;
      UnescapeEscapeOctets(bs[1..], rest);
      assert [bs[0]] + bs[1..] == bs;
    }
  }

  /** The escapes of one code point decode to that code point and consume exactly themselves. */
  lemma DecodeEscapeEncodeChar(c: char, rest: string)
    requires !IsUnreserved(c)
    ensures DecodeEscape(EncodeChar(c) + rest) == Some((c, |EncodeChar(c)|))
  {
    var bs := EncodeScalar(c);
    var tail := EscapeOctets(bs[1..]) + rest;
    assert EncodeChar(c) + rest == EscapeOctet(bs[0]) + tail;
    UnescapeEscapeOctet(bs[0], tail);
    UnescapeEscapeOctets(bs, rest);
    DecodeEncodeScalar(c);
  }

  /** Percent-decoding the encoder's output gives back the text, for every text. */
  lemma {:induction false} DecodeEncode(s: string)
    ensures DecodeUriComponent(EncodeUriComponent(s)) == Some(s)
  {
    if s != [] {
      var e := EncodeUriComponent(s);
      var tail := EncodeUriComponent(s[1..]);
      DecodeEncode(s[1..]);
      if IsUnreserved(s[0]) {
        assert e[0] == s[0] && e[1..] == tail;
      } else {
        DecodeEscapeEncodeChar(s[0], tail);
        assert e[|EncodeChar(s[0])|..] == tail;
      }
      assert [s[0]] + s[1..] == s;
    }
  }

  /** Distinct texts have distinct encodings. */
  lemma EncodeUriComponentInjective(s: string, t: string)
    requires EncodeUriComponent(s) == EncodeUriComponent(t)
    ensures s == t
  {
    DecodeEncode(s);
    DecodeEncode(t);
  }

  /** In a run of escapes, '%' stands exactly at every third position and every other character is an upper-case hex digit. */
  lemma {:induction false} EscapeOctetsShape(bs: seq<Byte>)
    ensures forall i :: 0 <= i < |EscapeOctets(bs)| ==> (EscapeOctets(bs)[i] == '%' <==> i % 3 == 0)
    ensures forall i :: 0 <= i < |EscapeOctets(bs)| ==> EscapeOctets(bs)[i] == '%' || IsUpperHexDigit(EscapeOctets(bs)[i])
  {
    if bs != [] {
      EscapeOctetsShape(bs[1..]);
      var s := EscapeOctets(bs);
      var t := EscapeOctets(bs[1..]);
      assert s == EscapeOctet(bs[0]) + t;
      forall i | 3 <= i < |s| ensures s[i] == t[i - 3] && (i % 3 == 0 <==> (i - 3) % 3 == 0) {}
    }
  }

  /** Whatever the text, its encoding holds only unreserved characters and '%'. */
  lemma {:induction false} EncodedAlphabet(s: string)
    ensures forall i :: 0 <= i < |EncodeUriComponent(s)| ==>
      IsUnreserved(EncodeUriComponent(s)[i]) || EncodeUriComponent(s)[i] == '%'
  {
    if s != [] {
      EncodedAlphabet(s[1..]);
      if !IsUnreserved(s[0]) {
        EscapeOctetsShape(EncodeScalar(s[0]));
      }
      var e := EncodeUriComponent(s);
      var h := EncodeChar(s[0]);
      var t := EncodeUriComponent(s[1..]);
      assert e == h + t;
      forall i | |h| <= i < |e| ensures e[i] == t[i - |h|] {}
    }
  }

  /** The encoded text holds none of the characters that end a query value or split a URL. */
  lemma EncodedHasNoDelimiters(s: string)
    ensures '?' !in EncodeUriComponent(s) && '#' !in EncodeUriComponent(s)
    ensures '&' !in EncodeUriComponent(s) && ' ' !in EncodeUriComponent(s)
    ensures '/' !in EncodeUriComponent(s) && '=' !in EncodeUriComponent(s)
  {
    EncodedAlphabet(s);
  }

  /** The encoder works character by character: encoding a concatenation concatenates the encodings. */
  lemma {:induction false} EncodeAppend(a: string, b: string)
    ensures EncodeUriComponent(a + b) == EncodeUriComponent(a) + EncodeUriComponent(b)
  {
    if a != [] {
      assert (a + b)[0] == a[0] && (a + b)[1..] == a[1..] + b;
      EncodeAppend(a[1..], b);
      var h := EncodeChar(a[0]);
      assert EncodeUriComponent(a + b) == h + (EncodeUriComponent(a[1..]) + EncodeUriComponent(b));
      assert EncodeUriComponent(a) == h + EncodeUriComponent(a[1..]);
    } else {
      assert a + b == b;
    }
  }

  /** A text comes out unchanged if and only if every character of it is unreserved. */
  lemma {:induction false} EncodeUnchangedIff(s: string)
    ensures EncodeUriComponent(s) == s <==> forall i :: 0 <= i < |s| ==> IsUnreserved(s[i])
  {
    if s != [] {
      EncodeUnchangedIff(s[1..]);
      var tail := EncodeUriComponent(s[1..]);
      if !IsUnreserved(s[0]) {
        assert |EncodeUriComponent(s)| >= 3 + |tail| > |s|;
      } else if tail == s[1..] {
        assert EncodeUriComponent(s) == [s[0]] + s[1..] == s;
        forall i | 0 <= i < |s| ensures IsUnreserved(s[i]) {
          if i > 0 { assert s[i] == s[1..][i - 1]; }
        }
      } else {
        assert EncodeUriComponent(s) == [s[0]] + tail;
        assert EncodeUriComponent(s)[1..] == tail;
        var j :| 0 <= j < |s[1..]| && !IsUnreserved(s[1..][j]);
        assert s[j + 1] == s[1..][j];
      }
    }
  }

  /** Unreserved text on both sides of one character: only that character changes. */
  lemma EncodeAroundOne(a: string, c: char, b: string)
    requires forall i :: 0 <= i < |a| ==> IsUnreserved(a[i])
    requires forall i :: 0 <= i < |b| ==> IsUnreserved(b[i])
    ensures EncodeUriComponent(a + [c] + b) == a + EncodeChar(c) + b
  {
    EncodeAppend(a + [c], b);
    EncodeAppend(a, [c]);
    EncodeUnchangedIff(a);
    EncodeUnchangedIff(b);
    assert EncodeUriComponent(a) == a && EncodeUriComponent(b) == b;
    assert [c][1..] == [];
    assert EncodeUriComponent([c]) == EncodeChar(c);
    assert EncodeUriComponent(a + [c]) == a + EncodeChar(c);
  }

  // The example lemmas below take their text as a parameter fixed by `requires`
  // rather than as a literal: Dafny unrolls functions applied to literals
  // eagerly, which makes a literal statement of them slow and unstable.

  /** "hello world" encodes as "hello%20world". */
  lemma HelloWorldExample(text: string)
    requires text == "hello world"
    ensures EncodeUriComponent(text) == "hello%20world"
  {
    EncodeAroundOne(text[..5], text[5], text[6..]);
    assert text == text[..5] + [text[5]] + text[6..];
    assert EncodeChar(' ') == "%20";
  }

  /** "invoice#42" encodes as "invoice%2342". */
  lemma InvoiceExample(text: string)
    requires text == "invoice#42"
    ensures EncodeUriComponent(text) == "invoice%2342"
  {
    EncodeAroundOne(text[..7], text[7], text[8..]);
    assert text == text[..7] + [text[7]] + text[8..];
    assert EncodeChar('#') == "%23";
  }

  /** Two- and four-octet code points: "café" (U+00E9) and U+1F600. */
  lemma NonAsciiExample(text: string, emoji: string)
    requires text == "caf\U{E9}" && emoji == "\U{1F600}"
    ensures EncodeUriComponent(text) == "caf%C3%A9"
    ensures EncodeUriComponent(emoji) == "%F0%9F%98%80"
  {
    EncodeAroundOne(text[..3], text[3], []);
    assert text == text[..3] + [text[3]] + [];
    assert EncodeScalar('\U{E9}') == [0xC3, 0xA9];
    assert EscapeOctets([0xC3, 0xA9]) == "%C3" + EscapeOctets([0xA9]);
    assert EncodeChar('\U{E9}') == "%C3%A9";
    EncodeAroundOne([], emoji[0], []);
    assert emoji == [] + [emoji[0]] + [];
    assert EncodeScalar('\U{1F600}') == [0xF0, 0x9F, 0x98, 0x80];
    assert EscapeOctets([0xF0, 0x9F, 0x98, 0x80]) == "%F0" + EscapeOctets([0x9F, 0x98, 0x80]);
    assert EscapeOctets([0x9F, 0x98, 0x80]) == "%9F" + EscapeOctets([0x98, 0x80]);
    assert EscapeOctets([0x98, 0x80]) == "%98" + EscapeOctets([0x80]);
    assert EncodeChar('\U{1F600}') == "%F0%9F%98%80";
  }
}
