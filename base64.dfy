/**
 * The basic Base64 alphabet and padding of section 4 of RFC 4648, decoded the
 * way `java.util.Base64.getDecoder().decode(String)` does it: every character
 * must be in the alphabet, input is read in quanta of four characters, and the
 * last quantum may be two characters (optionally followed by "==") or three
 * characters (optionally followed by "="). Anything else, a single dangling
 * character or text after the padding included, is rejected (`None`, the
 * decoder's IllegalArgumentException). Like the Java decoder, unused low bits
 * of a short final quantum are ignored.
 */
module Base64 {
  import opened Wrappers

  type byte = x: int | 0 <= x < 256

  predicate IsBase64Char(c: char) {
    'A' <= c <= 'Z' || 'a' <= c <= 'z' || '0' <= c <= '9' || c == '+' || c == '/'
  }

  /** The 6-bit value of an alphabet character. */
  function CharValue(c: char): (v: nat)
    requires IsBase64Char(c)
    ensures v < 64
    ensures ValueChar(v) == c
  {
    if 'A' <= c <= 'Z' then c as int - 'A' as int
    else if 'a' <= c <= 'z' then c as int - 'a' as int + 26
    else if '0' <= c <= '9' then c as int - '0' as int + 52
    else if c == '+' then 62
    else 63
  }

  /** The alphabet character of a 6-bit value. */
  function ValueChar(v: nat): (c: char)
    requires v < 64
    ensures IsBase64Char(c)
  {
    if v < 26 then (v + 'A' as int) as char
    else if v < 52 then (v - 26 + 'a' as int) as char
    else if v < 62 then (v - 52 + '0' as int) as char
    else if v == 62 then '+'
    else '/'
  }

  lemma ValueCharInverse(v: nat)
    requires v < 64
    ensures CharValue(ValueChar(v)) == v
  {
  }

  predicate AllBase64(s: string) {
    forall i :: 0 <= i < |s| ==> IsBase64Char(s[i])
  }

  /** Four alphabet characters: 24 bits, three bytes. */
  function DecodeQuad(a: char, b: char, c: char, d: char): (r: seq<byte>)
    requires IsBase64Char(a) && IsBase64Char(b) && IsBase64Char(c) && IsBase64Char(d)
    ensures |r| == 3
  {
    var n := CharValue(a) * 262144 + CharValue(b) * 4096 + CharValue(c) * 64 + CharValue(d);
    [n / 65536, (n / 256) % 256, n % 256]
  }

  /** Three alphabet characters: the top 16 of their 18 bits, two bytes. */
  function DecodeTriple(a: char, b: char, c: char): (r: seq<byte>)
    requires IsBase64Char(a) && IsBase64Char(b) && IsBase64Char(c)
    ensures |r| == 2
  {
    var n := CharValue(a) * 4096 + CharValue(b) * 64 + CharValue(c);
    [n / 1024, (n / 4) % 256]
  }

  /** Two alphabet characters: the top 8 of their 12 bits, one byte. */
  function DecodePair(a: char, b: char): (r: seq<byte>)
    requires IsBase64Char(a) && IsBase64Char(b)
    ensures |r| == 1
  {
    var n := CharValue(a) * 64 + CharValue(b);
    [n / 16]
  }

  /** The final (possibly short, possibly padded) quantum. */
  function DecodeLast(s: string): (r: Option<seq<byte>>)
    requires |s| <= 4
  {
    if |s| == 0 then Some([])
    else if |s| == 1 then None
    else if |s| == 2 then
      (if AllBase64(s) then Some(DecodePair(s[0], s[1])) else None)
    else if |s| == 3 then
      (if AllBase64(s) then Some(DecodeTriple(s[0], s[1], s[2])) else None)
    else if AllBase64(s) then Some(DecodeQuad(s[0], s[1], s[2], s[3]))
    else if AllBase64(s[..3]) && s[3] == '=' then Some(DecodeTriple(s[0], s[1], s[2]))
    else if AllBase64(s[..2]) && s[2] == '=' && s[3] == '=' then Some(DecodePair(s[0], s[1]))
    else None
  }

  /** `Base64.getDecoder().decode(s)`; `None` where Java throws. */
  function Decode(s: string): (r: Option<seq<byte>>)
    decreases |s|
  {
    if |s| <= 4 then DecodeLast(s)
    else if AllBase64(s[..4]) then
      match Decode(s[4..])
      case Some(rest) => Some(DecodeQuad(s[0], s[1], s[2], s[3]) + rest)
      case None => None
    else None
  }

  /** Text the decoder accepts is made of alphabet characters and '=' only. */
  lemma {:induction false} DecodedHasNoWhitespace(s: string)
    requires Decode(s).Some?
    ensures forall i :: 0 <= i < |s| ==> IsBase64Char(s[i]) || s[i] == '='
    decreases |s|
  {
    if |s| > 4 {
      DecodedHasNoWhitespace(s[4..]);
      forall i | 0 <= i < |s|
        ensures IsBase64Char(s[i]) || s[i] == '='
      {
        if i >= 4 {
          assert s[i] == s[4..][i - 4];
        } else {
          assert s[i] == s[..4][i];
        }
      }
    } else if |s| == 4 && !AllBase64(s) {
      if AllBase64(s[..3]) && s[3] == '=' {
        assert forall i :: 0 <= i < 3 ==> s[i] == s[..3][i];
      } else {
        assert forall i :: 0 <= i < 2 ==> s[i] == s[..2][i];
      }
    }
  }

  /**
   * The decoded length: three bytes per full quantum, and one or two bytes for
   * a final quantum of two or three significant characters.
   */
  lemma {:induction false} DecodedLength(s: string)
    requires Decode(s).Some?
    ensures (|s| == 0 || s[|s| - 1] != '=') ==>
              |Decode(s).value| == |s| / 4 * 3 + (if |s| % 4 == 0 then 0 else |s| % 4 - 1)
    ensures |s| > 0 && s[|s| - 1] == '=' ==>
              |s| % 4 == 0 && |Decode(s).value| == |s| / 4 * 3 - (if s[|s| - 2] == '=' then 2 else 1)
    decreases |s|
  {
    if |s| > 4 {
      DecodedLength(s[4..]);
      assert s[4..][|s| - 5] == s[|s| - 1];
      assert s[4..][|s| - 6] == s[|s| - 2];
    } else if |s| == 4 && !AllBase64(s) {
      if AllBase64(s[..3]) && s[3] == '=' {
        assert s[..3][2] == s[2];
      }
    }
  }

  /** Three bytes as four alphabet characters. */
  function EncodeTriple(b0: byte, b1: byte, b2: byte): (r: string)
    ensures |r| == 4 && AllBase64(r)
  {
    var n := b0 as int * 65536 + b1 * 256 + b2;
    var q1 := n / 64;
    var q2 := q1 / 64;
    [ValueChar(q2 / 64), ValueChar(q2 % 64), ValueChar(q1 % 64), ValueChar(n % 64)]
  }

  /** Two final bytes as three characters and one '='. */
  function EncodeLastPair(b0: byte, b1: byte): (r: string)
    ensures |r| == 4 && AllBase64(r[..3]) && r[3] == '='
  {
    var n := b0 as int * 256 + b1;
    [ValueChar(n / 1024), ValueChar((n / 16) % 64), ValueChar((n % 16) * 4), '=']
  }

  /** One final byte as two characters and "==". */
  function EncodeLastByte(b0: byte): (r: string)
    ensures |r| == 4 && AllBase64(r[..2]) && r[2] == '=' && r[3] == '='
  {
    [ValueChar(b0 / 4), ValueChar((b0 % 4) * 16), '=', '=']
  }

  /** The padded encoding of section 4 of RFC 4648, the inverse partner of `Decode`. */
  function Encode(b: seq<byte>): (r: string)
    ensures |r| == 4 * ((|b| + 2) / 3)
    decreases |b|
  {
    if |b| == 0 then ""
    else if |b| == 1 then EncodeLastByte(b[0])
    else if |b| == 2 then EncodeLastPair(b[0], b[1])
    else
      var rest := Encode(b[3..]);
      assert (|b| + 2) / 3 == (|b| - 1) / 3 + 1;
      EncodeTriple(b[0], b[1], b[2]) + rest
  }

  /** Three bytes packed big-endian into 24 bits unpack to the same bytes. */
  lemma Unpack24(b0: byte, b1: byte, b2: byte)
    ensures var n := b0 as int * 65536 + b1 * 256 + b2;
            n / 65536 == b0 && (n / 256) % 256 == b1 && n % 256 == b2
  {
    var n := b0 as int * 65536 + b1 * 256 + b2;
    assert n / 256 == b0 * 256 + b1;
  }

  /** A 24-bit value is the sum of its four sextets. */
  lemma Sextets24(n: int)
    requires 0 <= n < 16777216
    ensures var q1 := n / 64; var q2 := q1 / 64;
            (q2 / 64) * 262144 + (q2 % 64) * 4096 + (q1 % 64) * 64 + n % 64 == n
  {
    var q1 := n / 64;
    var q2 := q1 / 64;
    assert q2 == (q2 / 64) * 64 + q2 % 64;
    assert q1 == q2 * 64 + q1 % 64;
  }

  lemma QuadRoundTrip(b0: byte, b1: byte, b2: byte)
    ensures var e := EncodeTriple(b0, b1, b2);
            DecodeQuad(e[0], e[1], e[2], e[3]) == [b0, b1, b2]
  {
    var n := b0 as int * 65536 + b1 * 256 + b2;
    var q1 := n / 64;
    var q2 := q1 / 64;
    ValueCharInverse(q2 / 64);
    ValueCharInverse(q2 % 64);
    ValueCharInverse(q1 % 64);
    ValueCharInverse(n % 64);
    Sextets24(n);
    Unpack24(b0, b1, b2);
  }

  lemma PairRoundTrip(b0: byte)
    ensures var e := EncodeLastByte(b0); DecodePair(e[0], e[1]) == [b0]
  {
    ValueCharInverse(b0 / 4);
    ValueCharInverse((b0 % 4) * 16);
    assert (b0 / 4) * 64 + (b0 % 4) * 16 == b0 * 16;
  }

  /** Two bytes, shifted left by two bits, are the sum of their three sextets. */
  lemma Sextets16(b0: byte, b1: byte)
    ensures var n := b0 as int * 256 + b1;
            (n / 1024) * 4096 + ((n / 16) % 64) * 64 + (n % 16) * 4 == n * 4
  {
    var n := b0 as int * 256 + b1;
    var q := n / 16;
    assert n / 1024 == q / 64;
    assert q == (q / 64) * 64 + q % 64;
  }

  lemma Unpack16(b0: byte, b1: byte)
    ensures var m := b0 as int * 1024 + b1 * 4; m / 1024 == b0 && (m / 4) % 256 == b1
  {
    var m := b0 as int * 1024 + b1 * 4;
    assert m / 4 == b0 * 256 + b1;
  }

  lemma TripleRoundTrip(b0: byte, b1: byte)
    ensures var e := EncodeLastPair(b0, b1); DecodeTriple(e[0], e[1], e[2]) == [b0, b1]
  {
    var n := b0 as int * 256 + b1;
    var e := EncodeLastPair(b0, b1);
    var s0, s1, s2 := n / 1024, (n / 16) % 64, (n % 16) * 4;
    ValueCharInverse(s0);
    ValueCharInverse(s1);
    ValueCharInverse(s2);
    assert CharValue(e[0]) == s0 && CharValue(e[1]) == s1 && CharValue(e[2]) == s2;
    Sextets16(b0, b1);
    var m := s0 * 4096 + s1 * 64 + s2;
    assert m == b0 * 1024 + b1 * 4;
    Unpack16(b0, b1);
  }

  lemma DecodeLastByte(b0: byte)
    ensures Decode(EncodeLastByte(b0)) == Some([b0])
  {
    var e := EncodeLastByte(b0);
    PairRoundTrip(b0);
    assert !IsBase64Char(e[3]);
    assert !AllBase64(e[..3]) by { assert !IsBase64Char(e[..3][2]); }
  }

  lemma DecodeLastPair(b0: byte, b1: byte)
    ensures Decode(EncodeLastPair(b0, b1)) == Some([b0, b1])
  {
    var e := EncodeLastPair(b0, b1);
    TripleRoundTrip(b0, b1);
    assert !IsBase64Char(e[3]);
  }

  /** A full leading quantum decodes on its own, ahead of the rest. */
  lemma DecodeFullQuantum(t: string, rest: string, tail: seq<byte>)
    requires |t| == 4 && AllBase64(t)
    requires Decode(rest) == Some(tail)
    ensures Decode(t + rest) == Some(DecodeQuad(t[0], t[1], t[2], t[3]) + tail)
  {
    var e := t + rest;
    if rest == [] {
      assert e == t;
      assert tail == [];
      assert DecodeQuad(t[0], t[1], t[2], t[3]) + tail == DecodeQuad(t[0], t[1], t[2], t[3]);
    } else {
      assert e[..4] == t;
      assert e[4..] == rest;
      assert e[0] == t[0] && e[1] == t[1] && e[2] == t[2] && e[3] == t[3];
    }
  }

  /** Decoding an encoding gives the bytes back. */
  lemma {:induction false} DecodeEncode(b: seq<byte>)
    ensures Decode(Encode(b)) == Some(b)
    decreases |b|
  {
    if |b| == 1 {
      DecodeLastByte(b[0]);
      assert b == [b[0]];
    } else if |b| == 2 {
      DecodeLastPair(b[0], b[1]);
      assert b == [b[0], b[1]];
    } else if |b| >= 3 {
      var t := EncodeTriple(b[0], b[1], b[2]);
      QuadRoundTrip(b[0], b[1], b[2]);
      DecodeEncode(b[3..]);
      DecodeFullQuantum(t, Encode(b[3..]), b[3..]);
      assert b == [b[0], b[1], b[2]] + b[3..];
    }
  }
}
