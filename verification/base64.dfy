/**
 * Base64 with the standard alphabet and `=` padding (section 4 of RFC 4648),
 * as `base64.b64encode` writes it and `base64.b64decode` reads it back.
 */
module Base64 {
  import opened Wrappers
  import opened LittleEndian

  type Sextet = v: int | 0 <= v < 64

  /** The character for a 6-bit value: A-Z, a-z, 0-9, '+', '/'. */
  function CharOf(v: Sextet): char {
    if v < 26 then ('A' as int + v) as char
    else if v < 52 then ('a' as int + (v - 26)) as char
    else if v < 62 then ('0' as int + (v - 52)) as char
    else if v == 62 then '+'
    else '/'
  }

  /** The 6-bit value of an alphabet character; None for anything else, `=` included. */
  function ValueOf(c: char): (r: Option<Sextet>)
    ensures r.Some? ==> CharOf(r.value) == c
  {
    if 'A' <= c <= 'Z' then Some(c as int - 'A' as int)
    else if 'a' <= c <= 'z' then Some(c as int - 'a' as int + 26)
    else if '0' <= c <= '9' then Some(c as int - '0' as int + 52)
    else if c == '+' then Some(62)
    else if c == '/' then Some(63)
    else None
  }

  lemma ValueOfCharOf(v: Sextet)
    ensures ValueOf(CharOf(v)) == Some(v)
    ensures CharOf(v) != '='
  {
  }

  /** Three bytes as four characters. */
  function EncodeGroup(b0: byte, b1: byte, b2: byte): (r: string)
    ensures |r| == 4
  {
    [CharOf(b0 / 4), CharOf((b0 % 4) * 16 + b1 / 16), CharOf((b1 % 16) * 4 + b2 / 64), CharOf(b2 % 64)]
  }

  /** `b64encode`: full groups of three, then a final group of one or two bytes padded with `=`. */
  function Encode(bs: seq<byte>): (r: string)
    ensures |r| % 4 == 0
    ensures |r| == 4 * ((|bs| + 2) / 3)
    decreases |bs|
  {
    if |bs| >= 3 then
      assert (|bs[3..]| + 2) / 3 + 1 == (|bs| + 2) / 3;
      EncodeGroup(bs[0], bs[1], bs[2]) + Encode(bs[3..])
    else if |bs| == 2 then [CharOf(bs[0] / 4), CharOf((bs[0] % 4) * 16 + bs[1] / 16), CharOf((bs[1] % 16) * 4), '=']
    else if |bs| == 1 then [CharOf(bs[0] / 4), CharOf((bs[0] % 4) * 16), '=', '=']
    else []
  }

  /**
   * Four characters back to bytes: three from four values, two when the
   * last is `=`, one when the last two are. Leftover low bits of a padded
   * group are ignored, as the non-strict decoder does.
   */
  function DecodeQuad(c0: char, c1: char, c2: char, c3: char): (r: Option<seq<byte>>)
    ensures r.Some? ==> 1 <= |r.value| <= 3
  {
    var v0 :- ValueOf(c0);
    var v1 :- ValueOf(c1);
    if c2 == '=' && c3 == '=' then Some([v0 * 4 + v1 / 16])
    else
      var v2 :- ValueOf(c2);
      if c3 == '=' then Some([v0 * 4 + v1 / 16, (v1 % 16) * 16 + v2 / 4])
      else
        var v3 :- ValueOf(c3);
        Some([v0 * 4 + v1 / 16, (v1 % 16) * 16 + v2 / 4, (v2 % 4) * 64 + v3])
  }

  /**
   * `b64decode` on well-formed input: groups of four characters, padding
   * only in the last group; None where the decoder would raise.
   */
  function Decode(s: string): (r: Option<seq<byte>>)
    ensures r.Some? ==> |s| % 4 == 0
    decreases |s|
  {
    if |s| == 0 then Some([])
    else if |s| < 4 then None
    else
      var head :- DecodeQuad(s[0], s[1], s[2], s[3]);
      if |head| < 3 && |s| > 4 then None
      else
        var tail :- Decode(s[4..]);
        Some(head + tail)
  }

  lemma FirstByte(b0: byte, b1: byte)
    ensures (b0 / 4) * 4 + ((b0 % 4) * 16 + b1 / 16) / 16 == b0
  {
    assert ((b0 % 4) * 16 + b1 / 16) / 16 == b0 % 4;
  }

  lemma GroupDecodes(b0: byte, b1: byte, b2: byte)
    ensures var g := EncodeGroup(b0, b1, b2);
      DecodeQuad(g[0], g[1], g[2], g[3]) == Some([b0, b1, b2])
  {
    var v0, v1, v2, v3 := b0 / 4, (b0 % 4) * 16 + b1 / 16, (b1 % 16) * 4 + b2 / 64, b2 % 64;
    ValueOfCharOf(v0);
    ValueOfCharOf(v1);
    ValueOfCharOf(v2);
    ValueOfCharOf(v3);
    FirstByte(b0, b1);
    assert v1 % 16 == b1 / 16 % 16;
    assert (v1 % 16) * 16 + v2 / 4 == b1 by {
      assert v2 / 4 == b1 % 16;
    }
    assert (v2 % 4) * 64 + v3 == b2 by {
      assert v2 % 4 == b2 / 64;
    }
  }

  lemma PairDecodes(b0: byte, b1: byte)
    ensures DecodeQuad(CharOf(b0 / 4), CharOf((b0 % 4) * 16 + b1 / 16), CharOf((b1 % 16) * 4), '=') == Some([b0, b1])
  {
    var v0, v1, v2 := b0 / 4, (b0 % 4) * 16 + b1 / 16, (b1 % 16) * 4;
    ValueOfCharOf(v0);
    ValueOfCharOf(v1);
    ValueOfCharOf(v2);
    FirstByte(b0, b1);
    assert (v1 % 16) * 16 + v2 / 4 == b1;
  }

  lemma SingleDecodes(b0: byte)
    ensures DecodeQuad(CharOf(b0 / 4), CharOf((b0 % 4) * 16), '=', '=') == Some([b0])
  {
    ValueOfCharOf(b0 / 4);
    ValueOfCharOf((b0 % 4) * 16);
    FirstByte(b0, 0);
  }

  /**
   * Each group of four characters decodes to three bytes, the last to one,
   * two or three; so only the empty text decodes to no bytes.
   */
  lemma {:induction false} DecodedLength(s: string)
    ensures var r := Decode(s);
      r.Some? ==> |s| / 4 * 3 - 2 <= |r.value| <= |s| / 4 * 3 && (|r.value| == 0 <==> |s| == 0)
    decreases |s|
  {
    if |s| >= 4 {
      DecodedLength(s[4..]);
      var head := DecodeQuad(s[0], s[1], s[2], s[3]);
      if head.Some? && (|head.value| == 3 || |s| == 4) && Decode(s[4..]).Some? {
        assert |s| / 4 == |s[4..]| / 4 + 1;
      }
    }
  }

  /** A group decoding to three bytes, followed by decodable text, decodes to both in turn. */
  lemma DecodeFullGroup(g: string, rest: string, head: seq<byte>, tail: seq<byte>)
    requires |g| == 4 && DecodeQuad(g[0], g[1], g[2], g[3]) == Some(head) && |head| == 3
    requires Decode(rest) == Some(tail)
    ensures Decode(g + rest) == Some(head + tail)
  {
    assert (g + rest)[4..] == rest;
  }

  lemma PairEncodingDecodes(bs: seq<byte>)
    requires |bs| == 2
    ensures Decode(Encode(bs)) == Some(bs)
  {
    var s := [CharOf(bs[0] / 4), CharOf((bs[0] % 4) * 16 + bs[1] / 16), CharOf((bs[1] % 16) * 4), '='];
    assert Encode(bs) == s;
    PairDecodes(bs[0], bs[1]);
    assert s[4..] == [];
    assert [bs[0], bs[1]] + [] == bs;
  }

  lemma SingleEncodingDecodes(bs: seq<byte>)
    requires |bs| == 1
    ensures Decode(Encode(bs)) == Some(bs)
  {
    var s := [CharOf(bs[0] / 4), CharOf((bs[0] % 4) * 16), '=', '='];
    assert Encode(bs) == s;
    SingleDecodes(bs[0]);
    assert s[4..] == [];
    assert [bs[0]] + [] == bs;
  }

  /** Decoding an encoding gives back the bytes. */
  lemma {:induction false} DecodeEncode(bs: seq<byte>)
    ensures Decode(Encode(bs)) == Some(bs)
    decreases |bs|
  {
    if |bs| >= 3 {
      var g := EncodeGroup(bs[0], bs[1], bs[2]);
      assert Encode(bs) == g + Encode(bs[3..]);
      GroupDecodes(bs[0], bs[1], bs[2]);
      DecodeEncode(bs[3..]);
      DecodeFullGroup(g, Encode(bs[3..]), [bs[0], bs[1], bs[2]], bs[3..]);
      assert bs == [bs[0], bs[1], bs[2]] + bs[3..];
    } else if |bs| == 2 {
      PairEncodingDecodes(bs);
    } else if |bs| == 1 {
      SingleEncodingDecodes(bs);
    }
  }
}
