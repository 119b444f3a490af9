/** Unsigned little-endian integers of a fixed byte width, as `int.to_bytes(n, 'little')` writes them. */
module LittleEndian {
  import opened Wrappers

  type byte = b: int | 0 <= b < 256

  /** 256^n, the number of values an n-byte field can hold. */
  function Pow256(n: nat): (r: nat)
    ensures r >= 1
  {
    if n == 0 then 1 else 256 * Pow256(n - 1)
  }

  lemma Pow256Widths()
    ensures Pow256(2) == 0x1_0000
    ensures Pow256(4) == 0x1_0000_0000
  {
    assert Pow256(1) == 256;
    assert Pow256(3) == 256 * Pow256(2);
  }

  /** The n-byte little-endian form of `v`, least significant byte first. */
  function Encode(v: nat, n: nat): (r: seq<byte>)
    requires v < Pow256(n)
    ensures |r| == n
  {
    if n == 0 then [] else [v % 256] + Encode(v / 256, n - 1)
  }

  /** The value of a little-endian byte string. */
  function Decode(bs: seq<byte>): (r: nat)
    ensures r < Pow256(|bs|)
  {
    if |bs| == 0 then 0 else bs[0] + 256 * Decode(bs[1..])
  }

  lemma {:induction false} DecodeEncode(v: nat, n: nat)
    requires v < Pow256(n)
    ensures Decode(Encode(v, n)) == v
  {
    if n > 0 {
      var r := Encode(v, n);
      assert r[1..] == Encode(v / 256, n - 1);
      DecodeEncode(v / 256, n - 1);
    }
  }

  lemma {:induction false} EncodeDecode(bs: seq<byte>)
    ensures Encode(Decode(bs), |bs|) == bs
  {
    if |bs| > 0 {
      EncodeDecode(bs[1..]);
      assert Decode(bs) % 256 == bs[0];
      assert Decode(bs) / 256 == Decode(bs[1..]);
    }
  }

  /**
   * `v.to_bytes(n, 'little')`: None where Python raises OverflowError, that is,
   * for a negative value or one that does not fit in n bytes.
   */
  function ToBytes(v: int, n: nat): (r: Option<seq<byte>>)
    ensures r.Some? <==> 0 <= v < Pow256(n)
    ensures r.Some? ==> |r.value| == n && Decode(r.value) == v
  {
    if 0 <= v < Pow256(n) then
      DecodeEncode(v, n);
      Some(Encode(v, n))
    else None
  }
}
