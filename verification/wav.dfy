/**
 * The canonical 44-byte header of a RIFF/WAVE file holding PCM samples:
 * a "RIFF" chunk whose form type is "WAVE", a 16-byte "fmt " chunk with
 * format tag 1 (WAVE_FORMAT_PCM), and a "data" chunk header. Every numeric
 * field is unsigned little-endian.
 */
module Wav {
  import opened Wrappers
  import opened LittleEndian

  const RIFF_TAG: seq<byte> := [0x52, 0x49, 0x46, 0x46]
  const WAVE_TAG: seq<byte> := [0x57, 0x41, 0x56, 0x45]
  const FMT_TAG: seq<byte> := [0x66, 0x6d, 0x74, 0x20]
  const DATA_TAG: seq<byte> := [0x64, 0x61, 0x74, 0x61]
  const FMT_CHUNK_SIZE := 16
  const WAVE_FORMAT_PCM := 1
  const HEADER_SIZE := 44

  /** The values a PCM header records. */
  datatype Format = Format(
    channels: int,
    sampleRate: int,
    byteRate: int,
    blockAlign: int,
    bitsPerSample: int,
    dataSize: int)

  /** Every field of `f` fits its slot in the header. */
  predicate Fits(f: Format) {
    && 0 <= f.channels < 0x1_0000
    && 0 <= f.sampleRate < 0x1_0000_0000
    && 0 <= f.byteRate < 0x1_0000_0000
    && 0 <= f.blockAlign < 0x1_0000
    && 0 <= f.bitsPerSample < 0x1_0000
    && 0 <= f.dataSize
    && 36 + f.dataSize < 0x1_0000_0000
  }

  /** Bytes `offset .. offset + n` of `h` hold `v` as an n-byte little-endian field. */
  predicate FieldAt(h: seq<byte>, offset: nat, n: nat, v: int)
    requires offset + n <= |h|
  {
    0 <= v < Pow256(n) && h[offset..offset + n] == Encode(v, n)
  }

  /** A field reads back as the value it holds. */
  lemma FieldDecodes(h: seq<byte>, offset: nat, n: nat, v: int)
    requires offset + n <= |h| && FieldAt(h, offset, n, v)
    ensures Decode(h[offset..offset + n]) == v
  {
    DecodeEncode(v, n);
  }

  /** The first 44 bytes of `h` are a header recording `f`. */
  predicate IsHeaderFor(h: seq<byte>, f: Format) {
    && |h| >= HEADER_SIZE
    && h[0..4] == RIFF_TAG
    && FieldAt(h, 4, 4, 36 + f.dataSize)
    && h[8..12] == WAVE_TAG
    && h[12..16] == FMT_TAG
    && FieldAt(h, 16, 4, FMT_CHUNK_SIZE)
    && FieldAt(h, 20, 2, WAVE_FORMAT_PCM)
    && FieldAt(h, 22, 2, f.channels)
    && FieldAt(h, 24, 4, f.sampleRate)
    && FieldAt(h, 28, 4, f.byteRate)
    && FieldAt(h, 32, 2, f.blockAlign)
    && FieldAt(h, 34, 2, f.bitsPerSample)
    && h[36..40] == DATA_TAG
    && FieldAt(h, 40, 4, f.dataSize)
  }

  /** The 44 header bytes, given the encoded numeric fields in file order. */
  function Assemble(riffSize: seq<byte>, fmtSize: seq<byte>, format: seq<byte>, channels: seq<byte>,
                    rate: seq<byte>, byteRate: seq<byte>, align: seq<byte>, bits: seq<byte>,
                    dataSize: seq<byte>): seq<byte>
  {
    (RIFF_TAG + riffSize + WAVE_TAG)
    + (FMT_TAG + fmtSize + format + channels)
    + (rate + byteRate + align + bits)
    + (DATA_TAG + dataSize)
  }

  /** The header bytes for a format whose fields all fit. */
  function Layout(f: Format): (h: seq<byte>)
    requires Fits(f)
  {
    Pow256Widths();
    Assemble(Encode(36 + f.dataSize, 4), Encode(FMT_CHUNK_SIZE, 4), Encode(WAVE_FORMAT_PCM, 2),
      Encode(f.channels, 2), Encode(f.sampleRate, 4), Encode(f.byteRate, 4),
      Encode(f.blockAlign, 2), Encode(f.bitsPerSample, 2), Encode(f.dataSize, 4))
  }

  /** A slice of a part that sits at offset `at` of `h` is the same slice of `h`, shifted. */
  lemma SubSlice(h: seq<byte>, part: seq<byte>, at: nat, i: nat, j: nat)
    requires at + |part| <= |h| && h[at..at + |part|] == part
    requires i <= j <= |part|
    ensures h[at + i..at + j] == part[i..j]
  {
    forall k | 0 <= k < j - i
      ensures h[at + i..at + j][k] == part[i..j][k]
    {
      assert part[i..j][k] == part[i + k] == h[at..at + |part|][i + k];
    }
  }

  /** The four parts of a group placed at offset `at` of `h` sit at their running offsets. */
  lemma Group(h: seq<byte>, at: nat, a: seq<byte>, b: seq<byte>, c: seq<byte>, d: seq<byte>)
    requires at + |a + b + c + d| <= |h| && h[at..at + |a + b + c + d|] == a + b + c + d
    ensures h[at..at + |a|] == a
    ensures h[at + |a|..at + |a| + |b|] == b
    ensures h[at + |a| + |b|..at + |a| + |b| + |c|] == c
    ensures h[at + |a| + |b| + |c|..at + |a| + |b| + |c| + |d|] == d
  {
    var g := a + b + c + d;
    assert g[0..|a|] == a;
    assert g[|a|..|a| + |b|] == b;
    assert g[|a| + |b|..|a| + |b| + |c|] == c;
    assert g[|a| + |b| + |c|..|g|] == d;
    SubSlice(h, g, at, 0, |a|);
    SubSlice(h, g, at, |a|, |a| + |b|);
    SubSlice(h, g, at, |a| + |b|, |a| + |b| + |c|);
    SubSlice(h, g, at, |a| + |b| + |c|, |g|);
  }

  /** Each field of an assembled header sits at its offset. */
  lemma AssembleSlices(riffSize: seq<byte>, fmtSize: seq<byte>, format: seq<byte>, channels: seq<byte>,
                       rate: seq<byte>, byteRate: seq<byte>, align: seq<byte>, bits: seq<byte>,
                       dataSize: seq<byte>)
    requires |riffSize| == 4 && |fmtSize| == 4 && |format| == 2 && |channels| == 2
    requires |rate| == 4 && |byteRate| == 4 && |align| == 2 && |bits| == 2 && |dataSize| == 4
    ensures var h := Assemble(riffSize, fmtSize, format, channels, rate, byteRate, align, bits, dataSize);
      && |h| == HEADER_SIZE
      && h[0..4] == RIFF_TAG && h[4..8] == riffSize && h[8..12] == WAVE_TAG
      && h[12..16] == FMT_TAG && h[16..20] == fmtSize && h[20..22] == format && h[22..24] == channels
      && h[24..28] == rate && h[28..32] == byteRate && h[32..34] == align && h[34..36] == bits
      && h[36..40] == DATA_TAG && h[40..44] == dataSize
  {
    var h := Assemble(riffSize, fmtSize, format, channels, rate, byteRate, align, bits, dataSize);
    Group(h, 0, RIFF_TAG + riffSize + WAVE_TAG, FMT_TAG + fmtSize + format + channels,
      rate + byteRate + align + bits, DATA_TAG + dataSize);
    Group(h, 0, RIFF_TAG, riffSize, WAVE_TAG, []);
    Group(h, 12, FMT_TAG, fmtSize, format, channels);
    Group(h, 24, rate, byteRate, align, bits);
    Group(h, 36, DATA_TAG, dataSize, [], []);
  }

  lemma LayoutIsHeader(f: Format)
    requires Fits(f)
    ensures IsHeaderFor(Layout(f), f)
    ensures |Layout(f)| == HEADER_SIZE
  {
    Pow256Widths();
    AssembleSlices(Encode(36 + f.dataSize, 4), Encode(FMT_CHUNK_SIZE, 4), Encode(WAVE_FORMAT_PCM, 2),
      Encode(f.channels, 2), Encode(f.sampleRate, 4), Encode(f.byteRate, 4),
      Encode(f.blockAlign, 2), Encode(f.bitsPerSample, 2), Encode(f.dataSize, 4));
  }

  /**
   * The header for `f`; None where one of the `to_bytes` / `struct.pack`
   * calls writing it would raise because a value is negative or too wide
   * for its slot.
   */
  function Header(f: Format): (r: Option<seq<byte>>)
    ensures r.Some? <==> Fits(f)
    ensures r.Some? ==> |r.value| == HEADER_SIZE && IsHeaderFor(r.value, f)
  {
    if Fits(f) then
      LayoutIsHeader(f);
      Some(Layout(f))
    else None
  }

  /**
   * Reads a canonical PCM header from the front of `h`; None when the tags,
   * the fmt chunk size, the format tag or the RIFF size do not match.
   */
  function ParseHeader(h: seq<byte>): (r: Option<Format>)
    ensures r.Some? ==> IsHeaderFor(h, r.value)
  {
    if |h| < HEADER_SIZE then None
    else if h[0..4] != RIFF_TAG || h[8..12] != WAVE_TAG || h[12..16] != FMT_TAG
      || h[36..40] != DATA_TAG then None
    else if Decode(h[16..20]) != FMT_CHUNK_SIZE || Decode(h[20..22]) != WAVE_FORMAT_PCM then None
    else
      var dataSize := Decode(h[40..44]);
      if Decode(h[4..8]) != 36 + dataSize then None
      else
        ReadField(h, 4, 4);
        ReadField(h, 16, 4);
        ReadField(h, 20, 2);
        ReadField(h, 22, 2);
        ReadField(h, 24, 4);
        ReadField(h, 28, 4);
        ReadField(h, 32, 2);
        ReadField(h, 34, 2);
        ReadField(h, 40, 4);
        Some(Format(Decode(h[22..24]), Decode(h[24..28]), Decode(h[28..32]),
          Decode(h[32..34]), Decode(h[34..36]), dataSize))
  }

  /** Any n bytes hold the field they decode to. */
  lemma ReadField(h: seq<byte>, offset: nat, n: nat)
    requires offset + n <= |h|
    ensures FieldAt(h, offset, n, Decode(h[offset..offset + n]))
  {
    EncodeDecode(h[offset..offset + n]);
  }

  /** Reading a written header gives back exactly the fields it was written from. */
  lemma HeaderRoundTrip(f: Format)
    requires Fits(f)
    ensures Header(f).Some?
    ensures ParseHeader(Header(f).value) == Some(f)
  {
    HeaderDecodes(Header(f).value, f);
  }

  /** Each field of a header reads back as the value it records, and so does the whole header. */
  lemma HeaderDecodes(h: seq<byte>, f: Format)
    requires IsHeaderFor(h, f)
    ensures Decode(h[4..8]) == 36 + f.dataSize
    ensures Decode(h[16..20]) == FMT_CHUNK_SIZE && Decode(h[20..22]) == WAVE_FORMAT_PCM
    ensures Decode(h[22..24]) == f.channels && Decode(h[24..28]) == f.sampleRate
    ensures Decode(h[28..32]) == f.byteRate && Decode(h[32..34]) == f.blockAlign
    ensures Decode(h[34..36]) == f.bitsPerSample && Decode(h[40..44]) == f.dataSize
    ensures ParseHeader(h) == Some(f)
  {
    FieldDecodes(h, 4, 4, 36 + f.dataSize);
    FieldDecodes(h, 16, 4, FMT_CHUNK_SIZE);
    FieldDecodes(h, 20, 2, WAVE_FORMAT_PCM);
    FieldDecodes(h, 22, 2, f.channels);
    FieldDecodes(h, 24, 4, f.sampleRate);
    FieldDecodes(h, 28, 4, f.byteRate);
    FieldDecodes(h, 32, 2, f.blockAlign);
    FieldDecodes(h, 34, 2, f.bitsPerSample);
    FieldDecodes(h, 40, 4, f.dataSize);
  }

  /**
   * What Python's `wave` writer produces for mono 16-bit samples at
   * `sampleRate`: the header, its data size patched on close to the number
   * of bytes written, followed by the bytes themselves. None where the
   * writer's `struct.pack` raises because the RIFF size needs more than 32 bits.
   */
  function MonoPcm16(sampleRate: int, payload: seq<byte>): (r: Option<seq<byte>>)
    requires 0 <= sampleRate && 2 * sampleRate < 0x1_0000_0000
    ensures r.Some? <==> 36 + |payload| < 0x1_0000_0000
    ensures r.Some? ==> |r.value| == HEADER_SIZE + |payload|
    ensures r.Some? ==> IsHeaderFor(r.value, Format(1, sampleRate, 2 * sampleRate, 2, 16, |payload|))
    ensures r.Some? ==> r.value[HEADER_SIZE..] == payload
  {
    match Header(Format(1, sampleRate, 2 * sampleRate, 2, 16, |payload|))
    case None => None
    case Some(h) =>
      assert (h + payload)[..HEADER_SIZE] == h;
      HeaderPrefix(h, payload, Format(1, sampleRate, 2 * sampleRate, 2, 16, |payload|));
      Some(h + payload)
  }

  /** Bytes after a header do not disturb it. */
  lemma HeaderPrefix(h: seq<byte>, rest: seq<byte>, f: Format)
    requires |h| == HEADER_SIZE && IsHeaderFor(h, f)
    ensures IsHeaderFor(h + rest, f)
  {
    var hr := h + rest;
    assert hr[..HEADER_SIZE] == h;
    forall i, j | 0 <= i <= j <= HEADER_SIZE
      ensures hr[i..j] == h[i..j]
    {
    }
  }

  /** `b''.join(chunks)`: the chunks' bytes back to back, in order. */
  function Join(chunks: seq<seq<byte>>): (r: seq<byte>)
  {
    if |chunks| == 0 then [] else chunks[0] + Join(chunks[1..])
  }

  /** Joining is compatible with splitting the chunk list anywhere. */
  lemma {:induction false} JoinAppend(a: seq<seq<byte>>, b: seq<seq<byte>>)
    ensures Join(a + b) == Join(a) + Join(b)
  {
    if |a| == 0 {
      assert a + b == b;
    } else {
      assert (a + b)[1..] == a[1..] + b;
      JoinAppend(a[1..], b);
    }
  }
}
