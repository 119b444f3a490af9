/**
 * The container-level logic of `AudioProcessor`: the hand-written PCM
 * header, the chunk merger built on the `wave` writer, and the checks and
 * summaries computed from a parsed container.
 */
module AudioProcessor {
  import opened Wrappers
  import opened LittleEndian
  import Wav

  /** Sample rates `validate_audio` accepts. */
  const SUPPORTED_RATES: set<int> := {8000, 16000, 22050, 44100, 48000}

  /** The sample rate, channel count and sample width of merged audio. */
  const MERGE_RATE := 16000

  /** The format `create_wav_header` writes: 16-bit samples, two bytes per channel. */
  function HeaderFormat(numChannels: int, sampleRate: int, numSamples: int): Wav.Format {
    Wav.Format(numChannels, sampleRate, sampleRate * numChannels * 2, numChannels * 2, 16,
      numSamples * (numChannels * 2))
  }

  /**
   * `create_wav_header(num_channels, sample_rate, num_samples)` (defaults 1,
   * 16000, 0): exactly 44 bytes laid out as a canonical PCM header, or None
   * where one of its `to_bytes` calls raises OverflowError.
   */
  function CreateWavHeader(numChannels: int, sampleRate: int, numSamples: int): (r: Option<seq<byte>>)
    ensures r.Some? <==>
      && 0 <= numChannels && numChannels * 2 < 0x1_0000
      && 0 <= sampleRate < 0x1_0000_0000
      && sampleRate * numChannels * 2 < 0x1_0000_0000
      && 0 <= numSamples * (numChannels * 2)
      && 36 + numSamples * (numChannels * 2) < 0x1_0000_0000
    ensures r.Some? ==>
      && |r.value| == Wav.HEADER_SIZE
      && r.value[0..4] == Wav.RIFF_TAG && r.value[8..12] == Wav.WAVE_TAG
      && r.value[12..16] == Wav.FMT_TAG && r.value[36..40] == Wav.DATA_TAG
      && Decode(r.value[4..8]) == 36 + numSamples * (numChannels * 2)
      && Decode(r.value[40..44]) == numSamples * (numChannels * 2)
      && Decode(r.value[22..24]) == numChannels
      && Decode(r.value[24..28]) == sampleRate
      && Decode(r.value[28..32]) == sampleRate * numChannels * 2
      && Decode(r.value[32..34]) == numChannels * 2
      && Decode(r.value[16..20]) == 16
      && Decode(r.value[20..22]) == 1
      && Decode(r.value[34..36]) == 16
  {
    var f := HeaderFormat(numChannels, sampleRate, numSamples);
    var r := Wav.Header(f);
    if r.Some? then Wav.HeaderDecodes(r.value, f); r else r
  }

  /** Reading back a header `create_wav_header` wrote returns its inputs. */
  lemma CreateWavHeaderRoundTrip(numChannels: int, sampleRate: int, numSamples: int)
    requires Wav.Fits(HeaderFormat(numChannels, sampleRate, numSamples))
    ensures var f := Wav.ParseHeader(CreateWavHeader(numChannels, sampleRate, numSamples).value);
      && f.Some?
      && f.value.channels == numChannels
      && f.value.sampleRate == sampleRate
      && f.value.blockAlign == 2 * numChannels
      && f.value.dataSize == numSamples * f.value.blockAlign
  {
    var fmt := HeaderFormat(numChannels, sampleRate, numSamples);
    Wav.HeaderRoundTrip(fmt);
  }

  /**
   * `merge_audio_chunks(chunks)`: empty for no chunks; otherwise the chunks
   * concatenated in order behind a 16 kHz mono 16-bit header, or empty where
   * the `wave` writer raises because the total does not fit the RIFF size.
   */
  function MergeAudioChunks(chunks: seq<seq<byte>>): (r: seq<byte>)
    ensures |chunks| == 0 ==> r == []
    ensures |chunks| > 0 && 36 + |Wav.Join(chunks)| < 0x1_0000_0000 ==>
      && Wav.IsHeaderFor(r, Wav.Format(1, MERGE_RATE, 2 * MERGE_RATE, 2, 16, |Wav.Join(chunks)|))
      && r[Wav.HEADER_SIZE..] == Wav.Join(chunks)
    ensures 36 + |Wav.Join(chunks)| >= 0x1_0000_0000 ==> r == []
  {
    if |chunks| == 0 then []
    else Wav.MonoPcm16(MERGE_RATE, Wav.Join(chunks)).GetOr([])
  }

  /** What `wave.open(..., 'rb')` reports about a container, or the message it raised. */
  datatype WaveRead =
    | ReadFailed(message: string)
    | Opened(channels: int, sampleWidth: int, frameRate: int, numFrames: int)

  /**
   * A reader for canonical 44-byte PCM headers only. Within that layout it
   * raises what `wave` raises, in the same order: a sample width that
   * rounds to zero bytes first, then no channels; the frame count is the
   * data size divided by the frame size.
   */
  function ReadCanonical(bs: seq<byte>): (r: WaveRead)
    ensures r.Opened? ==> r.channels > 0 && r.sampleWidth > 0
    ensures Wav.ParseHeader(bs).Some? && Wav.ParseHeader(bs).value.bitsPerSample == 0 ==>
      r == ReadFailed("bad sample width")
    ensures var f := Wav.ParseHeader(bs);
      f.Some? && f.value.bitsPerSample > 0 && f.value.channels == 0 ==> r == ReadFailed("bad # of channels")
  {
    match Wav.ParseHeader(bs)
    case None => ReadFailed("file does not start with a canonical PCM header")
    case Some(f) =>
      var width := (f.bitsPerSample + 7) / 8;
      if width == 0 then ReadFailed("bad sample width")
      else if f.channels == 0 then ReadFailed("bad # of channels")
      else Opened(f.channels, width, f.sampleRate, f.dataSize / (f.channels * width))
  }

  /**
   * `validate_audio(data)` over what the reader reported: accepted exactly
   * when there is data, the container opened, it holds frames and its rate
   * is supported; an accepted container carries an empty message and a
   * rejected one a reason.
   */
  function ValidateAudio(data: seq<byte>, read: WaveRead): (r: (bool, string))
    ensures r.0 <==> |data| > 0 && read.Opened? && read.numFrames != 0 && read.frameRate in SUPPORTED_RATES
    ensures r.0 ==> r.1 == ""
    ensures !r.0 ==> r.1 != ""
    ensures |data| == 0 ==> r == (false, "音频数据为空")
  {
    if |data| == 0 then (false, "音频数据为空")
    else match read
      case ReadFailed(msg) => (false, "无效的音频文件: " + msg)
      case Opened(_, _, rate, frames) =>
        if frames == 0 then (false, "音频文件为空")
        else if rate !in SUPPORTED_RATES then (false, "不支持的采样率")
        else (true, "")
  }

  /** The dict `get_audio_info` returns when the container opens. */
  datatype AudioInfo = AudioInfo(
    channels: int,
    sampleWidth: int,
    sampleRate: int,
    numFrames: int,
    duration: real,
    bitrate: int)

  /**
   * `get_audio_info(data)`: None (the empty dict) when the container does
   * not open or its rate is zero (`num_frames / framerate` raises); otherwise
   * the reported fields, the duration in seconds and the bit rate.
   */
  function GetAudioInfo(read: WaveRead): (r: Option<AudioInfo>)
    ensures r.Some? <==> read.Opened? && read.frameRate != 0
    ensures r.Some? ==> r.value.bitrate == read.frameRate * read.channels * read.sampleWidth * 8
    ensures r.Some? ==> r.value.duration * (read.frameRate as real) == read.numFrames as real
  {
    match read
    case ReadFailed(_) => None
    case Opened(channels, width, rate, frames) =>
      if rate == 0 then None
      else Some(AudioInfo(channels, width, rate, frames, frames as real / rate as real,
        rate * channels * width * 8))
  }

  /**
   * Merged chunks are a valid container exactly when they hold at least one
   * whole 16-bit frame, and they report 16 kHz mono at 256 kbit/s.
   */
  lemma MergedAudioValidates(chunks: seq<seq<byte>>)
    requires |chunks| > 0 && 36 + |Wav.Join(chunks)| < 0x1_0000_0000
    ensures var merged := MergeAudioChunks(chunks);
      && ValidateAudio(merged, ReadCanonical(merged)).0 <==> |Wav.Join(chunks)| >= 2
    ensures var info := GetAudioInfo(ReadCanonical(MergeAudioChunks(chunks)));
      && info.Some? && info.value.bitrate == 256000
      && info.value.numFrames == |Wav.Join(chunks)| / 2
  {
    var merged := MergeAudioChunks(chunks);
    var fmt := Wav.Format(1, MERGE_RATE, 2 * MERGE_RATE, 2, 16, |Wav.Join(chunks)|);
    Wav.HeaderRoundTrip(fmt);
    Wav.HeaderDecodes(merged, fmt);
  }
}
