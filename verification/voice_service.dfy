/**
 * `VoiceService`: text-to-speech over the chat-completions endpoint, both
 * in one reply and as a server-sent event stream, the WAV wrapping of the
 * streamed chunks, and the input check on the text. The HTTP exchange is
 * an input; `json.loads` and `base64.b64decode` are parameters that yield
 * `None` where they would raise.
 */
module VoiceService {
  import opened Wrappers
  import opened JsonValue
  import opened LittleEndian
  import opened Http
  import Text
  import Wav
  import AudioProcessor

  const MAX_TEXT_LENGTH := 500
  const STREAM_RATE := 16000
  const DEFAULT_VOICE := "Bilibili-DouDou"

  /** `validate_text`: empty text, then text over 500 characters, are refused with a message; the rest pass with "". */
  function ValidateText(text: string): (r: (bool, string))
    ensures r.0 <==> 0 < |text| <= MAX_TEXT_LENGTH
    ensures r.0 ==> r.1 == ""
    ensures |text| == 0 ==> r.1 == "文本不能为空"
    ensures |text| > MAX_TEXT_LENGTH ==> r.1 == "文本长度不能超过500字"
  {
    if |text| == 0 then (false, "文本不能为空")
    else if |text| > MAX_TEXT_LENGTH then (false, "文本长度不能超过500字")
    else (true, "")
  }

  /** Exactly 500 characters is still accepted; 501 is not. */
  lemma LengthBoundary(text: string)
    requires |text| == MAX_TEXT_LENGTH
    ensures ValidateText(text) == (true, "")
    ensures !ValidateText(text + "a").0
  {
  }

  /**
   * The audio of one reply: `data['choices'][0][entry]['audio']` decoded.
   * Each membership test must pass and each step must be a dict (the
   * choices a non-empty list), or the path ends in a failed test or a
   * caught exception, and nothing is produced.
   */
  function AudioAt(data: Json, entry: string, decode: string -> Option<seq<byte>>): (r: Option<seq<byte>>)
    ensures r.Some? <==>
      && data.JObj? && "choices" in data.fields
      && var choices := data.fields["choices"];
      && choices.JArr? && |choices.items| > 0
      && var choice := choices.items[0];
      && choice.JObj? && entry in choice.fields
      && var holder := choice.fields[entry];
      && holder.JObj? && "audio" in holder.fields
      && holder.fields["audio"].JStr? && decode(holder.fields["audio"].s).Some?
    ensures r.Some? ==> r == decode(data.fields["choices"].items[0].fields[entry].fields["audio"].s)
  {
    var choices :- Lookup(data, "choices");
    var choice :- Index(choices, 0);
    var message :- Lookup(choice, entry);
    var audio :- Lookup(message, "audio");
    if audio.JStr? then decode(audio.s) else None
  }

  /** The reply shape `text_to_speech` reads, carrying `audio` under `entry` of the first choice. */
  function AudioReply(entry: string, audio: string): Json {
    JObj(map["choices" := JArr([JObj(map[entry := JObj(map["audio" := JStr(audio)])])])])
  }

  /** A 200 reply of the documented shape yields exactly its decoded audio. */
  lemma ReplyAudioDecoded(audio: string, decode: string -> Option<seq<byte>>)
    ensures TextToSpeech(Response(200, Some(AudioReply("message", audio))), decode) == decode(audio)
  {
    var d := AudioReply("message", audio);
    assert d.fields["choices"].items[0].fields["message"].fields["audio"] == JStr(audio);
  }

  /** A streaming delta is not a reply: audio under `delta` gives the one-shot call nothing. */
  lemma DeltaIsNoReply(audio: string, decode: string -> Option<seq<byte>>)
    ensures TextToSpeech(Response(200, Some(AudioReply("delta", audio))), decode) == None
  {
    var d := AudioReply("delta", audio);
    assert "message" !in d.fields["choices"].items[0].fields;
  }

  /**
   * `text_to_speech`: the decoded `choices[0].message.audio` of a 200
   * reply; None for any other status, a transport error, a body that is not
   * JSON, a missing step, or audio that does not decode.
   */
  function TextToSpeech(reply: Reply, decode: string -> Option<seq<byte>>): (r: Option<seq<byte>>)
    ensures !IsOk(reply) || reply.body.None? ==> r.None?
    ensures IsOk(reply) && reply.body.Some? ==> r == AudioAt(reply.body.value, "message", decode)
  {
    if IsOk(reply) && reply.body.Some? then AudioAt(reply.body.value, "message", decode) else None
  }

  /** One line of the event stream: text, or a failure (bytes that are not UTF-8, a dropped connection) that ends the generator. */
  datatype Line = Line(text: string) | Break

  /**
   * The audio chunk one `data:` line carries: the rest of the line after the
   * prefix, stripped and non-empty, must parse and lead through
   * `choices[0].delta.audio` to text that decodes. Every other line,
   * and every failure along that path, yields nothing.
   */
  function AudioOfLine(t: string, parse: string -> Option<Json>, decode: string -> Option<seq<byte>>): (r: Option<seq<byte>>)
    ensures r.Some? <==>
      && Text.StartsWith(t, "data:") && |Text.Strip(t[5..])| > 0
      && parse(Text.Strip(t[5..])).Some?
      && AudioAt(parse(Text.Strip(t[5..])).value, "delta", decode).Some?
    ensures r.Some? ==> r == AudioAt(parse(Text.Strip(t[5..])).value, "delta", decode)
  {
    if |t| == 0 || !Text.StartsWith(t, "data:") then None
    else
      var payload := Text.Strip(t[5..]);
      if |payload| == 0 then None
      else
        var data :- parse(payload);
        AudioAt(data, "delta", decode)
  }

  /** The chunks the generator yields, in line order, up to the first line that breaks it. */
  function StreamChunks(lines: seq<Line>, parse: string -> Option<Json>, decode: string -> Option<seq<byte>>): (r: seq<seq<byte>>)
    ensures |r| <= |lines|
  {
    if |lines| == 0 || lines[0].Break? then []
    else
      var rest := StreamChunks(lines[1..], parse, decode);
      match AudioOfLine(lines[0].text, parse, decode)
      case Some(chunk) => [chunk] + rest
      case None => rest
  }

  /** `stream_text_to_speech`: nothing unless the response is a 200. */
  function StreamTextToSpeech(statusCode: Option<int>, lines: seq<Line>, parse: string -> Option<Json>,
                              decode: string -> Option<seq<byte>>): (r: seq<seq<byte>>)
    ensures statusCode != Some(200) ==> r == []
    ensures statusCode == Some(200) ==> r == StreamChunks(lines, parse, decode)
  {
    if statusCode == Some(200) then StreamChunks(lines, parse, decode) else []
  }

  predicate Unbroken(lines: seq<Line>) {
    forall k :: 0 <= k < |lines| ==> lines[k].Line?
  }

  /** Reading a stream in two parts yields the chunks of each part in turn. */
  lemma {:induction false} StreamAppend(a: seq<Line>, b: seq<Line>, parse: string -> Option<Json>, decode: string -> Option<seq<byte>>)
    requires Unbroken(a)
    ensures StreamChunks(a + b, parse, decode) == StreamChunks(a, parse, decode) + StreamChunks(b, parse, decode)
  {
    if |a| > 0 {
      assert (a + b)[0] == a[0];
      assert (a + b)[1..] == a[1..] + b;
      StreamAppend(a[1..], b, parse, decode);
    } else {
      assert a + b == b;
    }
  }

  /** Whether a line of the stream is a `data:` line carrying the audio `c`. */
  predicate Carries(l: Line, c: seq<byte>, parse: string -> Option<Json>, decode: string -> Option<seq<byte>>) {
    l.Line? && AudioOfLine(l.text, parse, decode) == Some(c)
  }

  /** Whether each of the chunks `r` is carried by some line of `lines`. */
  predicate FromLines(r: seq<seq<byte>>, lines: seq<Line>, parse: string -> Option<Json>, decode: string -> Option<seq<byte>>) {
    forall i :: 0 <= i < |r| ==> exists k :: 0 <= k < |lines| && Carries(lines[k], r[i], parse, decode)
  }

  /** Every chunk is the audio of one `data:` line of the stream. */
  lemma {:induction false} ChunksComeFromLines(lines: seq<Line>, parse: string -> Option<Json>, decode: string -> Option<seq<byte>>)
    ensures FromLines(StreamChunks(lines, parse, decode), lines, parse, decode)
  {
    if |lines| > 0 && lines[0].Line? {
      var rest := StreamChunks(lines[1..], parse, decode);
      ChunksComeFromLines(lines[1..], parse, decode);
      var r := StreamChunks(lines, parse, decode);
      var head := AudioOfLine(lines[0].text, parse, decode);
      var off := if head.Some? then 1 else 0;
      assert r == (if head.Some? then [head.value] else []) + rest;
      assert FromLines(rest, lines[1..], parse, decode);
      forall i | 0 <= i < |r|
        ensures exists k :: 0 <= k < |lines| && Carries(lines[k], r[i], parse, decode)
      {
        if i < off {
          assert Carries(lines[0], r[i], parse, decode);
        } else {
          assert 0 <= i - off < |rest| && r[i] == rest[i - off];
          var j := i - off;
          assert exists k :: 0 <= k < |lines[1..]| && Carries(lines[1..][k], rest[j], parse, decode);
          var k :| 0 <= k < |lines[1..]| && Carries(lines[1..][k], rest[j], parse, decode);
          assert lines[k + 1] == lines[1..][k];
        }
      }
    }
  }

  /** A stream none of whose lines carries audio yields nothing. */
  lemma {:induction false} SilentStreamYieldsNothing(lines: seq<Line>, parse: string -> Option<Json>, decode: string -> Option<seq<byte>>)
    requires forall k :: 0 <= k < |lines| && lines[k].Line? ==> AudioOfLine(lines[k].text, parse, decode).None?
    ensures StreamChunks(lines, parse, decode) == []
  {
    if |lines| > 0 && lines[0].Line? {
      assert forall k :: 0 <= k < |lines[1..]| ==> lines[1..][k] == lines[k + 1];
      SilentStreamYieldsNothing(lines[1..], parse, decode);
    }
  }

  /** Nothing after a break is yielded. */
  lemma BreakEndsStream(a: seq<Line>, b: seq<Line>, parse: string -> Option<Json>, decode: string -> Option<seq<byte>>)
    requires Unbroken(a)
    ensures StreamChunks(a + [Break] + b, parse, decode) == StreamChunks(a, parse, decode)
  {
    assert a + [Break] + b == a + ([Break] + b);
    StreamAppend(a, [Break] + b, parse, decode);
  }

  /** A line without the `data:` prefix (an SSE comment, an `event:` field) contributes nothing. */
  lemma NonDataLineIgnored(t: string, parse: string -> Option<Json>, decode: string -> Option<seq<byte>>)
    requires !Text.StartsWith(t, "data:")
    ensures StreamChunks([Line(t)], parse, decode) == []
  {
  }

  /**
   * A `data:` line whose payload parses to a delta carrying audio yields
   * exactly that audio, decoded.
   */
  lemma DataLineYieldsChunk(rest: string, audio: string, chunk: seq<byte>,
                            parse: string -> Option<Json>, decode: string -> Option<seq<byte>>)
    requires |Text.Strip(rest)| > 0 && parse(Text.Strip(rest)) == Some(AudioReply("delta", audio))
    requires decode(audio) == Some(chunk)
    ensures StreamChunks([Line("data:" + rest)], parse, decode) == [chunk]
  {
    var t := "data:" + rest;
    assert t[..5] == "data:" && t[5..] == rest;
    var d := AudioReply("delta", audio);
    assert d.fields["choices"].items[0].fields["delta"].fields["audio"] == JStr(audio);
    assert AudioOfLine(t, parse, decode) == Some(chunk);
    assert [Line(t)][1..] == [];
  }

  /**
   * `create_wav_file`: the joined chunks behind a 16 kHz mono 16-bit
   * header; None only when the sizes no longer fit the header's 32-bit fields.
   */
  function CreateWavFile(chunks: seq<seq<byte>>): (r: Option<seq<byte>>)
    ensures r.Some? <==> 36 + |Wav.Join(chunks)| < 0x1_0000_0000
    ensures r.Some? ==>
      && Wav.IsHeaderFor(r.value, Wav.Format(1, STREAM_RATE, 2 * STREAM_RATE, 2, 16, |Wav.Join(chunks)|))
      && r.value[Wav.HEADER_SIZE..] == Wav.Join(chunks)
  {
    Wav.MonoPcm16(STREAM_RATE, Wav.Join(chunks))
  }

  /**
   * The two WAV builders part ways on an empty list: the voice service
   * still writes a bare 44-byte header, the audio processor returns no bytes.
   */
  lemma EmptyChunksDiffer()
    ensures CreateWavFile([]).Some? && |CreateWavFile([]).value| == Wav.HEADER_SIZE
    ensures AudioProcessor.MergeAudioChunks([]) == []
  {
  }

  /** Otherwise both produce the same container: same rate, layout and payload. */
  lemma NonEmptyChunksAgree(chunks: seq<seq<byte>>)
    requires |chunks| > 0 && 36 + |Wav.Join(chunks)| < 0x1_0000_0000
    ensures CreateWavFile(chunks) == Some(AudioProcessor.MergeAudioChunks(chunks))
  {
  }

  /** The voices `get_voice_options` offers, the default among them. */
  const VOICE_OPTIONS: map<string, string> := map[
    "Bilibili-DouDou" := "👧 豆豆(儿童女声)",
    "Bilibili-XiaoXiao" := "🧒 晓晓(儿童男声)",
    "Bilibili-Qingfeng" := "🎤 青风(少年男声)",
    "Bilibili-Yuanzhao" := "👦 元昭(小朋友声音)"
  ]

  const MODEL := "qwen3-omni-flash"

  /**
   * The request body both speech calls post: the text as the single user
   * message, text and audio modalities, the chosen voice in WAV format, and
   * the streaming flag. A caller that names no voice gets `DEFAULT_VOICE`,
   * the default both methods declare.
   */
  function SpeechRequest(text: string, voiceArg: Option<string>, stream: bool): (p: Dict)
    ensures p.Keys == {"model", "messages", "modalities", "audio", "stream"}
    ensures RequestedText(p) == Some(text)
    ensures voiceArg.Some? ==> RequestedVoice(p) == voiceArg
    ensures voiceArg.None? ==> RequestedVoice(p) == Some(DEFAULT_VOICE)
  {
    var voice := if voiceArg.Some? then voiceArg.value else DEFAULT_VOICE;
    map[
      "model" := JStr(MODEL),
      "messages" := JArr([JObj(map["role" := JStr("user"), "content" := JStr(text)])]),
      "modalities" := JArr([JStr("text"), JStr("audio")]),
      "audio" := JObj(map["voice" := JStr(voice), "format" := JStr("wav")]),
      "stream" := JBool(stream)
    ]
  }

  /** The text a request body asks to be spoken: its first message's content. */
  function RequestedText(p: Dict): Option<string> {
    var messages :- Lookup(JObj(p), "messages");
    var first :- Index(messages, 0);
    var content :- Lookup(first, "content");
    if content.JStr? then Some(content.s) else None
  }

  /** The voice a request body asks for. */
  function RequestedVoice(p: Dict): Option<string> {
    var audio :- Lookup(JObj(p), "audio");
    var voice :- Lookup(audio, "voice");
    if voice.JStr? then Some(voice.s) else None
  }

  /** The one-shot and the streaming call send the same request except for the streaming flag. */
  lemma RequestsDifferInStreamOnly(text: string, voice: Option<string>)
    ensures SpeechRequest(text, voice, true) == SpeechRequest(text, voice, false)["stream" := JBool(true)]
    ensures SpeechRequest(text, voice, true) != SpeechRequest(text, voice, false)
  {
    assert SpeechRequest(text, voice, true)["stream"] != SpeechRequest(text, voice, false)["stream"];
  }
}
