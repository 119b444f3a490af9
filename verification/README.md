# DreamWeaver AI — a Dafny model of the application core

DreamWeaver AI is a Streamlit drawing app for children. A child draws, and
the app does the rest:
- it analyses the picture with a multimodal model;
- it has a "spirit" speak back to the child through text-to-speech;
- it turns the picture into music and video through Coze workflows and a video API;
- it keeps artworks in a per-user folder tree, shown in a gallery.

This project models the logic behind those features as pure Dafny functions over immutable data and proves what that logic promises.

Modules follow the source files:

| module | models |
|---|---|
| `Wav`, `LittleEndian` | the 44-byte PCM WAV header that Python's `wave` module writes |
| `AudioProcessor` | header creation, chunk merging, validation, audio info |
| `ImageProcessor` | balance score, scene type, focus point, palette |
| `CozeService` | the workflow event stream and the three generation features |
| `MultimodalService` | the analysis reply parser and the fallbacks |
| `VoiceService` | text validation, TTS reply extraction, the SSE stream, the WAV wrapper |
| `VideoService` | the transition-video payload, status mapping, the task query |
| `Base64`, `FileHandler` | paths, saving, base64 round trip, deletion, cache, storage size, size formatting |
| `DrawingModel` | strokes, drawings, artworks, analyses and their `to_dict` shapes |
| `SessionManager` | session-state initialisation, get/set, clearing |
| `Gallery` | paging of the gallery page and recovering an id from a file name |
| `MigrateArtworks` | the one-off folder migration |
| `CheckSetup` | the installation checker |

`Wrappers`, `JsonValue`, `Text` and `Http` hold shared helpers:
- Option and Result types;
- a JSON value with Python truthiness, `dict.get` and `or`;
- `str` operations: strip, find, rfind, split;
- the HTTP reply shape.

What the running program gets from outside becomes a parameter:
- the decoded image, the k-means centres and the Sobel magnitude grid;
- the HTTP reply and the event stream;
- JSON and base64 parsers on the service side;
- clock readings, fresh uuids, directory listings and file contents.

Where the documentation and the code disagree, the model follows the code:
- `detect_scene_type` tests the spread before the brightness. A plain white image is therefore "uniform", not "bright" (`ImageProcessor.ConstantImageIsUniform`).
- The balance score is documented as lying in [0, 100]. The code as written can go below 0 (see Findings).

## Model

| member | source | states |
|---|---|---|
| `LittleEndian.ToBytes` | src/utils/audio_processor.py:33-44 | `int.to_bytes(n, 'little')`: defined exactly when the value fits in n bytes, and it then decodes back to the value |
| `LittleEndian.DecodeEncode` | src/utils/audio_processor.py:33-44 | decoding an n-byte little-endian encoding gives back the value |
| `LittleEndian.EncodeDecode` | src/utils/audio_processor.py:33-44 | encoding the decoded value of a byte string gives back the bytes |
| `Wav.Header` | src/utils/audio_processor.py:10-46 | the 44-byte RIFF/WAVE/fmt/data header exists exactly when every field fits its width, and it lays the fields out at their offsets |
| `Wav.HeaderRoundTrip` | src/utils/audio_processor.py:10-46 | parsing the header of a format gives back that format |
| `Wav.HeaderDecodes` | src/utils/audio_processor.py:32-44 | each field of a header decodes to the format's value: RIFF size 36+data, fmt size 16, PCM tag 1, channels, rate, byte rate, block align, bits, data size |
| `Wav.MonoPcm16` | src/utils/audio_processor.py:64-78 | what the `wave` writer emits for mono 16-bit audio: a header for exactly the payload's length followed by the payload, or nothing once the sizes overflow 32 bits |
| `Wav.JoinAppend` | src/utils/audio_processor.py:74-75 | joining chunk lists distributes over concatenation |
| `AudioProcessor.CreateWavHeader` | src/utils/audio_processor.py:10-46 | the header exists exactly when every field fits its width, so no `to_bytes` overflows; it is 44 bytes with the four tags in place, RIFF size 36 + data size, and data size samples·channels·2 |
| `AudioProcessor.CreateWavHeaderRoundTrip` | src/utils/audio_processor.py:10-46 | the created header parses back to the format it was made from: PCM, the channel count, the rate and the data size |
| `AudioProcessor.MergeAudioChunks` | src/utils/audio_processor.py:49-82 | no chunks give empty bytes; otherwise the result is a 16 kHz mono 16-bit WAV whose payload is the concatenation of the chunks; empty bytes when the size overflows |
| `AudioProcessor.ReadCanonical` | src/utils/audio_processor.py:200-258 | a file the model's reader opens reports at least one channel and a positive sample width; a zero sample width is reported before a zero channel count, with `wave`'s messages |
| `AudioProcessor.ValidateAudio` | src/utils/audio_processor.py:233-258 | valid exactly when the data is non-empty, opens as WAV, has frames, and has a rate among 8000/16000/22050/44100/48000; valid carries "" and invalid carries a message ("音频数据为空" for empty data) |
| `AudioProcessor.GetAudioInfo` | src/utils/audio_processor.py:200-230 | info exists exactly when the file opens and has a non-zero rate; bitrate = rate·channels·width·8 and duration·rate = frames |
| `AudioProcessor.MergedAudioValidates` | src/utils/audio_processor.py:49-82 | merged chunks validate exactly when they hold at least one 2-byte frame, and they report 256 kbit/s and half the payload length in frames |
| `ImageProcessor.HalfSums` | src/utils/image_processor.py:99-102 | left+right and top+bottom each add up to the sum of the whole image |
| `ImageProcessor.AxisBalance` | src/utils/image_processor.py:105-106 | the balance of one axis lies in [0,1] and is 1 exactly when the two halves are equal |
| `ImageProcessor.CalculateBalanceScore` | src/utils/image_processor.py:81-114 | the score with exact sums: always in [0,100], 50 on unreadable data, and 100 exactly when both axes are balanced |
| `ImageProcessor.AllBlackScoresFull` | src/utils/image_processor.py:105-110 | an all-black image scores 100, through the `max(..., 1)` guard |
| `ImageProcessor.CalculateBalanceScoreAsWritten` | src/utils/image_processor.py:99-110 | the score with numpy's uint64 sums: at most 100, 50 on unreadable data, and equal to the exact score whenever left ≥ right, top ≥ bottom and the total stays below 2^64 |
| `ImageProcessor.NoWrapAgrees` | src/utils/image_processor.py:99-110 | where no subtraction wraps and the total is below 2^64, the as-written score equals the exact one |
| `ImageProcessor.AxisAgrees` | src/utils/image_processor.py:105-106 | with no wrap-around, the uint64 axis balance equals the exact one |
| `ImageProcessor.BalanceAsWrittenGoesNegative` | src/utils/image_processor.py:99-110 | on the 1×2 image [[0,10]] the code as written scores below 0, while the exact score is 0 |
| `ImageProcessor.DetectSceneType` | src/utils/image_processor.py:226-256 | unknown exactly for unreadable data; uniform exactly when the variance is below 400 (std < 20); bright or dark by the mean (>200, <50) only past that test; normal otherwise |
| `ImageProcessor.ConstantImageIsUniform` | src/utils/image_processor.py:242-246 | an image of one grey level, white included, is "uniform" |
| `ImageProcessor.ArgMax` | src/utils/image_processor.py:70 | `np.argmax` on a grid: a position holding the maximum with no equal value before it in row-major order |
| `ImageProcessor.FirstMaxUnique` | src/utils/image_processor.py:70 | the first maximum in row-major order is unique |
| `ImageProcessor.DetectFocusPoint` | src/utils/image_processor.py:48-78 | (0.5,0.5) on failure; otherwise (column/width, row/height) of the first maximum, both in [0,1) |
| `ImageProcessor.Nearest` | src/utils/image_processor.py:290-291 | the named colour at least distance from the sample, the earliest of those on a tie |
| `ImageProcessor.NearestUnique` | src/utils/image_processor.py:290-291 | any index with the minimal distance and no earlier equal one is the nearest colour |
| `ImageProcessor.Hex` | src/utils/image_processor.py:294 | `#{:02x}{:02x}{:02x}`: seven characters, '#' then lowercase hex digits |
| `ImageProcessor.HexRoundTrip` | src/utils/image_processor.py:294 | the hex text parses back to the colour it was made from |
| `ImageProcessor.ExtractDominantColors` | src/utils/image_processor.py:11-45 | the k-means centres in order, or the single grey (128,128,128) when the image cannot be read |
| `ImageProcessor.GeneratePalette` | src/utils/image_processor.py:259-298 | one entry per colour, in order; each entry holds the colour, a hex text that parses back to it, and the name of the nearest named colour, the earliest table entry on a tie as `min` over the dict picks it; the dominant colour is the first entry, or None for no colours |
| `ImageProcessor.GrayNearest` | src/utils/image_processor.py:274-291 | grey (128,128,128) is nearest to 深红 (128,0,0), the first of three colours at the same distance |
| `ImageProcessor.UnreadablePalette` | src/utils/image_processor.py:271-298 | an unreadable image yields the one-entry palette grey "#808080" 深红 |
| `CozeService.ApiToken` | src/services/coze_service.py:13-14 | a string token is stripped; a missing or non-string token becomes "" |
| `CozeService.WorkflowIds` | src/services/coze_service.py:16-18 | each workflow id is the configured value when present, else its built-in default |
| `CozeService.NotConfigured` | src/services/coze_service.py:29-30 | a failed result whose error names the missing token, the missing bot id and the feature |
| `CozeService.Outcome` | src/services/coze_service.py:217-232 | success exactly when the final data is truthy and a dict; success has seven keys including raw_data; truthy non-dict data fails with the AttributeError text; falsy data fails with the recorded error, or the no-data message when there is none |
| `CozeService.ExecuteWorkflowStream` | src/services/coze_service.py:178-239 | without a client, fails with "请配置 COZE_API_TOKEN"; a raising stream fails with its message; otherwise the outcome of the last parsed message and the last error |
| `CozeService.LaterMessageOverwrites` | src/services/coze_service.py:204-210 | a later non-empty message that parses replaces the data |
| `CozeService.ErrorKeepsData` | src/services/coze_service.py:213-215 | an error event records its text and leaves the data alone |
| `CozeService.MusicUrlPrecedence` | src/services/coze_service.py:221 | music_url is AudioUrl when truthy, else music_url |
| `CozeService.CommentUrlPrecedence` | src/services/coze_service.py:223 | comment_url is comment_audio when truthy, else comment_url |
| `CozeService.VideoUrlPrecedence` | src/services/coze_service.py:225 | video_url is video_url when truthy, else VideoUrl |
| `CozeService.NoDataReachesFeature` | src/services/coze_service.py:115-153 | a stream without data reaches the caller as a failure carrying the workflow's error or the no-data message |
| `CozeService.GenerateMusic` | src/services/coze_service.py:32-72 | not configured gives the feature's message; success gives music_url, emotion, status and the workflow id; anything else gives the stream's error, or "未知错误" for an empty result |
| `CozeService.GenerateComment` | src/services/coze_service.py:74-113 | the same shaping for the voice comment: comment_url and comment_text |
| `CozeService.GenerateVideo` | src/services/coze_service.py:115-153 | the same shaping for the video: video_url |
| `CozeService.UploadImage` | src/services/coze_service.py:155-176 | None without a client; otherwise what the upload returned |
| `MultimodalService.CallQwen` | src/services/multimodal_service.py:143-191 | "" for a failed or non-200 call or a reply without choices[0].message.content; otherwise that content |
| `MultimodalService.DefaultAnalysis` | src/services/multimodal_service.py:211-240 | five dimension keys, with composition balance_score 70 |
| `MultimodalService.ObjectSpan` | src/services/multimodal_service.py:197-200 | the span from the first '{' to the last '}' when one precedes the other; none exactly when no '{' comes before any '}' |
| `MultimodalService.ParseAnalysisResponse` | src/services/multimodal_service.py:193-209 | the default analysis for a non-string reply, for no brace span, or when the span does not parse |
| `MultimodalService.EmbeddedObjectIsParsed` | src/services/multimodal_service.py:197-203 | an object wrapped in brace-free prose is handed whole to the JSON parser |
| `MultimodalService.NoBraceGivesDefault` | src/services/multimodal_service.py:197-205 | a reply without '{' gives the default analysis |
| `MultimodalService.AnalyzeDrawing` | src/services/multimodal_service.py:18-44 | a failed call, a reply without choices[0].message.content, a content that is not a string, has no brace span or whose span does not parse all give the default analysis; otherwise the result is what the parser makes of the span |
| `MultimodalService.WrappedReplyIsAnalysed` | src/services/multimodal_service.py:193-205 | a 200 reply whose content is one object wrapped in brace-free prose is analysed as exactly that object |
| `MultimodalService.SpiritFeedback` | src/services/multimodal_service.py:46-68 | a failed call gives "" rather than the cheerful fallback; string content is stripped; the fallback appears only when `.strip()` raises |
| `MultimodalService.PromptFactsOf` | src/services/multimodal_service.py:76-78 | duration, stroke count and revision count default to 0 when absent |
| `VoiceService.ValidateText` | src/services/voice_service.py:185-191 | valid exactly when 0 < length ≤ 500; the empty and too-long messages |
| `VoiceService.LengthBoundary` | src/services/voice_service.py:188-190 | 500 characters are accepted and 501 are not |
| `VoiceService.TextToSpeech` | src/services/voice_service.py:17-76 | None unless the call returns 200 with a body; otherwise the decoded choices[0].message.audio |
| `VoiceService.AudioAt` | src/services/voice_service.py:62-70 | audio is produced exactly when data is a dict with a non-empty "choices" list whose first element is a dict holding a dict under the entry name with a string "audio" that decodes; the result is that decoded audio |
| `VoiceService.ReplyAudioDecoded` | src/services/voice_service.py:57-70 | a 200 reply of the shape {"choices": [{"message": {"audio": a}}]} yields exactly the decoding of a |
| `VoiceService.DeltaIsNoReply` | src/services/voice_service.py:62-70 | audio under "delta", the streaming shape, gives the one-shot call nothing |
| `VoiceService.AudioOfLine` | src/services/voice_service.py:121-139 | a line yields audio exactly when it starts "data:", its stripped payload is non-empty and parses, and the parsed value carries decodable audio at choices[0].delta.audio; the audio is that decoding |
| `VoiceService.DataLineYieldsChunk` | src/services/voice_service.py:121-137 | a "data:" line whose payload parses to a delta carrying audio makes the stream yield exactly that decoded chunk |
| `VoiceService.StreamTextToSpeech` | src/services/voice_service.py:78-142 | nothing unless the status is 200; then the chunks of the stream's lines |
| `VoiceService.StreamChunks` | src/services/voice_service.py:120-139 | at most one chunk per line |
| `VoiceService.ChunksComeFromLines` | src/services/voice_service.py:120-139 | every yielded chunk is the decoded audio of some `data:` line of the stream |
| `VoiceService.SilentStreamYieldsNothing` | src/services/voice_service.py:120-139 | a stream none of whose lines carries audio yields nothing |
| `VoiceService.StreamAppend` | src/services/voice_service.py:120-139 | the chunks of an unbroken run of lines followed by more lines are the chunks of each part in order |
| `VoiceService.BreakEndsStream` | src/services/voice_service.py:120-142 | nothing is yielded after a line whose UTF-8 decoding fails or whose read raises, because that exception leaves the loop |
| `VoiceService.NonDataLineIgnored` | src/services/voice_service.py:123 | a line not starting "data:" yields nothing |
| `VoiceService.CreateWavFile` | src/services/voice_service.py:144-174 | a 16 kHz mono 16-bit WAV of the joined chunks |
| `VoiceService.EmptyChunksDiffer` | src/services/voice_service.py:144-174 | no chunks give a bare 44-byte header here, while the audio merger gives empty bytes |
| `VoiceService.NonEmptyChunksAgree` | src/services/voice_service.py:144-174 | for non-empty chunks the voice WAV equals the audio merger's output |
| `VoiceService.SpeechRequest` | src/services/voice_service.py:17-49 | the request has the five keys; the text reads back from it, and so does the voice, which is "Bilibili-DouDou" when the caller names none |
| `VoiceService.RequestsDifferInStreamOnly` | src/services/voice_service.py:34-49 | the one-shot and the streaming request differ only in the stream flag |
| `VideoService.CallVideoApi` | src/services/video_service.py:169-195 | the JSON body of a 200 reply, else None |
| `VideoService.MapStatus` | src/services/video_service.py:197-206 | processing ⇔ processing/running; completed ⇔ success; failed ⇔ failed/error; anything else unknown; a list or dict status raises "unhashable type" |
| `VideoService.TransitionPayload` | src/services/video_service.py:40-59 | nine keys; model and images fixed; audio and watermark off; duration, prompt, resolution, ratio and service tier from the config when given, and otherwise 8, the default prompt, "720p", "4:3" and "flex" |
| `VideoService.PartialConfigKeepsDefaults` | src/services/video_service.py:52-58 | a config naming only the ratio takes that ratio and keeps every other default |
| `VideoService.DefaultsAgree` | src/services/video_service.py:35-36 | no config and an empty config build the same payload: 8 seconds, 720p, 4:3 |
| `VideoService.CreateTransitionVideo` | src/services/video_service.py:18-87 | processing exactly when the reply is a non-empty dict whose code equals 0 and whose data is a dict, carrying four keys and estimated_time 60; the task_id being the data's task_id; a non-zero code gives failed with the reply's message; a non-dict reply or data gives failed with the AttributeError text; no reply gives "未知错误" |
| `VideoService.SubmittedTaskIdReported` | src/services/video_service.py:64-71 | a reply with code 0 and a task_id in its data is reported as processing under that task_id |
| `VideoService.QueryOutcome` | src/services/video_service.py:105-127 | the body of the poll's `try`: which answers raise, which give "unknown", and that a task_id result comes exactly from a readable answer |
| `VideoService.QueryVideoTask` | src/services/video_service.py:89-134 | the status is always one of processing/completed/failed/unknown; no reply gives unknown with "未知错误"; a non-zero code gives unknown with the API's message; a non-dict answer or data gives unknown with the AttributeError text; a task_id result appears exactly for a readable answer, and then carries the mapped status, progress, cost, the output's video_url on success and error_msg on failure |
| `VideoService.FailedTaskReportsError` | src/services/video_service.py:105-120 | a job the API reports as failed is reported failed with the API's error_msg |
| `VideoService.RefusedPollReportsMessage` | src/services/video_service.py:105-127 | a non-zero integer code gives unknown with the API's message |
| `VideoService.CompletedTaskReportsUrl` | src/services/video_service.py:105-118 | a successful task reports completed with its output's video URL |
| `VideoService.ListStatusIsUnknown` | src/services/video_service.py:105-134 | a status the mapper cannot hash ends in unknown with the error text |
| `VideoService.CreateSimpleTransition` | src/services/video_service.py:136-167 | the five-key fallback: both frames, "使用简化过渡效果", 5 seconds |
| `Base64.ValueOfCharOf` | src/utils/file_handler.py:74-88 | the alphabet of section 4 of RFC 4648 is a bijection on 0..63 and avoids '=' |
| `Base64.Encode` | src/utils/file_handler.py:74-80 | the encoding has 4·⌈n/3⌉ characters |
| `Base64.Decode` | src/utils/file_handler.py:82-88 | a decodable text has a length divisible by four and is empty exactly when the bytes are |
| `Base64.DecodedLength` | src/utils/file_handler.py:82-88 | n characters decode to between 3n/4 − 2 and 3n/4 bytes |
| `Base64.DecodeEncode` | src/utils/file_handler.py:74-88 | decoding the encoding of any bytes gives back the bytes |
| `FileHandler.SaveImage` | src/utils/file_handler.py:26-63 | writes data/artworks/{user}/{sub}/{id}_{ts}.png, returns that path, reads back the data, and touches no other file |
| `FileHandler.SaveAudio` | src/utils/file_handler.py:127-161 | the same for data/artworks/{user}/audio/{id}_{type}_{ts}.wav |
| `FileHandler.ImageToBase64` | src/utils/file_handler.py:74-80 | the text has a length divisible by four |
| `FileHandler.Base64ToImage` | src/utils/file_handler.py:82-88 | decoded bytes come from text of length divisible by four, three bytes per group less at most two for padding |
| `FileHandler.Base64RoundTrip` | src/utils/file_handler.py:74-88 | `base64_to_image(image_to_base64(x)) == x` |
| `FileHandler.DeleteArtwork` | src/utils/file_handler.py:214-227 | removes exactly the files in {user}/original whose names start with "{id}_", keeps every other file unchanged, and reports True |
| `FileHandler.DeleteRemovesSaved` | src/utils/file_handler.py:214-227 | an image saved to original/ is gone after deleting its artwork |
| `FileHandler.DeleteSparesOtherArtwork` | src/utils/file_handler.py:214-227 | with underscore-free ids, deleting one artwork keeps another's image |
| `FileHandler.GetStorageSize` | src/utils/file_handler.py:252-264 | the sum of the sizes of the user's files: 0 when there are none, and at least the size of each one |
| `FileHandler.StorageSizeIgnoresOrder` | src/utils/file_handler.py:259 | any two complete listings of the user's files give the same size, so the unspecified `rglob` order does not matter |
| `FileHandler.SizePermutation` | src/utils/file_handler.py:259 | two duplicate-free listings of the same files have the same total size |
| `FileHandler.SizeAppend` | src/utils/file_handler.py:259 | sizes of two listings add up |
| `FileHandler.SaveGrowsStorage` | src/utils/file_handler.py:26-63 | saving a new image adds exactly its size to the user's storage |
| `FileHandler.CachePath` | src/utils/file_handler.py:232 | the file sits directly in data/cache and its name is the key followed by ".cache" |
| `FileHandler.GetCacheFile` | src/utils/file_handler.py:229-239 | bytes exactly when the key's cache file exists, and then that file's content; None otherwise |
| `FileHandler.SetCacheFile` | src/utils/file_handler.py:241-250 | reports True; the key's cache file then holds the data and every other file is unchanged |
| `FileHandler.CachePathInjective` | src/utils/file_handler.py:229-250 | distinct keys have distinct cache files |
| `FileHandler.CacheGetAfterSet` | src/utils/file_handler.py:229-250 | reading a key just cached gives the data; other keys read as before |
| `FileHandler.ScaledIsQuotient` | src/utils/file_handler.py:268-272 | after k divisions by 1024 the value times 1024^k is the original size |
| `FileHandler.FormatFileSize` | src/utils/file_handler.py:266-272 | the unit is the first of B, KB, MB, GB whose scaled value is below 1024, else TB; the value is size/1024^k |
| `DrawingModel.NewStroke` | src/models/drawing_model.py:7-14 | a stroke made without a tool is a pen stroke |
| `DrawingModel.StrokeToDict` | src/models/drawing_model.py:16-24 | six keys |
| `DrawingModel.StrokeRoundTrip` | src/models/drawing_model.py:16-24 | a stroke's dict holds every field: reading it back gives the stroke |
| `DrawingModel.NewDrawing` | src/models/drawing_model.py:27-38 | no strokes, counters at 0, open, white 800×600 canvas |
| `DrawingModel.AddStroke` | src/models/drawing_model.py:40-43 | appends the stroke, raises the counter by one, changes nothing else, and keeps the counter equal to the stroke count |
| `DrawingModel.AddStrokesCounts` | src/models/drawing_model.py:40-43 | after adding strokes one by one, the strokes are the old ones plus the new ones in order, and the counter matches |
| `DrawingModel.GetDuration` | src/models/drawing_model.py:45-49 | end minus start for a closed drawing, now minus start for an open one |
| `DrawingModel.DrawingToDict` | src/models/drawing_model.py:51-62 | nine keys without end_time; the duration is `get_duration()`; each stroke as its own dict |
| `DrawingModel.ClosedDrawingIsStable` | src/models/drawing_model.py:45-62 | a closed drawing's dict does not depend on the clock |
| `DrawingModel.AnalysisToDict` | src/models/drawing_model.py:121-136 | the five analysis keys |
| `DrawingModel.AnalysisRoundTrip` | src/models/drawing_model.py:129-136 | the analysis dict gives back the five dimensions |
| `DrawingModel.NewArtwork` | src/models/drawing_model.py:65-94 | untitled "未命名作品", empty description, private, no tags, no drawing, nothing generated |
| `DrawingModel.ArtworkToDict` | src/models/drawing_model.py:96-118 | twenty keys; drawing_data is None when absent, else the drawing's dict |
| `DrawingModel.ArtworkDictOmitsIds` | src/models/drawing_model.py:96-118 | music_file_id and video_task_id are not keys |
| `DrawingModel.ArtworkDictIgnoresIds` | src/models/drawing_model.py:96-118 | changing the music file id or the video task id leaves the dict unchanged |
| `SessionManager.Defaults` | src/utils/session_manager.py:8-47 | the eight session keys, the fresh id and initialized True |
| `SessionManager.InitSessionState` | src/utils/session_manager.py:4-47 | adds every absent standard key with its default and keeps every present key's value |
| `SessionManager.InitIdempotent` | src/utils/session_manager.py:4-47 | initialising twice equals initialising once |
| `SessionManager.FreshSessionIsDefaults` | src/utils/session_manager.py:4-47 | an empty session becomes exactly the defaults |
| `SessionManager.GetState` | src/utils/session_manager.py:49-51 | the stored value, else the caller's default |
| `SessionManager.SetState` | src/utils/session_manager.py:53-55 | binds one key and leaves the rest alone |
| `SessionManager.GetAfterSet` | src/utils/session_manager.py:49-55 | reading a key just set gives the value; other keys read as before |
| `SessionManager.ClearSession` | src/utils/session_manager.py:57-63 | only the eight standard keys remain; user_id is carried over, or None if there was none; the rest are defaults |
| `SessionManager.ClearIdempotent` | src/utils/session_manager.py:57-63 | clearing twice equals clearing once |
| `SessionManager.ClearKeepsUser` | src/utils/session_manager.py:57-63 | clearing an initialised session keeps its user id |
| `Gallery.TotalPages` | pages/4_Gallery.py:122 | `(n-1)//12+1` is the least number of 12-item pages holding n items |
| `Gallery.Page` | pages/4_Gallery.py:138-140 | at most 12 items: the items from page·12 to page·12+12, clamped to the list |
| `Gallery.PagesPartition` | pages/4_Gallery.py:122-140 | the pages laid end to end are exactly the list |
| `Gallery.ItemOnPage` | pages/4_Gallery.py:122-140 | item i is card i%12 of page i//12, and that page exists |
| `Gallery.PageInRange` | pages/4_Gallery.py:122-140 | every page in range is non-empty; a stale page beyond the last is empty |
| `Gallery.ShowGallery` | pages/4_Gallery.py:113-140 | an empty list stops with the empty message; the page count is `TotalPages` of the list; buttons appear exactly with more than 12 items; Prev is disabled exactly on page 0 and Next exactly on the last page |
| `Gallery.NavigationStaysInRange` | pages/4_Gallery.py:126-135 | from a page in range, an enabled button never leads off the list |
| `Gallery.ArtworkIdOf` | pages/4_Gallery.py:148 | the id shown is an underscore-free prefix of the file name |
| `Gallery.IdRecoveredIff` | src/utils/file_handler.py:52 | splitting a saved image's name at '_' gives back its artwork id exactly when the id has no '_' |
| `JsonValue.MethodGet` | src/services/video_service.py:64-65 | `x.get(key, default)`: on a dict the key's value or the default; on anything else the AttributeError message |
| `MigrateArtworks.Suffix` | migrate_artworks.py:49 | `PurePath.suffix`: a dot-led tail of the name, never the whole name |
| `MigrateArtworks.JsonSuffix` | migrate_artworks.py:49 | a name ending in ".json" counts as JSON exactly when something precedes the ".json" |
| `MigrateArtworks.MergeJson` | migrate_artworks.py:57 | `{**target, **old}`: every key of both, and the old file's value wins |
| `MigrateArtworks.Step` | migrate_artworks.py:34-78 | directories are skipped uncounted; every file adds one to total and one to migrated or skipped; a new file is copied; an existing non-JSON file is left alone and skipped |
| `MigrateArtworks.NewFileIsCopied` | migrate_artworks.py:71-78 | a file without a counterpart is copied and counted as migrated |
| `MigrateArtworks.JsonConflictIsMerged` | migrate_artworks.py:47-66 | two JSON objects are merged, counted as migrated; anything else is skipped and leaves the target alone |
| `MigrateArtworks.OldUsers` | migrate_artworks.py:16-17 | every listed folder except default_user |
| `MigrateArtworks.Migrate` | migrate_artworks.py:5-89 | nothing happens exactly when every folder is default_user; otherwise the old folders are processed in order |
| `MigrateArtworks.Process` | migrate_artworks.py:30-78 | the total grows by the number of files, which is also the growth of migrated plus skipped; no path of the shared folder is lost |
| `MigrateArtworks.ProcessCounts` | migrate_artworks.py:26-78 | total = migrated + skipped, and total is the number of files |
| `MigrateArtworks.ProcessLands` | migrate_artworks.py:30-78 | afterwards the shared folder holds every path it held plus every listed file's path |
| `MigrateArtworks.MigrationTallies` | migrate_artworks.py:26-83 | the report's total is the old users' file count, split into migrated and skipped |
| `CheckSetup.CheckPythonVersion` | check_setup.py:16-24 | the lexicographic tuple test `>= (3, 8)`: major > 3, or major 3 and minor ≥ 8 |
| `CheckSetup.CheckDependencies` | check_setup.py:26-62 | over the ten required packages: raises exactly when some import fails with something other than ImportError; otherwise True exactly when all ten import |
| `CheckSetup.CheckPackages` | check_setup.py:26-62 | raises exactly when some import fails with something other than ImportError, and then with the first such failure's message; otherwise True exactly when every package imports |
| `CheckSetup.CheckPaths` | check_setup.py:102-154 | True exactly when every required directory or file exists |
| `CheckSetup.EnvValue` | check_setup.py:85-86 | present exactly when "KEY=" occurs in the text |
| `CheckSetup.StatusOf` | check_setup.py:83-94 | absent exactly when the key does not occur; configured exactly when its value is non-empty and does not start with "your_" |
| `CheckSetup.CheckEnvFileAsWritten` | check_setup.py:64-100 | False without a .env file; otherwise True exactly when every key is configured or merely mentioned without '=' |
| `CheckSetup.CheckEnvFile` | check_setup.py:64-100 | True exactly when the file exists and every required key has a non-empty, non-placeholder value |
| `CheckSetup.EnvReadingsAgree` | check_setup.py:82-94 | when no key is mentioned without '=', both readings agree |
| `CheckSetup.BareKeysPassAsWritten` | check_setup.py:82-94 | the three keys on their own lines, none assigned, pass as written and fail as intended |
| `CheckSetup.Summary` | check_setup.py:170-186 | each check shows as passed exactly when it returned True, so a raising check counts as failed; the verdict is `all(results)` |
| `CheckSetup.RunChecks` | check_setup.py:162-176 | the five checks in `main`'s order with their names, the last being `check_env_file` as written |
| `CheckSetup.RunChecksCorrected` | check_setup.py:162-176 | the same first four checks, with the corrected .env check last |
| `CheckSetup.RunChecksAgree` | check_setup.py:82-94 | without keys that appear only without "=", `main` reaches the same verdict under both .env readings |
| `CheckSetup.BareKeysPassMain` | check_setup.py:82-94 | with everything else in place and a .env that names every key but has no "=", `main` as written passes and the corrected one fails |
| `CheckSetup.MissingPiecesFail` | check_setup.py:156-198 | a missing .env file or an unimportable package makes the whole check fail |

## Left out

- Streamlit page rendering, the sidebar, `st.image`, dates from file modification times, and every page other than the paging part of the gallery page.
- `FileHandler.get_all_artworks`, `load_image`, `load_audio`, `save_json`, `load_json`, `get_user_artworks`, `download_file`, `resize_image`, `optimize_image`: PIL or plain I/O with no logic of their own.
- `CozeService._execute_workflow`, `query_workflow_status`, `get_workflow_info`: HTTP transport with no shaping beyond what is modelled for the stream.
- The audio effects (`adjust_audio_volume`, `add_fade_in_out`, `normalize_audio`, `convert_audio_format`, `get_audio_duration`): floating-point numpy sample arithmetic.
- The image effects (`create_thumbnail`, `add_watermark`, `apply_artistic_effect`): PIL drawing.
- cv2 k-means and the Sobel convolution: their results (the centres, the magnitude grid) are inputs to the model.
- JSON parsing and printing, base64 decoding on the service side, the `wave` reader, `uuid4` and `datetime.now`: all are parameters.
- config_loader and the test scripts.
- The `%.2f` rendering of `format_file_size` and the prompt texts: the model keeps the numbers and the unit, not the formatted string.
- ImageProcessor.CalculateBalanceScore, ImageProcessor.CalculateBalanceScoreAsWritten, ImageProcessor.DetectSceneType: means, variances and scores are exact reals. numpy's float64 rounding is not modelled.
- ImageProcessor.Nearest: compares squared distances. The source compares `**0.5` of them. The two orders agree except where float rounding of the square root would merge two distinct distances.
- DrawingModel.GetDuration: instants are exact seconds. `timedelta.total_seconds()` microsecond rounding is not modelled.
- FileHandler.FormatFileSize: repeated division by 1024 is exact in binary floating point only while the quotient keeps its 53 significant bits. The model uses exact reals.
- FileHandler: paths are lists of components, and a user id, key or artwork id is a single component. Ids containing '/' or '..' are not modelled.
- FileHandler.DeleteArtwork: the glob "{id}_*" is modelled as a name prefix. Glob metacharacters inside an id are not modelled.
- FileHandler.GetStorageSize: takes the recursive listing as an input and requires it to list exactly the user's files. It does not model files disappearing between the listing and `stat`.
- Base64.Decode: strict, accepting padding only in the last group. Python's lenient `b64decode`, which drops non-alphabet characters, is not modelled. The round trip is unaffected.
- VoiceService.StreamTextToSpeech: the causes that end the generator early (bytes that are not UTF-8, a dropped connection) are given as a break marker in the line list. The model does not decide which bytes fail.
- MigrateArtworks.Migrate: the order of `iterdir` and `rglob` is the order of the input. Failures of `mkdir` and `copy2` are not modelled. Printing is left out.
- CheckSetup.CheckEnvFile: the .env text is already decoded. A decoding error from `open(...).read()` is not modelled.
- AudioProcessor.GetAudioInfo: the duration is the exact quotient frames/rate. The source's `num_frames / framerate` is a float division, rounded to the nearest double.
- AudioProcessor.ReadCanonical: reads only the canonical 44-byte layout (RIFF, fmt with 16 bytes, data) and also refuses a RIFF size other than 36 + data size. `wave` accepts other chunks, extended fmt chunks and any RIFF size; those files are not modelled.
- VoiceService.VOICE_OPTIONS: `get_voice_options` is this constant table; nothing is stated about it.
- CheckSetup.CheckPythonVersion: takes the numeric fields of `sys.version_info`. The release-level string never decides against (3, 8).

## Findings

| source | as written | input that shows it | evidently intended | confidence | as-written member | corrected member |
|---|---|---|---|---|---|---|
| src/utils/image_processor.py:99-110 | the half sums are numpy uint64, so `left_half - right_half` wraps modulo 2^64 when the right half is brighter, and the score falls far below 0 | the 1×2 greyscale image [[0, 10]] | a balance score in [0, 100], as the docstring states, with `abs` of the true difference | high, not executed | `ImageProcessor.CalculateBalanceScoreAsWritten` (exhibited by `ImageProcessor.BalanceAsWrittenGoesNegative`) | `ImageProcessor.CalculateBalanceScore` |
| check_setup.py:82-94 | a required key that appears in .env without "=" (a bare name or a comment) passes, because only the branch with "=" can set `all_configured = False` | the .env text "DASHSCOPE_API_KEY\nCOZE_API_TOKEN\nCOZE_BOT_ID" | such a key reported as unfilled, so that the check fails | medium, not executed | `CheckSetup.CheckEnvFileAsWritten` (exhibited by `CheckSetup.BareKeysPassAsWritten` and, for `main`, `CheckSetup.BareKeysPassMain`) | `CheckSetup.CheckEnvFile` (in `main`: `CheckSetup.RunChecksCorrected`) |
