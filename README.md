# Mock interview: realtime session, transcript and aptitude scoring

This project models the core of a mock-interview application. A browser page holds a spoken conversation with a hosted speech model over a WebSocket. It streams microphone audio up as base64 16-bit PCM, plays back the PCM the model streams down, and builds a transcript from the model's text fragments. A separate Python endpoint serves aptitude-test questions without their answer key and scores submitted answer sheets.

The project has these modules:

- `Wrappers` (`wrappers.dfy`): Option, Result and Outcome.
- `Decimal` (`decimal.dfy`): decimal rendering of integers (JavaScript `toString`, Python `str`) and a parser that reads it back.
- `Base64` (`base64.dfy`): the base64 alphabet of section 4 of RFC 4648 over octets. It serves as the model of the browser's `btoa`/`atob`. Its round trip is proved: `Decode(Encode(bs)) == Some(bs)` for every byte sequence, the empty one included.
- `AudioUtils` (`audio_utils.dfy`), from `audioUtils.ts`:
  - sample conversion to and from 16 bits;
  - the byte/binary-string loops around `btoa`/`atob`;
  - linear resampling;
  - `generateUUID`.
- `LiveService` (`live_service.dfy`): the class `LiveInterviewService`. Its fields are the source's fields. Browser objects are opaque handles, `ws.send` is a log of frame kinds, and the session callbacks are a log of events. The environment delivers socket and audio events by calling the methods `SocketOpened`, `SocketClosed`, `SocketErrored`, `HandleServerMessage`, `AudioProcess` and `PlaybackEnded`. The class invariant `Valid` states three things:
  - at most one greeting is ever sent, and it is always followed by `response.create`;
  - a stopped queue, or a queue with no playback context, is empty;
  - a connected client has a socket.
- `InterviewSession` (`interview_session.dfy`), from the React component:
  - the `setState` updaters as pure functions;
  - the transcript reducer;
  - the `/[.?!]+/` sentence split behind the question heuristic;
  - the `mm:ss` clock;
  - a class `InterviewSession` holding the component's state cells and refs.
- `TechPrep` (`techprep.dfy`): `get_questions` and `submit_test`, with the loaded question bank passed in as a parameter.

Behaviours of the code that a reader might not expect, each stated as a property of the model:

- The question heuristic never sets `currentQuestion`. `split(/[.?!]+/)` removes every '?', so the test for a question mark in the chosen sentence always fails (`InterviewSession.QuestionNeverSet`).
- An interruption does not stop the buffer already playing. `stopAudioPlayback` only empties the queue and clears the flag. The started source's `onended` later starts a second dequeue chain next to the one a new delta starts (`LiveService.InterruptedPlaybackOverlaps`).
- The greeting is sent at most once per client instance, not per connection. The guard flag is set once and never reset, so a reconnect on the same instance sends none (`LiveService.LiveInterviewService.Valid`).
- The transcript only ever holds AI messages. No code path creates a user message (`InterviewSession.AllAi` is part of the page invariant).
- A socket error is only reported. `onerror` leaves the connection flag alone; among the socket handlers only `onclose` clears it, and `disconnect` clears it too.
- The 16-bit round trip is asymmetric. Negative samples scale by 0x8000 and positive ones by 0x7fff, but both come back through 1/0x8000. A negative sample comes back within one quantization step; a positive one can be off by nearly two (`AudioUtils.Int16RoundTrip`).
- An empty key is rejected when the client is constructed, not when it connects (`LiveService.LiveInterviewService.Create`).

## Model

| member | source | states |
|---|---|---|
| Decimal.NatToString | mockellobackend/backend/temp_interview_repo/src/components/InterviewSession.tsx:53-54 | `toString()` of a non-negative integer: at least one digit, all digits, and a single digit exactly when the number is below 10 |
| Decimal.IntToString | standalone_modules/tech-aptitude/techprep_router.py:51 | `str(id)`: a leading '-' exactly for negative ids |
| Decimal.ParseNatToString | mockellobackend/backend/temp_interview_repo/src/components/InterviewSession.tsx:53-54 | reading back a rendered number gives the number |
| Decimal.DigitsValueOfNatToString | mockellobackend/backend/temp_interview_repo/src/components/InterviewSession.tsx:53-54 | the digits of a rendered number have that number as their value |
| Decimal.DigitsValueLeadingZero | mockellobackend/backend/temp_interview_repo/src/components/InterviewSession.tsx:53-54 | the '0' that `padStart` adds does not change the value |
| Base64.SymbolOf | mockellobackend/backend/temp_interview_repo/src/utils/audioUtils.ts:24 | a symbol of the alphabet is never the pad character |
| Base64.ValueOf | mockellobackend/backend/temp_interview_repo/src/utils/audioUtils.ts:28 | a decoded symbol is a value below 64, and '=' has no value |
| Base64.ValueOfSymbolOf | mockellobackend/backend/temp_interview_repo/src/utils/audioUtils.ts:24-28 | decoding a symbol gives back the value that encoded it |
| Base64.ValueOfSymbol | mockellobackend/backend/temp_interview_repo/src/utils/audioUtils.ts:24-28 | the same round trip for six-bit values |
| Base64.Symbols | mockellobackend/backend/temp_interview_repo/src/utils/audioUtils.ts:24 | one symbol per sextet, with no pad among them |
| Base64.Padding | mockellobackend/backend/temp_interview_repo/src/utils/audioUtils.ts:24 | at most two pad characters |
| Base64.PadCount | mockellobackend/backend/temp_interview_repo/src/utils/audioUtils.ts:28 | at most two trailing pads, never more than the text |
| Base64.Values | mockellobackend/backend/temp_interview_repo/src/utils/audioUtils.ts:28 | one sextet per symbol |
| Base64.Decode | mockellobackend/backend/temp_interview_repo/src/utils/audioUtils.ts:28 | text whose length is not a multiple of four is rejected |
| Base64.UnsextetsSextets | mockellobackend/backend/temp_interview_repo/src/utils/audioUtils.ts:24-28 | regrouping the sextets of any byte sequence gives the bytes back |
| Base64.ValuesSymbols | mockellobackend/backend/temp_interview_repo/src/utils/audioUtils.ts:24-28 | the symbols of sextets are all in the alphabet, and read back as those sextets |
| Base64.SextetsLength | mockellobackend/backend/temp_interview_repo/src/utils/audioUtils.ts:24 | sextets plus padding fill whole four-character groups |
| Base64.GroupsCount | mockellobackend/backend/temp_interview_repo/src/utils/audioUtils.ts:24 | n bytes take ceil(n/3) groups |
| Base64.EncodeLength | mockellobackend/backend/temp_interview_repo/src/utils/audioUtils.ts:24 | the encoding of n bytes has 4*ceil(n/3) characters, a multiple of four |
| Base64.DecodeEncode | mockellobackend/backend/temp_interview_repo/src/utils/audioUtils.ts:24-28 | decoding the encoding of any byte sequence, the empty one included, gives it back |
| AudioUtils.Clamp | mockellobackend/backend/temp_interview_repo/src/utils/audioUtils.ts:4 | the result lies in [-1, 1]; values inside are kept, values outside go to the nearer end |
| AudioUtils.Truncate | mockellobackend/backend/temp_interview_repo/src/utils/audioUtils.ts:5 | an Int16Array store truncates toward zero |
| AudioUtils.ToInt16 | mockellobackend/backend/temp_interview_repo/src/utils/audioUtils.ts:4-5 | the sign is kept; -1 and below give -32768, 1 and above give 32767 |
| AudioUtils.FromInt16 | mockellobackend/backend/temp_interview_repo/src/utils/audioUtils.ts:13 | a 16-bit sample maps into [-1, 1) |
| AudioUtils.Int16RoundTrip | mockellobackend/backend/temp_interview_repo/src/utils/audioUtils.ts:1-16 | converting to 16 bits and back loses under one step for samples at or below 0, and under two steps above 0 |
| AudioUtils.Int16Samples | mockellobackend/backend/temp_interview_repo/src/utils/audioUtils.ts:1-8 | same length as the input; each sample converted on its own |
| AudioUtils.Float32ToInt16 | mockellobackend/backend/temp_interview_repo/src/utils/audioUtils.ts:1-8 | the loop fills a new array with exactly the converted samples |
| AudioUtils.Int16ToFloat32 | mockellobackend/backend/temp_interview_repo/src/utils/audioUtils.ts:10-16 | a new array of the same length, each element the sample divided by 32768 |
| AudioUtils.Int16Bytes | mockellobackend/backend/temp_interview_repo/src/services/liveService.ts:288 | the bytes of `int16Data.buffer`: two bytes per sample |
| AudioUtils.Int16BytesAt | mockellobackend/backend/temp_interview_repo/src/services/liveService.ts:288 | sample i is laid out little-endian: its low byte at 2i, its high byte at 2i + 1 |
| AudioUtils.SampleOfBytes | mockellobackend/backend/temp_interview_repo/src/services/liveService.ts:208 | reading a sample's two bytes back as a little-endian pair gives the sample, for every 16-bit value |
| AudioUtils.Int16ViewOfBytes | mockellobackend/backend/temp_interview_repo/src/services/liveService.ts:208 | the Int16Array view of a buffer written from samples is those samples: the playback reader inverts the microphone writer |
| AudioUtils.Int16Buffer | mockellobackend/backend/temp_interview_repo/src/services/liveService.ts:288 | the loop lays the samples out as exactly those bytes |
| AudioUtils.SampleOf | mockellobackend/backend/temp_interview_repo/src/services/liveService.ts:208 | a little-endian pair reads as negative exactly when the high byte's top bit is set |
| AudioUtils.Int16View | mockellobackend/backend/temp_interview_repo/src/services/liveService.ts:208 | `new Int16Array(buffer)` of an even-length buffer has half as many samples |
| AudioUtils.Binary | mockellobackend/backend/temp_interview_repo/src/utils/audioUtils.ts:19-23 | the binary string has one character per byte, with char code i equal to byte i |
| AudioUtils.CharCodes | mockellobackend/backend/temp_interview_repo/src/utils/audioUtils.ts:29-32 | one byte per character |
| AudioUtils.CharCodesBinary | mockellobackend/backend/temp_interview_repo/src/utils/audioUtils.ts:18-33 | the decode loop undoes the encode loop on every byte sequence |
| AudioUtils.Btoa | mockellobackend/backend/temp_interview_repo/src/utils/audioUtils.ts:24 | `btoa` succeeds exactly on Latin-1 strings and otherwise fails with InvalidCharacterError |
| AudioUtils.Atob | mockellobackend/backend/temp_interview_repo/src/utils/audioUtils.ts:28 | `atob` succeeds exactly on valid base64; its result is Latin-1 and carries the decoded bytes; otherwise InvalidCharacterError |
| AudioUtils.ArrayBufferToBase64 | mockellobackend/backend/temp_interview_repo/src/utils/audioUtils.ts:18-25 | `btoa` accepts the binary string, and the result is the base64 encoding of the buffer |
| AudioUtils.Base64ToArrayBuffer | mockellobackend/backend/temp_interview_repo/src/utils/audioUtils.ts:27-34 | invalid base64 throws InvalidCharacterError; otherwise a new buffer holds the char codes of the decoded string |
| AudioUtils.StoreCharCodes | mockellobackend/backend/temp_interview_repo/src/utils/audioUtils.ts:29-32 | the loop stores exactly the char codes |
| AudioUtils.BufferRoundTrip | mockellobackend/backend/temp_interview_repo/src/utils/audioUtils.ts:18-34 | for every byte sequence, including the empty one, `base64ToArrayBuffer(arrayBufferToBase64(b))` gives `b` back |
| AudioUtils.Round | mockellobackend/backend/temp_interview_repo/src/utils/audioUtils.ts:46 | `Math.round` lands within one half of its argument |
| AudioUtils.ResampledLength | mockellobackend/backend/temp_interview_repo/src/utils/audioUtils.ts:46 | the output length is never negative |
| AudioUtils.Left | mockellobackend/backend/temp_interview_repo/src/utils/audioUtils.ts:50-51 | the floor index is inside the input |
| AudioUtils.Right | mockellobackend/backend/temp_interview_repo/src/utils/audioUtils.ts:52 | the ceiling index is inside the input and not before the floor index |
| AudioUtils.InBounds | mockellobackend/backend/temp_interview_repo/src/utils/audioUtils.ts:49-52 | for every output index, `floor(i * ratio)` is a valid input index |
| AudioUtils.Interpolated | mockellobackend/backend/temp_interview_repo/src/utils/audioUtils.ts:53-57 | each output sample lies between the two input samples it interpolates |
| AudioUtils.ConvexBetween | mockellobackend/backend/temp_interview_repo/src/utils/audioUtils.ts:53-57 | a weighted mean with a fraction in [0, 1] lies between its two ends |
| AudioUtils.Resample | mockellobackend/backend/temp_interview_repo/src/utils/audioUtils.ts:36-61 | equal rates return the input itself; otherwise `round(n / ratio)` interpolated samples |
| AudioUtils.ResampleAudio | mockellobackend/backend/temp_interview_repo/src/utils/audioUtils.ts:36-61 | equal rates return the very same array; otherwise a new array holding the resampled signal |
| AudioUtils.Xs | mockellobackend/backend/temp_interview_repo/src/utils/audioUtils.ts:86 | a run of n placeholder characters |
| AudioUtils.HexDigit | mockellobackend/backend/temp_interview_repo/src/utils/audioUtils.ts:89 | `v.toString(16)` is a lower-case hexadecimal digit that reads back as `v` |
| AudioUtils.PlaceholdersAppend | mockellobackend/backend/temp_interview_repo/src/utils/audioUtils.ts:86 | placeholders of a concatenation add up |
| AudioUtils.PlaceholdersXs | mockellobackend/backend/temp_interview_repo/src/utils/audioUtils.ts:86 | a run of n placeholders holds n of them |
| AudioUtils.TemplateSize | mockellobackend/backend/temp_interview_repo/src/utils/audioUtils.ts:86 | the pattern has 36 characters, 31 of which draw a random number |
| AudioUtils.TemplateLayout | mockellobackend/backend/temp_interview_repo/src/utils/audioUtils.ts:86 | the pattern has '-' at 8, 13, 18 and 23, '4' at 14, 'y' at 19 and 'x' elsewhere |
| AudioUtils.VariantDigit | mockellobackend/backend/temp_interview_repo/src/utils/audioUtils.ts:88 | `(r & 0x3) \| 0x8` prints as one of 8, 9, a, b |
| AudioUtils.Fill | mockellobackend/backend/temp_interview_repo/src/utils/audioUtils.ts:86-90 | the replacement keeps the template's length |
| AudioUtils.FillShape | mockellobackend/backend/temp_interview_repo/src/utils/audioUtils.ts:86-90 | the replacement keeps the length, puts a hex digit for each 'x' and a variant digit for each 'y', and keeps every other character |
| AudioUtils.GenerateUuid | mockellobackend/backend/temp_interview_repo/src/utils/audioUtils.ts:85-91 | the identifier is 36 characters long (its full layout is `AudioUtils.UuidLayout`) |
| AudioUtils.UuidLayout | mockellobackend/backend/temp_interview_repo/src/utils/audioUtils.ts:85-91 | whatever the draws: 36 characters, '-' at 8, 13, 18 and 23, '4' at 14, 8/9/a/b at 19, lower-case hex elsewhere |
| LiveService.ErrorText | mockellobackend/backend/temp_interview_repo/src/services/liveService.ts:189-193 | an `error` frame reports its message when present and non-empty, else "Unknown error" |
| LiveService.GreetingsAppend | mockellobackend/backend/temp_interview_repo/src/services/liveService.ts:132 | sending a frame adds a greeting to the count exactly when it is `conversation.item.create` |
| LiveService.MicFrame | mockellobackend/backend/temp_interview_repo/src/services/liveService.ts:281-293 | a microphone frame is an `input_audio_buffer.append` whose audio is whole base64 quadruples (its content is `LiveService.MicFrameDecodes`) |
| LiveService.MicFrameDecodes | mockellobackend/backend/temp_interview_repo/src/services/liveService.ts:281-293 | the audio of a microphone frame decodes as base64 to an even-length buffer whose Int16Array view is the resampled block in 16 bits |
| LiveService.PlaybackSamples | mockellobackend/backend/temp_interview_repo/src/services/liveService.ts:208-212 | one playback sample per 16-bit sample of the PCM |
| LiveService.PcmToSamples | mockellobackend/backend/temp_interview_repo/src/services/liveService.ts:208-212 | the loop fills a new array with each 16-bit sample divided by 32768 |
| LiveService.EncodeMicBlock | mockellobackend/backend/temp_interview_repo/src/services/liveService.ts:281-293 | a microphone block is sent as the base64 of the 16-bit little-endian form of the block resampled to 24 kHz |
| LiveService.LiveInterviewService.constructor | mockellobackend/backend/temp_interview_repo/src/services/liveService.ts:39-44 | a non-empty key is stored; every handle is null, nothing is queued, sent or reported |
| LiveService.LiveInterviewService.Create | mockellobackend/backend/temp_interview_repo/src/services/liveService.ts:39-44 | construction fails with "API key is required" exactly when the key is empty; otherwise it yields a fresh client holding the key |
| LiveService.LiveInterviewService.Emit | mockellobackend/backend/temp_interview_repo/src/services/liveService.ts:27 | a callback is called only once callbacks are stored, and nothing else changes |
| LiveService.LiveInterviewService.Connect | mockellobackend/backend/temp_interview_repo/src/services/liveService.ts:46-85 | the callbacks are stored; when the key makes the subprotocol something other than an RFC 7230 token, SyntaxError is rethrown and no socket or playback context is made; otherwise a CONNECTING socket and a playback context |
| LiveService.LiveInterviewService.SendSessionUpdate | mockellobackend/backend/temp_interview_repo/src/services/liveService.ts:87-111 | one `session.update` is sent if the socket exists and is OPEN, otherwise nothing |
| LiveService.LiveInterviewService.SendInitialPrompt | mockellobackend/backend/temp_interview_repo/src/services/liveService.ts:113-144 | the greeting and `response.create`, in that order, only on an OPEN socket |
| LiveService.LiveInterviewService.SocketOpened | mockellobackend/backend/temp_interview_repo/src/services/liveService.ts:58-62 | on open the client is connected and has sent exactly one `session.update` |
| LiveService.LiveInterviewService.SocketClosed | mockellobackend/backend/temp_interview_repo/src/services/liveService.ts:74-78 | on close the client is not connected and reports the disconnect once |
| LiveService.LiveInterviewService.SocketErrored | mockellobackend/backend/temp_interview_repo/src/services/liveService.ts:69-72 | a socket error is reported as "WebSocket connection error"; every other field, the greeting flag and the connection state included, is unchanged |
| LiveService.LiveInterviewService.HandleServerMessage | mockellobackend/backend/temp_interview_repo/src/services/liveService.ts:146-202 | per frame type: `session.created` reports connect; only the first `session.updated` sets the flag and sends the greeting, and only if OPEN, and a later one sends and reports nothing; once the flag is set the greeting count never changes; a truthy valid audio delta reports its decoded bytes and queues them as `queueAudioForPlayback` does; truthy text deltas are forwarded; `speech_started` empties the queue, stops playback and reports the interruption once; `error` reports `ErrorText` and leaves the connection; `response.done` and unknown types report nothing; no frame touches the socket, the connection flag or the microphone |
| LiveService.LiveInterviewService.HandleAudioDelta | mockellobackend/backend/temp_interview_repo/src/services/liveService.ts:164-170 | a truthy valid delta reports its decoded bytes, then they are queued exactly as `queueAudioForPlayback` queues them (waiting behind a playing chain, or started at once); an empty or invalid delta changes nothing |
| LiveService.LiveInterviewService.QueueAudioForPlayback | mockellobackend/backend/temp_interview_repo/src/services/liveService.ts:204-229 | with a playback context and a non-empty even-length buffer, the buffer joins the back of the FIFO: while a chain plays it waits at the back of the queue, otherwise it starts at once and the queue is left empty; without a context or samples nothing about playback changes |
| LiveService.LiveInterviewService.PlayNextAudio | mockellobackend/backend/temp_interview_repo/src/services/liveService.ts:231-254 | starts exactly the head of the queue, keeping FIFO order; with no context or an empty queue it stops playback and takes nothing |
| LiveService.LiveInterviewService.PlaybackEnded | mockellobackend/backend/temp_interview_repo/src/services/liveService.ts:249-251 | a finished source starts the next head, or stops playback when the queue is empty; every other field, the greeting flag and the playback context included, is unchanged |
| LiveService.LiveInterviewService.StopAudioPlayback | mockellobackend/backend/temp_interview_repo/src/services/liveService.ts:256-259 | the queue is empty and playback stopped; sources already started keep playing |
| LiveService.LiveInterviewService.StartMicrophone | mockellobackend/backend/temp_interview_repo/src/services/liveService.ts:261-304 | granted access creates stream, context, source and processor; a denial rethrows NotAllowedError and changes nothing |
| LiveService.LiveInterviewService.AudioProcess | mockellobackend/backend/temp_interview_repo/src/services/liveService.ts:278-296 | a block is sent, resampled from 24 kHz or the 44.1 kHz fallback, only on an OPEN socket; otherwise nothing is sent |
| LiveService.LiveInterviewService.StopMicrophone | mockellobackend/backend/temp_interview_repo/src/services/liveService.ts:306-326 | processor, source node, microphone context and stream are all null afterwards |
| LiveService.LiveInterviewService.Disconnect | mockellobackend/backend/temp_interview_repo/src/services/liveService.ts:328-343 | from any state, and again when repeated: every handle and the socket are null, the queue is empty, and the client is neither playing nor connected |
| LiveService.LiveInterviewService.IsSessionConnected | mockellobackend/backend/temp_interview_repo/src/services/liveService.ts:345-347 | a connected client has a socket |
| LiveService.InterruptedPlaybackOverlaps | mockellobackend/backend/temp_interview_repo/src/services/liveService.ts:184-187 | after a buffer starts, an interruption, and a new buffer, two sources play at once |
| InterviewSession.Connected | mockellobackend/backend/temp_interview_repo/src/components/InterviewSession.tsx:61-64 | active and recording, with everything else kept |
| InterviewSession.Disconnected | mockellobackend/backend/temp_interview_repo/src/components/InterviewSession.tsx:66-73 | active becomes ended and not recording; every other status is left as it is |
| InterviewSession.DisconnectedIdempotent | mockellobackend/backend/temp_interview_repo/src/components/InterviewSession.tsx:66-73 | a repeated disconnect changes nothing more |
| InterviewSession.Finished | mockellobackend/backend/temp_interview_repo/src/components/InterviewSession.tsx:168 | ended and not recording, with everything else kept |
| InterviewSession.ToggleMute | mockellobackend/backend/temp_interview_repo/src/components/InterviewSession.tsx:171-173 | only the mute flag flips |
| InterviewSession.ToggleCamera | mockellobackend/backend/temp_interview_repo/src/components/InterviewSession.tsx:175-177 | only the camera flag flips |
| InterviewSession.TogglesInvolutive | mockellobackend/backend/temp_interview_repo/src/components/InterviewSession.tsx:171-177 | each toggle undoes itself, and the two commute |
| InterviewSession.Speaking | mockellobackend/backend/temp_interview_repo/src/components/InterviewSession.tsx:75-84 | only the speaking flag is set |
| InterviewSession.Errored | mockellobackend/backend/temp_interview_repo/src/components/InterviewSession.tsx:118-121 | only the error is set, to the message |
| InterviewSession.StartRequested | mockellobackend/backend/temp_interview_repo/src/components/InterviewSession.tsx:128-134 | an empty key only sets "API key is required" and keeps the status; otherwise connecting with the error cleared |
| InterviewSession.StartFailed | mockellobackend/backend/temp_interview_repo/src/components/InterviewSession.tsx:151-156 | back to idle, showing the thrown message, or "Failed to start interview" for a non-Error |
| InterviewSession.WithAiText | mockellobackend/backend/temp_interview_repo/src/components/InterviewSession.tsx:89-109 | afterwards the last message is the AI's with the given content; earlier messages are unchanged; the count grows by one exactly when the list was empty or did not end with an AI message; a replaced message keeps its id and time |
| InterviewSession.FragmentsShareMessage | mockellobackend/backend/temp_interview_repo/src/components/InterviewSession.tsx:89-109 | two fragments in a row give the same transcript as the second alone: one message, with the first one's id and time |
| InterviewSession.FirstTerminator | mockellobackend/backend/temp_interview_repo/src/components/InterviewSession.tsx:111 | the text before the first of '.', '?', '!' holds none of them |
| InterviewSession.RunLength | mockellobackend/backend/temp_interview_repo/src/components/InterviewSession.tsx:111 | a run of terminators is maximal |
| InterviewSession.Split | mockellobackend/backend/temp_interview_repo/src/components/InterviewSession.tsx:111 | `split(/[.?!]+/)` gives at least one piece, and no piece holds a terminator |
| InterviewSession.StripAppend | mockellobackend/backend/temp_interview_repo/src/components/InterviewSession.tsx:111 | removing terminators distributes over concatenation |
| InterviewSession.StripClean | mockellobackend/backend/temp_interview_repo/src/components/InterviewSession.tsx:111 | text without terminators is unchanged by removing them |
| InterviewSession.StripRun | mockellobackend/backend/temp_interview_repo/src/components/InterviewSession.tsx:111 | a run of terminators vanishes |
| InterviewSession.StripAround | mockellobackend/backend/temp_interview_repo/src/components/InterviewSession.tsx:111 | a clean prefix is kept and the run after it dropped |
| InterviewSession.ConcatCons | mockellobackend/backend/temp_interview_repo/src/components/InterviewSession.tsx:111 | joining pieces starts with the first piece |
| InterviewSession.SplitJoin | mockellobackend/backend/temp_interview_repo/src/components/InterviewSession.tsx:111 | the split loses exactly the terminators: joined back, the pieces are the text without them |
| InterviewSession.ChosenSentence | mockellobackend/backend/temp_interview_repo/src/components/InterviewSession.tsx:111-112 | the sentence picked by `sentences[len - 2] \|\| sentences[0]` never holds '?' |
| InterviewSession.Trim | mockellobackend/backend/temp_interview_repo/src/components/InterviewSession.tsx:114 | trimming never lengthens |
| InterviewSession.QuestionUpdate | mockellobackend/backend/temp_interview_repo/src/components/InterviewSession.tsx:111-115 | the question step changes at most `currentQuestion`, and only to a text ending in '?' |
| InterviewSession.QuestionNeverSet | mockellobackend/backend/temp_interview_repo/src/components/InterviewSession.tsx:111-115 | for every reply, the question step leaves the page state, `currentQuestion` included, unchanged |
| InterviewSession.ElapsedSeconds | mockellobackend/backend/temp_interview_repo/src/components/InterviewSession.tsx:52 | once the clock is past the start, the whole seconds elapsed: never negative, and within one second of the milliseconds over 1000 |
| InterviewSession.JsRem | mockellobackend/backend/temp_interview_repo/src/components/InterviewSession.tsx:54 | JavaScript `%` agrees with the mathematical remainder for non-negative dividends and is never positive for negative ones |
| InterviewSession.PadStart2 | mockellobackend/backend/temp_interview_repo/src/components/InterviewSession.tsx:53-54 | `padStart(2, '0')` leaves two or more characters alone and prefixes a '0' to a single one |
| InterviewSession.NatToStringBelowHundred | mockellobackend/backend/temp_interview_repo/src/components/InterviewSession.tsx:54 | a seconds count renders in at most two digits |
| InterviewSession.PaddedReadsBack | mockellobackend/backend/temp_interview_repo/src/components/InterviewSession.tsx:53-54 | a padded field reads back as its number |
| InterviewSession.ClockFields | mockellobackend/backend/temp_interview_repo/src/components/InterviewSession.tsx:52-55 | for a non-negative count the clock reads `mm:ss`: seconds in exactly two digits below 60, and minutes * 60 + seconds is the count |
| InterviewSession.InterviewSession.constructor | mockellobackend/backend/temp_interview_repo/src/components/InterviewSession.tsx:29-46 | the first render: idle page, empty transcript and reply, clock "00:00", a fresh session id with the identifier layout |
| InterviewSession.InterviewSession.HandleConnect | mockellobackend/backend/temp_interview_repo/src/components/InterviewSession.tsx:61-64 | the page is active and recording, and the start time is now |
| InterviewSession.InterviewSession.HandleDisconnect | mockellobackend/backend/temp_interview_repo/src/components/InterviewSession.tsx:66-73 | the page takes `Disconnected` and nothing else changes |
| InterviewSession.InterviewSession.HandleAudioData | mockellobackend/backend/temp_interview_repo/src/components/InterviewSession.tsx:75-84 | the AI shows as speaking and the speaking timeout is pending |
| InterviewSession.InterviewSession.SpeakingTimeout | mockellobackend/backend/temp_interview_repo/src/components/InterviewSession.tsx:81-83 | the timeout clears the speaking flag |
| InterviewSession.InterviewSession.HandleTextResponse | mockellobackend/backend/temp_interview_repo/src/components/InterviewSession.tsx:86-116 | the reply becomes the old reply plus the fragment; the transcript takes it as its last AI message; the page state is unchanged |
| InterviewSession.InterviewSession.HandleError | mockellobackend/backend/temp_interview_repo/src/components/InterviewSession.tsx:118-121 | the page shows the error message and nothing else changes |
| InterviewSession.InterviewSession.HandleInterrupted | mockellobackend/backend/temp_interview_repo/src/components/InterviewSession.tsx:123-126 | the reply is emptied and the speaking flag cleared; the transcript is untouched |
| InterviewSession.InterviewSession.Deliver | mockellobackend/backend/temp_interview_repo/src/components/InterviewSession.tsx:139-148 | each callback of the client reaches its handler, with that handler's whole effect: page state, transcript, reply, start time and speaking timer are stated for every event, and the clock, session id and client are unchanged |
| InterviewSession.InterviewSession.Tick | mockellobackend/backend/temp_interview_repo/src/components/InterviewSession.tsx:48-59 | while active with a start time, the clock shows the elapsed seconds as `mm:ss`; otherwise it is left alone |
| InterviewSession.InterviewSession.ToggleMuteButton | mockellobackend/backend/temp_interview_repo/src/components/InterviewSession.tsx:171-173 | the page takes `ToggleMute` |
| InterviewSession.InterviewSession.ToggleCameraButton | mockellobackend/backend/temp_interview_repo/src/components/InterviewSession.tsx:175-177 | the page takes `ToggleCamera` |
| InterviewSession.InterviewSession.StartInterview | mockellobackend/backend/temp_interview_repo/src/components/InterviewSession.tsx:128-158 | an empty key sets only the error and makes no client; otherwise a fresh client with the key and the page's callbacks that has sent and reported nothing; a key that is not a token leaves it with no socket, no playback context and no microphone, and the page back to idle with SyntaxError; otherwise its socket is connecting and its playback context open, and the microphone handles exist exactly when access is granted, the page staying connecting or going back to idle with NotAllowedError |
| InterviewSession.InterviewSession.EndInterview | mockellobackend/backend/temp_interview_repo/src/components/InterviewSession.tsx:160-169 | the client, if any, is fully torn down and dropped, and the page shows the interview ended |
| InterviewSession.InterviewSession.Restart | mockellobackend/backend/temp_interview_repo/src/components/InterviewSession.tsx:330-343 | initial page, empty transcript and reply, new session id; start time and clock text are kept |
| InterviewSession.FragmentAfterInterruption | mockellobackend/backend/temp_interview_repo/src/components/InterviewSession.tsx:123-126 | after an interruption the next fragment replaces the last AI message's content and adds no message |
| TechPrep.GetQuestions | standalone_modules/tech-aptitude/techprep_router.py:28-38 | one entry per question, in order, carrying exactly id, section, question and options; a load failure is a 500 with the exception text |
| TechPrep.Selected | standalone_modules/tech-aptitude/techprep_router.py:51-53 | the selected answer is present exactly when the sheet has the key `str(id)`, and then it is that key's value |
| TechPrep.Row | standalone_modules/tech-aptitude/techprep_router.py:55-66 | the entry copies the question's fields; `isCorrect` holds exactly when the selection equals the right answer, so it is false when nothing was selected |
| TechPrep.Rows | standalone_modules/tech-aptitude/techprep_router.py:50-66 | one entry per question, in question order |
| TechPrep.CorrectCount | standalone_modules/tech-aptitude/techprep_router.py:56-57 | the number of correct entries never exceeds the number of entries |
| TechPrep.CorrectCountAppend | standalone_modules/tech-aptitude/techprep_router.py:56-57 | one more entry adds one exactly when it is correct |
| TechPrep.RowsAppend | standalone_modules/tech-aptitude/techprep_router.py:59-66 | the entries of one more question are the old entries plus its own |
| TechPrep.MatchedIndicesStep | standalone_modules/tech-aptitude/techprep_router.py:50-57 | the rightly answered questions of a longer bank are those of the shorter bank plus, possibly, the new one |
| TechPrep.RowsStep | standalone_modules/tech-aptitude/techprep_router.py:50-66 | the entries of a bank split into those of its front and the last question's |
| TechPrep.CorrectCountIsMatches | standalone_modules/tech-aptitude/techprep_router.py:47-57 | the count of correct entries is the number of questions whose `str(id)` maps to their right answer |
| TechPrep.SubmitTest | standalone_modules/tech-aptitude/techprep_router.py:40-75 | one result per question, in order; `totalQuestions` is the bank size; `attempted` is the number of keys on the sheet; the score is the count of correct results, so 0 <= score <= totalQuestions; a load failure is a 500 |
| TechPrep.AttemptedMayExceedTotal | standalone_modules/tech-aptitude/techprep_router.py:40-75 | `submit_test` on a one-question bank with a sheet of two keys, one naming no question, reports 2 attempts against 1 question |

## Left out

- Browser APIs (WebSocket, AudioContext, `getUserMedia`, buffer sources, script processors) are opaque handles. A socket is its ready state, and `ws.send` is a log of frame kinds. The JSON payloads (`SYSTEM_INSTRUCTION`, the session configuration, the greeting text) and `JSON.parse`/`JSON.stringify` are not modelled. A frame that does not parse is not modelled.
- Floating point: samples are exact reals. `Float32Array` rounding, NaN and infinities are not modelled.
- Timing and asynchrony: each callback and each awaited call runs atomically. The `await playbackContext.close()` in `disconnect` cannot interleave with other events. The 500 ms and 1 s timers are the methods `SpeakingTimeout` and `Tick`, called by the environment.
- AudioUtils.Atob: models strict base64 per section 4 of RFC 4648 (padding required, no whitespace). The browser's forgiving decoder also accepts missing padding and ASCII whitespace; those inputs are rejected here.
- AudioUtils.ResampleAudio: requires positive sample rates. Non-positive or non-finite rates produce float infinities or NaN lengths, which an exact-real model cannot express. The one caller (`liveService.ts:282`) passes the microphone context's rate, or the 44100 fallback, against 24000.
- LiveService.LiveInterviewService.Connect: the only constructor failure modelled is SyntaxError for a subprotocol that is not a token. The URL and the other two subprotocols are constants.
- LiveService.LiveInterviewService.StartMicrophone: the only device failure modelled is a denied permission, reported by its DOMException name. Other `getUserMedia` failures and device sample rates other than the requested 24 kHz are not modelled.
- InterviewSession.InterviewSession.StartInterview: the message shown after a throw is the DOMException's name, because the browser's message text for it is implementation-defined.
- InterviewSession.Trim: strips only ASCII whitespace, NBSP and BOM, not every Unicode space separator that `trim` removes. It only runs in a branch shown to be dead.
- `downloadTranscript` (Blob, anchor element, object URL) and all rendering are file I/O and UI. `endInterview` is modelled without the download.
- `createAudioContext`, `decodeAudioData` and `pcmToAudioBuffer` (`audioUtils.ts:63-83`) are thin wrappers over browser APIs that the core does not call.
- `load_questions` is file I/O. The bank is a parameter, either the questions or the text of the exception raised while loading them. Records with missing keys, non-integer answers or Python's `True == 1` comparisons are outside the typed model. `SubmitTest.timedOut` is accepted by the source and never read, so it has no counterpart here.
- LiveService.LiveInterviewService.Disconnect: modelled as one atomic step. In the code, `stopAudioPlayback` runs before `await playbackContext.close()`, and the socket is closed only after that await. An audio delta arriving during the await is still queued against the open context, so the code can finish `disconnect` with buffers left in the queue, `isPlaying` set, and no playback context. The model's "queue empty, not playing" after `Disconnect` does not hold in that interleaving. The same holds for the class invariant's clause that a client with no playback context has an empty queue.
- `console.log`/`console.error` output is not modelled.
