/**
 * The realtime session client: a socket to the speech service, a microphone
 * graph whose frames are streamed up as base64 PCM, and a playback queue for
 * the PCM the service streams back.
 *
 * Browser objects (socket, audio contexts, media stream, audio nodes) are
 * opaque handles. The socket is reduced to its ready state, and `ws.send`
 * to a log of the frames sent. The session callbacks become a log of the
 * calls made to them. Socket and audio events (`onopen`, `onclose`,
 * `onerror`, `onmessage`, `onaudioprocess`, a source's `onended`) are
 * methods the environment calls.
 */
module LiveService {
  import opened Wrappers
  import Base64
  import AudioUtils

  type Byte = AudioUtils.Byte

  /** `WebSocket.readyState`. */
  datatype ReadyState = Connecting | Open | Closing | Closed

  /** An audio context, media stream or audio node, known only by the order it was created in. */
  datatype Handle = Handle(serial: nat)

  /** The session socket. */
  datatype Socket = Socket(serial: nat, state: ReadyState)

  /** A mono AudioBuffer handed to the playback context. */
  datatype AudioBuffer = AudioBuffer(samples: seq<real>)

  /** The frames the client sends, by their `type`. */
  datatype OutMessage =
    | SessionUpdate
    | ConversationItemCreate
    | ResponseCreate
    | InputAudioAppend(audio: string)

  /**
   * The frames the client reacts to, by their `type`. A `delta` or an error
   * `message` is None when the field is absent.
   */
  datatype ServerMessage =
    | SessionCreated
    | SessionUpdated
    | AudioDelta(delta: Option<string>)
    | AudioTranscriptDelta(delta: Option<string>)
    | TextDelta(delta: Option<string>)
    | SpeechStarted
    | ErrorFrame(message: Option<string>)
    | ResponseDone
    | Other(kind: string)

  /** A call into the session callbacks. */
  datatype Event =
    | Connected
    | Disconnected
    | AudioData(bytes: seq<Byte>)
    | TextResponse(text: string)
    | Failed(message: string)
    | Interrupted

  const ApiKeyRequired: string := "API key is required"
  const UnknownError: string := "Unknown error"
  const SocketErrorMessage: string := "WebSocket connection error"
  /** The subprotocol carrying the key is this prefix followed by the key. */
  const KeyProtocolPrefix: string := "openai-insecure-api-key."
  /** The sample rate of the microphone context and of the PCM the service expects. */
  const ServiceRate: real := 24000.0
  /** The rate taken when the microphone context is gone. */
  const FallbackRate: real := 44100.0

  /** A `tchar` of section 3.2.6 of RFC 7230. */
  predicate IsTokenChar(c: char) {
    ('a' <= c <= 'z') || ('A' <= c <= 'Z') || ('0' <= c <= '9') || c in "!#$%&'*+-.^_`|~"
  }

  /** A `token` of RFC 7230: what the WebSocket constructor accepts as a subprotocol. */
  predicate IsToken(s: string) {
    |s| > 0 && forall i :: 0 <= i < |s| ==> IsTokenChar(s[i])
  }

  /** A JavaScript string field is truthy when present and non-empty. */
  predicate Truthy(field: Option<string>) {
    field.Some? && field.value != ""
  }

  /**
   * The message `onError` receives for an `error` frame: `error.message ||
   * 'Unknown error'`. The rule is what is promised, so the contract states
   * it case by case, and adds that the text is never empty.
   */
  function ErrorText(message: Option<string>): (t: string)
    ensures t != ""
    ensures Truthy(message) ==> t == message.value
    ensures !Truthy(message) ==> t == UnknownError
  {
    if Truthy(message) then message.value else UnknownError
  }

  /** Number of greetings (`conversation.item.create` frames) in a frame log. */
  function Greetings(sent: seq<OutMessage>): nat
  {
    if |sent| == 0 then 0
    else Greetings(sent[..|sent| - 1]) + (if sent[|sent| - 1].ConversationItemCreate? then 1 else 0)
  }

  /** Every greeting in the log is directly followed by a `response.create`. */
  predicate GreetingsAnswered(sent: seq<OutMessage>) {
    forall i :: 0 <= i < |sent| && sent[i].ConversationItemCreate? ==> i + 1 < |sent| && sent[i + 1].ResponseCreate?
  }

  lemma GreetingsAppend(sent: seq<OutMessage>, m: OutMessage)
    ensures Greetings(sent + [m]) == Greetings(sent) + (if m.ConversationItemCreate? then 1 else 0)
  {
    assert (sent + [m])[..|sent|] == sent;
  }

  /** The frame `onaudioprocess` sends for a block of microphone samples taken at `rate`. */
  function MicFrame(input: seq<real>, rate: real): (f: OutMessage)
    requires rate > 0.0
    ensures f.InputAudioAppend? && |f.audio| % 4 == 0
  {
    Base64.EncodeLength(AudioUtils.Int16Bytes(AudioUtils.Int16Samples(AudioUtils.Resample(input, rate, ServiceRate))));
    InputAudioAppend(Base64.Encode(AudioUtils.Int16Bytes(AudioUtils.Int16Samples(AudioUtils.Resample(input, rate, ServiceRate)))))
  }

  /**
   * A microphone frame carries exactly the block's 16-bit samples: its audio
   * decodes as base64 to a little-endian buffer whose Int16Array view is the
   * resampled block converted to 16 bits.
   */
  lemma MicFrameDecodes(input: seq<real>, rate: real)
    requires rate > 0.0
    ensures var frame := MicFrame(input, rate);
      var pcm := AudioUtils.Int16Samples(AudioUtils.Resample(input, rate, ServiceRate));
      && Base64.Decode(frame.audio).Some?
      && |Base64.Decode(frame.audio).value| % 2 == 0
      && AudioUtils.Int16View(Base64.Decode(frame.audio).value) == pcm
  {
    var pcm := AudioUtils.Int16Samples(AudioUtils.Resample(input, rate, ServiceRate));
    Base64.DecodeEncode(AudioUtils.Int16Bytes(pcm));
    AudioUtils.Int16ViewOfBytes(pcm);
  }

  /** The samples of the AudioBuffer `queueAudioForPlayback` builds from PCM bytes of even length. */
  function PlaybackSamples(bytes: seq<Byte>): (xs: seq<real>)
    requires |bytes| % 2 == 0
    ensures |xs| == |bytes| / 2
  {
    var pcm := AudioUtils.Int16View(bytes);
    seq(|pcm|, i requires 0 <= i < |pcm| => pcm[i] as real / 32768.0)
  }

  /** The loop of `queueAudioForPlayback`: each 16-bit sample scaled by 1/32768. */
  method PcmToSamples(bytes: seq<Byte>) returns (samples: array<real>)
    requires |bytes| % 2 == 0
    ensures fresh(samples) && samples[..] == PlaybackSamples(bytes)
  {
    var pcm := AudioUtils.Int16View(bytes);
    samples := new real[|pcm|];
    for i := 0 to |pcm|
      invariant forall j :: 0 <= j < i ==> samples[j] == pcm[j] as real / 32768.0
    {
      samples[i] := pcm[i] as real / 32768.0;
    }
  }

  /** The body of `onaudioprocess` once the socket is known to be OPEN: the frame for one block. */
  method EncodeMicBlock(input: array<real>, rate: real) returns (frame: OutMessage)
    requires rate > 0.0
    ensures frame == MicFrame(input[..], rate)
  {
    var resampled := AudioUtils.ResampleAudio(input, rate, ServiceRate);
    var pcm := AudioUtils.Float32ToInt16(resampled);
    var buffer := AudioUtils.Int16Buffer(pcm);
    var audio := AudioUtils.ArrayBufferToBase64(buffer);
    frame := InputAudioAppend(audio);
  }

  class LiveInterviewService {
    const apiKey: string
    /** Whether `connect` has stored the callbacks. */
    var hasCallbacks: bool
    var ws: Option<Socket>
    var audioContext: Option<Handle>
    var mediaStream: Option<Handle>
    var scriptProcessor: Option<Handle>
    var sourceNode: Option<Handle>
    var playbackContext: Option<Handle>
    var audioQueue: seq<AudioBuffer>
    var isPlaying: bool
    var isConnected: bool
    var initialPromptSent: bool
    /** Buffer sources started whose `onended` has not fired yet. */
    var activeSources: nat
    /** Buffers started on the playback context, in order. */
    var played: seq<AudioBuffer>
    /** Frames passed to `ws.send`, in order. */
    var sent: seq<OutMessage>
    /** Calls made to the callbacks, in order. */
    var events: seq<Event>
    /** Serial number of the next browser object. */
    var nextSerial: nat

    /**
     * What holds between calls: at most one greeting, sent only once the
     * guard flag is set and always followed by `response.create`; and a
     * stopped queue is empty, as is the queue of a client with no playback
     * context.
     */
    ghost predicate Valid()
      reads this
    {
      && PromptSentOnce()
      && (!isPlaying ==> audioQueue == [])
      && (playbackContext.None? ==> audioQueue == [])
      && (isConnected ==> ws.Some?)
    }

    /** At most one greeting, sent only once the guard flag is set, and answered. */
    ghost predicate PromptSentOnce()
      reads this
    {
      && Greetings(sent) <= 1
      && (Greetings(sent) == 1 ==> initialPromptSent)
      && GreetingsAnswered(sent)
    }

    /** The state right after construction. */
    ghost predicate Fresh()
      reads this
    {
      && !hasCallbacks && ws.None?
      && audioContext.None? && mediaStream.None? && scriptProcessor.None? && sourceNode.None?
      && playbackContext.None?
      && audioQueue == [] && !isPlaying && !isConnected && !initialPromptSent
      && activeSources == 0 && played == [] && sent == [] && events == []
    }

    /** The socket exists and is OPEN: the guard of every send. */
    predicate CanSend()
      reads this
    {
      ws.Some? && ws.value.state == Open
    }

    /** Everything waiting or already started, in arrival order. */
    ghost function Audio(): seq<AudioBuffer>
      reads this
    {
      played + audioQueue
    }

    /**
     * The effect of `queueAudioForPlayback(bytes)`: with a playback context
     * and a non-empty even-length buffer, its samples join the back of the
     * queue. While a chain plays the buffer waits there; otherwise it is
     * started at once, which leaves the queue empty. Without a context or
     * with no samples nothing about playback changes.
     */
    twostate predicate Queued(bytes: seq<Byte>)
      reads this
    {
      if old(playbackContext).Some? && |bytes| % 2 == 0 && |bytes| > 0 then
        && Audio() == old(Audio()) + [AudioBuffer(PlaybackSamples(bytes))]
        && isPlaying
        && activeSources == old(activeSources) + (if old(isPlaying) then 0 else 1)
        && (old(isPlaying) ==>
              played == old(played) && audioQueue == old(audioQueue) + [AudioBuffer(PlaybackSamples(bytes))])
        && (!old(isPlaying) ==>
              played == old(played) + [AudioBuffer(PlaybackSamples(bytes))] && audioQueue == [])
      else
        && audioQueue == old(audioQueue) && isPlaying == old(isPlaying)
        && played == old(played) && activeSources == old(activeSources)
    }

    constructor(apiKey: string)
      requires apiKey != ""
      ensures this.apiKey == apiKey && Fresh() && Valid()
    {
      this.apiKey := apiKey;
      hasCallbacks := false;
      ws := None;
      audioContext := None;
      mediaStream := None;
      scriptProcessor := None;
      sourceNode := None;
      playbackContext := None;
      audioQueue := [];
      isPlaying := false;
      isConnected := false;
      initialPromptSent := false;
      activeSources := 0;
      played := [];
      sent := [];
      events := [];
      nextSerial := 0;
    }

    /** `new LiveInterviewService(apiKey)`: throws for an empty key. */
    static method Create(apiKey: string) returns (r: Result<LiveInterviewService, string>)
      ensures r.Failure? <==> apiKey == ""
      ensures r.Failure? ==> r.error == ApiKeyRequired
      ensures r.Success? ==> fresh(r.value) && r.value.apiKey == apiKey && r.value.Fresh() && r.value.Valid()
    {
      if apiKey == "" {
        return Failure(ApiKeyRequired);
      }
      var service := new LiveInterviewService(apiKey);
      return Success(service);
    }

    /** `this.callbacks?.…(…)`: the call happens only once `connect` has stored the callbacks. */
    method Emit(e: Event)
      modifies this
      ensures events == old(events) + (if hasCallbacks then [e] else [])
      ensures hasCallbacks == old(hasCallbacks) && ws == old(ws) && sent == old(sent)
      ensures audioContext == old(audioContext) && mediaStream == old(mediaStream)
      ensures scriptProcessor == old(scriptProcessor) && sourceNode == old(sourceNode)
      ensures playbackContext == old(playbackContext) && audioQueue == old(audioQueue) && played == old(played)
      ensures isPlaying == old(isPlaying) && isConnected == old(isConnected)
      ensures initialPromptSent == old(initialPromptSent) && activeSources == old(activeSources)
      ensures nextSerial == old(nextSerial)
    {
      if hasCallbacks {
        events := events + [e];
      }
    }

    /**
     * `connect`: stores the callbacks and opens a socket whose subprotocols
     * carry the key, then creates the 24 kHz playback context. The socket
     * constructor throws a SyntaxError, which `connect` rethrows, when the
     * key makes its subprotocol something other than an RFC 7230 token.
     */
    method Connect() returns (r: Outcome<string>)
      requires Valid()
      modifies this
      ensures Valid()
      ensures hasCallbacks
      ensures r.Fail? <==> !IsToken(KeyProtocolPrefix + apiKey)
      ensures r.Fail? ==> r.error == "SyntaxError"
      ensures r.Fail? ==> ws == old(ws) && playbackContext == old(playbackContext)
      ensures r.Pass? ==> ws.Some? && ws.value.state == Connecting && playbackContext.Some?
      ensures audioQueue == old(audioQueue) && isPlaying == old(isPlaying) && isConnected == old(isConnected)
      ensures initialPromptSent == old(initialPromptSent) && sent == old(sent) && events == old(events)
      ensures audioContext == old(audioContext) && mediaStream == old(mediaStream)
      ensures scriptProcessor == old(scriptProcessor) && sourceNode == old(sourceNode)
      ensures played == old(played) && activeSources == old(activeSources)
      ensures r.Fail? ==> nextSerial == old(nextSerial)
    {
      hasCallbacks := true;
      if !IsToken(KeyProtocolPrefix + apiKey) {
        return Fail("SyntaxError");
      }
      ws := Some(Socket(nextSerial, Connecting));
      playbackContext := Some(Handle(nextSerial + 1));
      nextSerial := nextSerial + 2;
      return Pass;
    }

    /** `sendSessionUpdate`: one `session.update` frame, only on an OPEN socket. */
    method SendSessionUpdate()
      requires Valid()
      modifies this
      ensures Valid()
      ensures sent == old(sent) + (if CanSend() then [SessionUpdate] else [])
      ensures ws == old(ws) && events == old(events) && initialPromptSent == old(initialPromptSent)
      ensures hasCallbacks == old(hasCallbacks)
      ensures audioQueue == old(audioQueue) && isPlaying == old(isPlaying) && isConnected == old(isConnected)
      ensures playbackContext == old(playbackContext) && played == old(played) && activeSources == old(activeSources)
      ensures audioContext == old(audioContext) && mediaStream == old(mediaStream)
      ensures scriptProcessor == old(scriptProcessor) && sourceNode == old(sourceNode)
      ensures nextSerial == old(nextSerial)
    {
      if CanSend() {
        GreetingsAppend(sent, SessionUpdate);
        sent := sent + [SessionUpdate];
      }
    }

    /** `sendInitialPrompt`: the greeting and a `response.create`, only on an OPEN socket. */
    method SendInitialPrompt()
      requires Valid() && initialPromptSent && (CanSend() ==> Greetings(sent) == 0)
      modifies this
      ensures Valid()
      ensures sent == old(sent) + (if CanSend() then [ConversationItemCreate, ResponseCreate] else [])
      ensures ws == old(ws) && events == old(events) && initialPromptSent == old(initialPromptSent)
      ensures hasCallbacks == old(hasCallbacks)
      ensures audioQueue == old(audioQueue) && isPlaying == old(isPlaying) && isConnected == old(isConnected)
      ensures playbackContext == old(playbackContext) && played == old(played) && activeSources == old(activeSources)
      ensures audioContext == old(audioContext) && mediaStream == old(mediaStream)
      ensures scriptProcessor == old(scriptProcessor) && sourceNode == old(sourceNode)
      ensures nextSerial == old(nextSerial)
    {
      if CanSend() {
        GreetingsAppend(sent, ConversationItemCreate);
        GreetingsAppend(sent + [ConversationItemCreate], ResponseCreate);
        assert sent + [ConversationItemCreate] + [ResponseCreate] == sent + [ConversationItemCreate, ResponseCreate];
        sent := sent + [ConversationItemCreate, ResponseCreate];
      }
    }

    /** `ws.onopen`: the socket is OPEN; the client marks itself connected and configures the session. */
    method SocketOpened()
      requires Valid() && ws.Some? && ws.value.state == Connecting
      modifies this
      ensures Valid()
      ensures ws == Some(old(ws.value).(state := Open)) && isConnected
      ensures sent == old(sent) + [SessionUpdate]
      ensures events == old(events) && initialPromptSent == old(initialPromptSent)
      ensures audioQueue == old(audioQueue) && isPlaying == old(isPlaying)
      ensures playbackContext == old(playbackContext) && played == old(played) && activeSources == old(activeSources)
      ensures audioContext == old(audioContext) && mediaStream == old(mediaStream)
      ensures scriptProcessor == old(scriptProcessor) && sourceNode == old(sourceNode)
      ensures hasCallbacks == old(hasCallbacks) && nextSerial == old(nextSerial)
    {
      ws := Some(ws.value.(state := Open));
      isConnected := true;
      SendSessionUpdate();
    }

    /** `ws.onclose`: the socket is CLOSED; the client is no longer connected and says so. */
    method SocketClosed()
      requires Valid()
      modifies this
      ensures Valid()
      ensures !isConnected
      ensures ws == if old(ws).Some? then Some(old(ws).value.(state := Closed)) else None
      ensures events == old(events) + (if hasCallbacks then [Disconnected] else [])
      ensures sent == old(sent) && initialPromptSent == old(initialPromptSent)
      ensures audioQueue == old(audioQueue) && isPlaying == old(isPlaying)
      ensures playbackContext == old(playbackContext) && played == old(played) && activeSources == old(activeSources)
      ensures audioContext == old(audioContext) && mediaStream == old(mediaStream)
      ensures scriptProcessor == old(scriptProcessor) && sourceNode == old(sourceNode)
      ensures hasCallbacks == old(hasCallbacks) && nextSerial == old(nextSerial)
    {
      isConnected := false;
      if ws.Some? {
        ws := Some(ws.value.(state := Closed));
      }
      Emit(Disconnected);
    }

    /** `ws.onerror`: reported through `onError`; nothing else changes. */
    method SocketErrored()
      requires Valid()
      modifies this
      ensures Valid()
      ensures events == old(events) + (if hasCallbacks then [Failed(SocketErrorMessage)] else [])
      ensures ws == old(ws) && isConnected == old(isConnected) && sent == old(sent)
      ensures audioQueue == old(audioQueue) && isPlaying == old(isPlaying)
      ensures playbackContext == old(playbackContext) && played == old(played)
      ensures initialPromptSent == old(initialPromptSent) && activeSources == old(activeSources)
      ensures audioContext == old(audioContext) && mediaStream == old(mediaStream)
      ensures scriptProcessor == old(scriptProcessor) && sourceNode == old(sourceNode)
      ensures hasCallbacks == old(hasCallbacks) && nextSerial == old(nextSerial)
    {
      Emit(Failed(SocketErrorMessage));
    }

    /**
     * `handleServerMessage`: dispatch on the frame type. An audio delta that
     * is not base64 makes `atob` throw out of the handler before anything
     * changes.
     */
    method HandleServerMessage(m: ServerMessage)
      requires Valid()
      modifies this
      ensures Valid()
      // A greeting is sent at most once: only the first session.updated can send one.
      ensures old(initialPromptSent) ==> initialPromptSent && Greetings(sent) == old(Greetings(sent))
      ensures m.SessionUpdated? ==> initialPromptSent
      ensures m.SessionUpdated? && !old(initialPromptSent) ==>
        sent == old(sent) + (if old(CanSend()) then [ConversationItemCreate, ResponseCreate] else [])
      ensures m.SessionUpdated? && old(initialPromptSent) ==> sent == old(sent)
      ensures !m.SessionUpdated? ==> initialPromptSent == old(initialPromptSent) && sent == old(sent)
      ensures m.SessionCreated? ==> events == old(events) + (if hasCallbacks then [Connected] else [])
      ensures (m.AudioTranscriptDelta? || m.TextDelta?) ==>
        events == old(events) + (if hasCallbacks && Truthy(m.delta) then [TextResponse(m.delta.value)] else [])
      ensures m.AudioDelta? && !(Truthy(m.delta) && AudioUtils.Atob(m.delta.value).Success?) ==>
        events == old(events) && audioQueue == old(audioQueue) && isPlaying == old(isPlaying) &&
        played == old(played) && activeSources == old(activeSources)
      ensures m.AudioDelta? && Truthy(m.delta) && AudioUtils.Atob(m.delta.value).Success? ==>
        events == old(events) + (if hasCallbacks then [AudioData(Base64.Decode(m.delta.value).value)] else []) &&
        Queued(Base64.Decode(m.delta.value).value)
      ensures m.SpeechStarted? ==>
        audioQueue == [] && !isPlaying && events == old(events) + (if hasCallbacks then [Interrupted] else [])
      ensures m.ErrorFrame? ==> events == old(events) + (if hasCallbacks then [Failed(ErrorText(m.message))] else [])
      ensures (m.SessionUpdated? || m.ResponseDone? || m.Other?) ==> events == old(events)
      ensures !m.AudioDelta? && !m.SpeechStarted? ==> audioQueue == old(audioQueue) && isPlaying == old(isPlaying)
      ensures !m.AudioDelta? ==> played == old(played) && activeSources == old(activeSources)
      // No frame touches the connection or the microphone.
      ensures ws == old(ws) && isConnected == old(isConnected) && playbackContext == old(playbackContext)
      ensures audioContext == old(audioContext) && mediaStream == old(mediaStream)
      ensures scriptProcessor == old(scriptProcessor) && sourceNode == old(sourceNode)
      ensures hasCallbacks == old(hasCallbacks) && nextSerial == old(nextSerial)
    {
      match m {
        case SessionCreated =>
          Emit(Connected);
        case SessionUpdated =>
          if !initialPromptSent {
            initialPromptSent := true;
            SendInitialPrompt();
          }
        case AudioDelta(delta) =>
          HandleAudioDelta(delta);
        case AudioTranscriptDelta(delta) =>
          if Truthy(delta) {
            Emit(TextResponse(delta.value));
          }
        case TextDelta(delta) =>
          if Truthy(delta) {
            Emit(TextResponse(delta.value));
          }
        case SpeechStarted =>
          StopAudioPlayback();
          Emit(Interrupted);
        case ErrorFrame(message) =>
          Emit(Failed(ErrorText(message)));
        case ResponseDone =>
        case Other(_) =>
      }
    }

    /**
     * A `response.audio.delta` frame: the decoded PCM goes to `onAudioData`
     * and to the playback queue. An absent or empty delta is ignored; one
     * that is not base64 makes `atob` throw before anything changes.
     */
    method HandleAudioDelta(delta: Option<string>)
      requires Valid()
      modifies this
      ensures Valid()
      ensures !(Truthy(delta) && AudioUtils.Atob(delta.value).Success?) ==>
        events == old(events) && audioQueue == old(audioQueue) && isPlaying == old(isPlaying) &&
        played == old(played) && activeSources == old(activeSources)
      ensures Truthy(delta) && AudioUtils.Atob(delta.value).Success? ==>
        events == old(events) + (if hasCallbacks then [AudioData(Base64.Decode(delta.value).value)] else []) &&
        Queued(Base64.Decode(delta.value).value)
      ensures ws == old(ws) && isConnected == old(isConnected) && playbackContext == old(playbackContext)
      ensures sent == old(sent) && initialPromptSent == old(initialPromptSent)
      ensures audioContext == old(audioContext) && mediaStream == old(mediaStream)
      ensures scriptProcessor == old(scriptProcessor) && sourceNode == old(sourceNode)
      ensures hasCallbacks == old(hasCallbacks) && nextSerial == old(nextSerial)
    {
      if Truthy(delta) {
        var decoded := AudioUtils.Base64ToArrayBuffer(delta.value);
        if decoded.Success? {
          var bytes := decoded.value[..];
          Emit(AudioData(bytes));
          QueueAudioForPlayback(bytes);
        }
      }
    }

    /**
     * `queueAudioForPlayback`: PCM bytes become a buffer at the back of the
     * queue, and playback starts if it was stopped. Without a playback
     * context nothing happens; a buffer of odd length (the Int16Array view
     * throws) or of no samples (`createBuffer` throws) is dropped by the catch.
     */
    method QueueAudioForPlayback(bytes: seq<Byte>)
      requires Valid()
      modifies this
      ensures Valid()
      ensures Queued(bytes)
      ensures ws == old(ws) && isConnected == old(isConnected) && playbackContext == old(playbackContext)
      ensures sent == old(sent) && events == old(events) && initialPromptSent == old(initialPromptSent)
      ensures audioContext == old(audioContext) && mediaStream == old(mediaStream)
      ensures scriptProcessor == old(scriptProcessor) && sourceNode == old(sourceNode)
      ensures hasCallbacks == old(hasCallbacks) && nextSerial == old(nextSerial)
    {
      if playbackContext.None? || |bytes| % 2 != 0 || |bytes| == 0 {
        return;
      }
      var samples := PcmToSamples(bytes);
      var buffer := AudioBuffer(samples[..]);
      audioQueue := audioQueue + [buffer];
      if !isPlaying {
        PlayNextAudio();
      }
    }

    /**
     * `playNextAudio`: starts the buffer at the head of the queue; with no
     * playback context or an empty queue it marks playback stopped and takes
     * nothing.
     */
    method PlayNextAudio()
      requires PromptSentOnce() && (playbackContext.None? ==> audioQueue == []) && (isConnected ==> ws.Some?)
      modifies this
      ensures Valid()
      ensures Audio() == old(Audio())
      ensures playbackContext.None? || old(audioQueue) == [] ==>
        !isPlaying && audioQueue == old(audioQueue) && played == old(played) && activeSources == old(activeSources)
      ensures playbackContext.Some? && old(audioQueue) != [] ==>
        isPlaying && audioQueue == old(audioQueue)[1..] && played == old(played) + [old(audioQueue)[0]] &&
        activeSources == old(activeSources) + 1
      ensures ws == old(ws) && isConnected == old(isConnected) && playbackContext == old(playbackContext)
      ensures sent == old(sent) && events == old(events) && initialPromptSent == old(initialPromptSent)
      ensures audioContext == old(audioContext) && mediaStream == old(mediaStream)
      ensures scriptProcessor == old(scriptProcessor) && sourceNode == old(sourceNode)
      ensures hasCallbacks == old(hasCallbacks) && nextSerial == old(nextSerial)
    {
      if playbackContext.None? || audioQueue == [] {
        isPlaying := false;
        return;
      }
      isPlaying := true;
      var head := audioQueue[0];
      audioQueue := audioQueue[1..];
      played := played + [head];
      activeSources := activeSources + 1;
    }

    /**
     * A started source's `onended`: the next buffer is started. This fires
     * also for a source started before an interruption, so after
     * `speech_started` and a new delta two chains can be running.
     */
    method PlaybackEnded()
      requires Valid() && activeSources > 0
      modifies this
      ensures Valid()
      ensures Audio() == old(Audio())
      ensures playbackContext.None? || old(audioQueue) == [] ==>
        !isPlaying && audioQueue == old(audioQueue) && activeSources == old(activeSources) - 1
      ensures playbackContext.Some? && old(audioQueue) != [] ==>
        isPlaying && audioQueue == old(audioQueue)[1..] && played == old(played) + [old(audioQueue)[0]] &&
        activeSources == old(activeSources)
      ensures ws == old(ws) && isConnected == old(isConnected) && sent == old(sent) && events == old(events)
      ensures playbackContext == old(playbackContext) && initialPromptSent == old(initialPromptSent)
      ensures audioContext == old(audioContext) && mediaStream == old(mediaStream)
      ensures scriptProcessor == old(scriptProcessor) && sourceNode == old(sourceNode)
      ensures hasCallbacks == old(hasCallbacks) && nextSerial == old(nextSerial)
    {
      activeSources := activeSources - 1;
      PlayNextAudio();
    }

    /** `stopAudioPlayback`: empties the queue and marks playback stopped; started sources play on. */
    method StopAudioPlayback()
      requires Valid()
      modifies this
      ensures Valid()
      ensures audioQueue == [] && !isPlaying
      ensures played == old(played) && activeSources == old(activeSources)
      ensures ws == old(ws) && isConnected == old(isConnected) && playbackContext == old(playbackContext)
      ensures sent == old(sent) && events == old(events) && initialPromptSent == old(initialPromptSent)
      ensures audioContext == old(audioContext) && mediaStream == old(mediaStream)
      ensures scriptProcessor == old(scriptProcessor) && sourceNode == old(sourceNode)
      ensures hasCallbacks == old(hasCallbacks) && nextSerial == old(nextSerial)
    {
      audioQueue := [];
      isPlaying := false;
    }

    /**
     * `startMicrophone`: when access is `granted`, a media stream, a 24 kHz
     * context, a source node and a script processor; otherwise
     * `getUserMedia` rejects and the error is rethrown with nothing changed.
     */
    method StartMicrophone(granted: bool) returns (r: Outcome<string>)
      requires Valid()
      modifies this
      ensures Valid()
      ensures r.Pass? <==> granted
      ensures r.Fail? ==> r.error == "NotAllowedError"
      ensures granted ==> mediaStream.Some? && audioContext.Some? && sourceNode.Some? && scriptProcessor.Some?
      ensures !granted ==>
        mediaStream == old(mediaStream) && audioContext == old(audioContext) &&
        sourceNode == old(sourceNode) && scriptProcessor == old(scriptProcessor)
      ensures ws == old(ws) && isConnected == old(isConnected) && playbackContext == old(playbackContext)
      ensures audioQueue == old(audioQueue) && isPlaying == old(isPlaying)
      ensures sent == old(sent) && events == old(events) && initialPromptSent == old(initialPromptSent)
      ensures played == old(played) && activeSources == old(activeSources) && hasCallbacks == old(hasCallbacks)
      ensures !granted ==> nextSerial == old(nextSerial)
    {
      if !granted {
        return Fail("NotAllowedError");
      }
      mediaStream := Some(Handle(nextSerial));
      audioContext := Some(Handle(nextSerial + 1));
      sourceNode := Some(Handle(nextSerial + 2));
      scriptProcessor := Some(Handle(nextSerial + 3));
      nextSerial := nextSerial + 4;
      return Pass;
    }

    /**
     * `onaudioprocess`: with an OPEN socket, the block is resampled from the
     * microphone context's rate to 24 kHz, converted to 16 bits and sent as
     * base64; otherwise nothing is sent.
     */
    method AudioProcess(input: array<real>)
      requires Valid() && scriptProcessor.Some?
      modifies this
      ensures Valid()
      ensures sent == old(sent) +
        (if CanSend() then [MicFrame(input[..], if audioContext.Some? then ServiceRate else FallbackRate)] else [])
      ensures ws == old(ws) && isConnected == old(isConnected) && playbackContext == old(playbackContext)
      ensures audioQueue == old(audioQueue) && isPlaying == old(isPlaying) && events == old(events)
      ensures initialPromptSent == old(initialPromptSent)
      ensures audioContext == old(audioContext) && mediaStream == old(mediaStream)
      ensures scriptProcessor == old(scriptProcessor) && sourceNode == old(sourceNode)
      ensures played == old(played) && activeSources == old(activeSources)
      ensures hasCallbacks == old(hasCallbacks) && nextSerial == old(nextSerial)
    {
      if !CanSend() {
        return;
      }
      var rate := if audioContext.Some? then ServiceRate else FallbackRate;
      var frame := EncodeMicBlock(input, rate);
      GreetingsAppend(sent, frame);
      sent := sent + [frame];
    }

    /** `stopMicrophone`: the processor, source node, microphone context and stream are released. */
    method StopMicrophone()
      requires Valid()
      modifies this
      ensures Valid()
      ensures scriptProcessor.None? && sourceNode.None? && audioContext.None? && mediaStream.None?
      ensures ws == old(ws) && isConnected == old(isConnected) && playbackContext == old(playbackContext)
      ensures audioQueue == old(audioQueue) && isPlaying == old(isPlaying) && played == old(played)
      ensures sent == old(sent) && events == old(events) && initialPromptSent == old(initialPromptSent)
      ensures activeSources == old(activeSources) && hasCallbacks == old(hasCallbacks)
      ensures nextSerial == old(nextSerial)
    {
      scriptProcessor := None;
      sourceNode := None;
      audioContext := None;
      mediaStream := None;
    }

    /**
     * `disconnect`: from any state, every handle and the socket are released,
     * the queue is empty and the client is neither playing nor connected.
     * Since the new state does not depend on the old one, a second call
     * changes nothing.
     */
    method Disconnect()
      requires Valid()
      modifies this
      ensures Valid()
      ensures scriptProcessor.None? && sourceNode.None? && audioContext.None? && mediaStream.None?
      ensures playbackContext.None? && ws.None?
      ensures audioQueue == [] && !isPlaying && !isConnected
      ensures played == old(played) && activeSources == old(activeSources)
      ensures sent == old(sent) && events == old(events) && initialPromptSent == old(initialPromptSent)
      ensures hasCallbacks == old(hasCallbacks) && nextSerial == old(nextSerial)
    {
      StopMicrophone();
      StopAudioPlayback();
      playbackContext := None;
      ws := None;
      isConnected := false;
    }

    /** `isSessionConnected`: a connected client always has a socket. */
    function IsSessionConnected(): (connected: bool)
      requires Valid()
      reads this
      ensures connected ==> ws.Some?
    {
      isConnected
    }
  }

  /**
   * An interruption does not stop the source already playing: after a first
   * buffer starts, `speech_started`, and a second buffer arrives, two
   * sources are playing at once.
   */
  method InterruptedPlaybackOverlaps(service: LiveInterviewService, first: seq<Byte>, second: seq<Byte>)
    requires service.Valid() && service.playbackContext.Some?
    requires !service.isPlaying && service.activeSources == 0
    requires |first| > 0 && |first| % 2 == 0 && |second| > 0 && |second| % 2 == 0
    modifies service
    ensures service.Valid() && service.activeSources == 2
  {
    service.QueueAudioForPlayback(first);
    service.HandleServerMessage(SpeechStarted);
    service.QueueAudioForPlayback(second);
  }
}
