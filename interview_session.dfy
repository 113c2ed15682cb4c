/**
 * The interview page: the record of what the page shows, the transcript
 * the AI's text fragments build up, the elapsed-time clock, and the
 * component that holds them together with the realtime client.
 *
 * React's `setState(prev => …)` updaters are the pure functions below on an
 * `InterviewState` or a message list. The component's refs and state cells
 * are the fields of `InterviewSession`. The clock (`Date.now()`) and the
 * random draws of `generateUUID` are parameters.
 */
module InterviewSession {
  import opened Wrappers
  import Decimal
  import AudioUtils
  import LiveService

  datatype Role = User | Ai

  /** A transcript entry; the timestamp is in milliseconds since the epoch. */
  datatype Message = Message(id: string, role: Role, content: string, timestamp: int)

  datatype Status = Idle | Connecting | Active | Ended

  /** What the page shows. */
  datatype InterviewState = InterviewState(
    status: Status,
    isRecording: bool,
    isMuted: bool,
    isCameraOff: bool,
    isAISpeaking: bool,
    currentQuestion: string,
    error: Option<string>)

  const ApiKeyRequired: string := "API key is required"
  const StartFailedMessage: string := "Failed to start interview"

  /** The state the page starts in, and returns to on "Restart Session". */
  const Initial: InterviewState := InterviewState(Idle, false, false, false, false, "", None)

  // ---------------------------------------------------------------------------
  // State updaters

  /** `handleConnect`: the session is live and the microphone recording. */
  function Connected(st: InterviewState): (r: InterviewState)
    ensures r.status == Active && r.isRecording
    ensures r.(status := st.status, isRecording := st.isRecording) == st
  {
    st.(status := Active, isRecording := true)
  }

  /** `handleDisconnect`: a live session ends; in any other status nothing changes. */
  function Disconnected(st: InterviewState): (r: InterviewState)
    ensures st.status == Active ==> r.status == Ended && !r.isRecording
    ensures st.status == Active ==> r.(status := st.status, isRecording := st.isRecording) == st
    ensures st.status != Active ==> r == st
  {
    if st.status == Active then st.(status := Ended, isRecording := false) else st
  }

  /** A disconnect that arrives twice is the same as one. */
  lemma DisconnectedIdempotent(st: InterviewState)
    ensures Disconnected(Disconnected(st)) == Disconnected(st)
  {
  }

  /** `endInterview`, after the service is released: ended, not recording. */
  function Finished(st: InterviewState): (r: InterviewState)
    ensures r.status == Ended && !r.isRecording
    ensures r.(status := st.status, isRecording := st.isRecording) == st
  {
    st.(status := Ended, isRecording := false)
  }

  /** `toggleMute`: only the mute flag flips. */
  function ToggleMute(st: InterviewState): (r: InterviewState)
    ensures r.isMuted == !st.isMuted
    ensures r.(isMuted := st.isMuted) == st
  {
    st.(isMuted := !st.isMuted)
  }

  /** `toggleCamera`: only the camera flag flips. */
  function ToggleCamera(st: InterviewState): (r: InterviewState)
    ensures r.isCameraOff == !st.isCameraOff
    ensures r.(isCameraOff := st.isCameraOff) == st
  {
    st.(isCameraOff := !st.isCameraOff)
  }

  /** Pressing a toggle twice restores the page, and the two toggles commute. */
  lemma TogglesInvolutive(st: InterviewState)
    ensures ToggleMute(ToggleMute(st)) == st
    ensures ToggleCamera(ToggleCamera(st)) == st
    ensures ToggleMute(ToggleCamera(st)) == ToggleCamera(ToggleMute(st))
  {
  }

  /** The AI speaking indicator, set by `handleAudioData` and cleared by its timeout and by `handleInterrupted`. */
  function Speaking(st: InterviewState, on: bool): (r: InterviewState)
    ensures r.isAISpeaking == on
    ensures r.(isAISpeaking := st.isAISpeaking) == st
  {
    st.(isAISpeaking := on)
  }

  /** `handleError`: the message is shown; nothing else changes. */
  function Errored(st: InterviewState, message: string): (r: InterviewState)
    ensures r.error == Some(message)
    ensures r.(error := st.error) == st
  {
    st.(error := Some(message))
  }

  /**
   * The first step of `startInterview`: without a key the page only shows
   * the error; otherwise it is connecting with the error cleared.
   */
  function StartRequested(st: InterviewState, apiKey: string): (r: InterviewState)
    ensures apiKey == "" ==> r.error == Some(ApiKeyRequired) && r.status == st.status
    ensures apiKey == "" ==> r.(error := st.error) == st
    ensures apiKey != "" ==> r.status == Connecting && r.error == None
    ensures apiKey != "" ==> r.(status := st.status, error := st.error) == st
  {
    if apiKey == "" then st.(error := Some(ApiKeyRequired)) else st.(status := Connecting, error := None)
  }

  /**
   * The catch of `startInterview`: back to idle, showing the thrown error's
   * message, or a fixed text when what was thrown is not an `Error`
   * (`thrown` is None).
   */
  function StartFailed(st: InterviewState, thrown: Option<string>): (r: InterviewState)
    ensures r.status == Idle && r.error.Some?
    ensures thrown.Some? ==> r.error == thrown
    ensures thrown.None? ==> r.error == Some(StartFailedMessage)
    ensures r.(status := st.status, error := st.error) == st
  {
    st.(status := Idle, error := Some(if thrown.Some? then thrown.value else StartFailedMessage))
  }

  // ---------------------------------------------------------------------------
  // The transcript

  predicate EndsWithAi(ms: seq<Message>) {
    |ms| > 0 && ms[|ms| - 1].role == Ai
  }

  /** Every entry is the AI's: the page never adds one for the candidate. */
  predicate AllAi(ms: seq<Message>) {
    forall i :: 0 <= i < |ms| ==> ms[i].role == Ai
  }

  /**
   * The `setMessages` updater of `handleTextResponse`: the last message, if
   * it is the AI's, takes `content` and keeps its id and time; otherwise a
   * new AI message with `id` and time `now` is appended.
   */
  function WithAiText(ms: seq<Message>, content: string, id: string, now: int): (r: seq<Message>)
    ensures EndsWithAi(r) && r[|r| - 1].content == content
    ensures |r| == |ms| + (if EndsWithAi(ms) then 0 else 1)
    ensures forall i :: 0 <= i < |r| - 1 ==> r[i] == ms[i]
    ensures EndsWithAi(ms) ==> r[|r| - 1] == ms[|ms| - 1].(content := content)
    ensures !EndsWithAi(ms) ==> r[|r| - 1] == Message(id, Ai, content, now)
    ensures AllAi(ms) ==> AllAi(r)
  {
    if EndsWithAi(ms) then ms[..|ms| - 1] + [ms[|ms| - 1].(content := content)]
    else ms + [Message(id, Ai, content, now)]
  }

  /**
   * Fragments of one reply collapse into one message: a second fragment
   * rewrites the message the first one made, whose id and time stay.
   */
  lemma FragmentsShareMessage(ms: seq<Message>, first: string, second: string, id1: string, id2: string, t1: int, t2: int)
    ensures WithAiText(WithAiText(ms, first, id1, t1), second, id2, t2) == WithAiText(ms, second, id1, t1)
  {
    var once := WithAiText(ms, first, id1, t1);
    var twice := WithAiText(once, second, id2, t2);
    var direct := WithAiText(ms, second, id1, t1);
    assert |twice| == |direct|;
    forall i | 0 <= i < |twice|
      ensures twice[i] == direct[i]
    {
    }
  }

  // ---------------------------------------------------------------------------
  // The question heuristic

  predicate IsTerminator(c: char) {
    c == '.' || c == '?' || c == '!'
  }

  /** No sentence terminator in `s`. */
  predicate Clean(s: string) {
    forall i :: 0 <= i < |s| ==> !IsTerminator(s[i])
  }

  /** Index of the first terminator, or |s| when there is none. */
  function FirstTerminator(s: string): (k: nat)
    ensures k <= |s| && Clean(s[..k])
    ensures k < |s| ==> IsTerminator(s[k])
  {
    if s == [] || IsTerminator(s[0]) then 0
    else
      var k := 1 + FirstTerminator(s[1..]);
      assert s[..k] == [s[0]] + s[1..][..k - 1];
      k
  }

  /** Length of the run of terminators `s` starts with. */
  function RunLength(s: string): (n: nat)
    ensures n <= |s|
    ensures forall i :: 0 <= i < n ==> IsTerminator(s[i])
    ensures n < |s| ==> !IsTerminator(s[n])
  {
    if s == [] || !IsTerminator(s[0]) then 0 else 1 + RunLength(s[1..])
  }

  /**
   * `s.split(/[.?!]+/)`: the pieces between maximal runs of terminators,
   * with an empty piece before a leading run and after a trailing one.
   * No piece holds a terminator.
   */
  function Split(s: string): (parts: seq<string>)
    ensures |parts| >= 1
    ensures forall i :: 0 <= i < |parts| ==> Clean(parts[i])
    decreases |s|
  {
    var k := FirstTerminator(s);
    if k == |s| then
      assert s[..k] == s;
      [s]
    else
      var run := RunLength(s[k..]);
      [s[..k]] + Split(s[k..][run..])
  }

  /** `s` with every terminator removed. */
  function Strip(s: string): (t: string)
  {
    if s == [] then "" else (if IsTerminator(s[0]) then "" else [s[0]]) + Strip(s[1..])
  }

  function Concat(parts: seq<string>): string
  {
    if parts == [] then "" else parts[0] + Concat(parts[1..])
  }

  lemma {:induction false} StripAppend(a: string, b: string)
    ensures Strip(a + b) == Strip(a) + Strip(b)
  {
    if a == [] {
      assert a + b == b;
    } else {
      assert (a + b)[1..] == a[1..] + b;
      StripAppend(a[1..], b);
    }
  }

  lemma {:induction false} StripClean(s: string)
    requires Clean(s)
    ensures Strip(s) == s
  {
    if s != [] {
      StripClean(s[1..]);
    }
  }

  lemma {:induction false} StripRun(s: string)
    requires forall i :: 0 <= i < |s| ==> IsTerminator(s[i])
    ensures Strip(s) == ""
  {
    if s != [] {
      StripRun(s[1..]);
    }
  }

  lemma ConcatCons(p: string, ps: seq<string>)
    ensures Concat([p] + ps) == p + Concat(ps)
  {
    assert ([p] + ps)[1..] == ps;
  }

  /** Removing the terminators keeps a clean prefix and drops a run of terminators after it. */
  lemma StripAround(prefix: string, terminators: string, tail: string)
    requires Clean(prefix)
    requires forall i :: 0 <= i < |terminators| ==> IsTerminator(terminators[i])
    ensures Strip(prefix + terminators + tail) == prefix + Strip(tail)
  {
    var front := prefix + terminators;
    StripClean(prefix);
    StripRun(terminators);
    StripAppend(prefix, terminators);
    assert Strip(front) == prefix;
    StripAppend(front, tail);
  }

  /** A string is its prefix, then a run, then the rest. */
  lemma ThreeWay(s: string, k: nat, run: nat)
    requires k + run <= |s|
    ensures s == s[..k] + s[k..][..run] + s[k..][run..]
  {
    assert s[k..] == s[k..][..run] + s[k..][run..];
    assert s == s[..k] + s[k..];
  }

  /** The split loses exactly the terminators: joined back, the pieces are `s` without them. */
  lemma {:induction false} SplitJoin(s: string)
    ensures Concat(Split(s)) == Strip(s)
    decreases |s|
  {
    var k := FirstTerminator(s);
    if k == |s| {
      assert s[..k] == s;
      StripClean(s);
      ConcatCons(s, []);
    } else {
      var prefix, run := s[..k], RunLength(s[k..]);
      var terminators, tail := s[k..][..run], s[k..][run..];
      ThreeWay(s, k, run);
      assert Split(s) == [prefix] + Split(tail);
      SplitJoin(tail);
      ConcatCons(prefix, Split(tail));
      StripAround(prefix, terminators, tail);
    }
  }

  /** `sentences[sentences.length - 2] || sentences[0]`. */
  function ChosenSentence(s: string): (c: string)
    ensures '?' !in c
  {
    var parts := Split(s);
    var c := if |parts| >= 2 && parts[|parts| - 2] != "" then parts[|parts| - 2] else parts[0];
    assert Clean(c);
    c
  }

  predicate IsSpace(c: char) {
    c == ' ' || c == '\t' || c == '\n' || c == '\r' || c == '\U{000B}' || c == '\U{000C}' || c == '\U{00A0}' || c == '\U{FEFF}'
  }

  /** `s.trim()`. */
  function Trim(s: string): (t: string)
    ensures |t| <= |s|
    decreases |s|
  {
    if s != [] && IsSpace(s[0]) then Trim(s[1..])
    else if s != [] && IsSpace(s[|s| - 1]) then Trim(s[..|s| - 1])
    else s
  }

  /** The question step of `handleTextResponse`, given the accumulated reply. */
  function QuestionUpdate(st: InterviewState, reply: string): (r: InterviewState)
    ensures r.(currentQuestion := st.currentQuestion) == st
    ensures r.currentQuestion != st.currentQuestion ==> |r.currentQuestion| > 0 && r.currentQuestion[|r.currentQuestion| - 1] == '?'
  {
    var sentence := ChosenSentence(reply);
    if sentence != "" && '?' in sentence then st.(currentQuestion := Trim(sentence) + "?") else st
  }

  /**
   * The chosen sentence comes out of a split on '?', so it never holds one:
   * the current question is never set, whatever the reply.
   */
  lemma QuestionNeverSet(st: InterviewState, reply: string)
    ensures QuestionUpdate(st, reply) == st
  {
  }

  // ---------------------------------------------------------------------------
  // The elapsed-time clock

  /** `Math.floor((now - start) / 1000)`. */
  function ElapsedSeconds(startMs: int, nowMs: int): (diff: int)
    ensures startMs <= nowMs ==> 0 <= diff && diff * 1000 <= nowMs - startMs < (diff + 1) * 1000
  {
    (nowMs - startMs) / 1000
  }

  /** JavaScript's `%` on integers: the remainder takes the dividend's sign. */
  function JsRem(a: int, b: int): (r: int)
    requires b > 0
    ensures a >= 0 ==> r == a % b
    ensures a < 0 ==> -b < r <= 0
  {
    if a >= 0 then a % b else -((-a) % b)
  }

  /** `s.padStart(2, '0')`. */
  function PadStart2(s: string): (t: string)
    ensures |t| == if |s| >= 2 then |s| else 2
    ensures |s| >= 2 ==> t == s
    ensures |s| == 1 ==> t == "0" + s
  {
    if |s| >= 2 then s else if |s| == 1 then "0" + s else "00"
  }

  /** The `mm:ss` text for `diff` seconds. */
  function Clock(diff: int): string
  {
    PadStart2(Decimal.IntToString(diff / 60)) + ":" + PadStart2(Decimal.IntToString(JsRem(diff, 60)))
  }

  lemma NatToStringBelowHundred(n: nat)
    requires n < 100
    ensures |Decimal.NatToString(n)| <= 2
  {
    if n >= 10 {
      assert Decimal.NatToString(n) == Decimal.NatToString(n / 10) + [Decimal.DigitChar(n % 10)];
    }
  }

  /** A padded numeral reads back as the number. */
  lemma PaddedReadsBack(n: nat)
    ensures Decimal.ParseNat(PadStart2(Decimal.NatToString(n))) == Some(n)
  {
    var s := Decimal.NatToString(n);
    Decimal.ParseNatToString(n);
    if |s| == 1 {
      Decimal.DigitsValueLeadingZero(s);
      assert forall i :: 0 <= i < |"0" + s| ==> Decimal.IsDigit(("0" + s)[i]);
    }
  }

  /**
   * For a non-negative count the clock reads `minutes:seconds` with seconds
   * exactly two digits below 60, and minutes * 60 + seconds is the count.
   */
  lemma ClockFields(diff: nat)
    ensures var c := Clock(diff);
      && |c| >= 5 && c[|c| - 3] == ':'
      && Decimal.ParseNat(c[|c| - 2..]).Some? && Decimal.ParseNat(c[|c| - 2..]).value < 60
      && Decimal.ParseNat(c[..|c| - 3]).Some?
      && Decimal.ParseNat(c[..|c| - 3]).value * 60 + Decimal.ParseNat(c[|c| - 2..]).value == diff
  {
    var minutes := PadStart2(Decimal.NatToString(diff / 60));
    var seconds := PadStart2(Decimal.NatToString(diff % 60));
    NatToStringBelowHundred(diff % 60);
    PaddedReadsBack(diff / 60);
    PaddedReadsBack(diff % 60);
    ClockOfCount(diff);
    var c := minutes + ":" + seconds;
    assert |seconds| == 2;
    assert c[|c| - 2..] == seconds;
    assert c[..|c| - 3] == minutes;
  }

  /** For a non-negative count both fields are plain numerals, padded. */
  lemma ClockOfCount(diff: nat)
    ensures Clock(diff) == PadStart2(Decimal.NatToString(diff / 60)) + ":" + PadStart2(Decimal.NatToString(diff % 60))
  {
  }

  // ---------------------------------------------------------------------------
  // The component

  class InterviewSession {
    var state: InterviewState
    var messages: seq<Message>
    /** `sessionStartTime`, in milliseconds. */
    var sessionStart: Option<int>
    /** `elapsedTime`, the text of the clock. */
    var elapsed: string
    /** `sessionIdRef`. */
    var sessionId: string
    /** `currentAIMessageRef`: the reply accumulated so far. */
    var currentAIMessage: string
    /** `serviceRef`. */
    var service: Option<LiveService.LiveInterviewService>
    /** Whether the 500 ms speaking timeout is pending. */
    var speakingTimer: bool

    /** The transcript holds only AI messages, the session id has the identifier layout, and the client is consistent. */
    ghost predicate Valid()
      reads this, if service.Some? then {service.value} else {}
    {
      && AllAi(messages)
      && AudioUtils.IsUuid(sessionId)
      && (service.Some? ==> service.value.Valid())
    }

    /** The first render; `rs` are the draws of the session id. */
    constructor(rs: seq<AudioUtils.Nibble>)
      requires |rs| == 31
      ensures Valid()
      ensures state == Initial && messages == [] && sessionStart.None? && elapsed == "00:00"
      ensures sessionId == AudioUtils.GenerateUuid(rs) && currentAIMessage == "" && service.None? && !speakingTimer
    {
      state := Initial;
      messages := [];
      sessionStart := None;
      elapsed := "00:00";
      sessionId := AudioUtils.GenerateUuid(rs);
      currentAIMessage := "";
      service := None;
      speakingTimer := false;
      AudioUtils.UuidLayout(rs);
    }

    /** `handleConnect` at time `nowMs`. */
    method HandleConnect(nowMs: int)
      requires Valid()
      modifies this
      ensures Valid()
      ensures state == Connected(old(state)) && sessionStart == Some(nowMs)
      ensures messages == old(messages) && currentAIMessage == old(currentAIMessage) && service == old(service)
      ensures sessionId == old(sessionId) && elapsed == old(elapsed) && speakingTimer == old(speakingTimer)
    {
      state := Connected(state);
      sessionStart := Some(nowMs);
    }

    /** `handleDisconnect`. */
    method HandleDisconnect()
      requires Valid()
      modifies this
      ensures Valid()
      ensures state == Disconnected(old(state))
      ensures messages == old(messages) && currentAIMessage == old(currentAIMessage) && service == old(service)
      ensures sessionId == old(sessionId) && sessionStart == old(sessionStart) && elapsed == old(elapsed)
      ensures speakingTimer == old(speakingTimer)
    {
      state := Disconnected(state);
    }

    /** `handleAudioData`: the AI is speaking, and the speaking timeout restarts. */
    method HandleAudioData()
      requires Valid()
      modifies this
      ensures Valid()
      ensures state == Speaking(old(state), true) && speakingTimer
      ensures messages == old(messages) && currentAIMessage == old(currentAIMessage) && service == old(service)
      ensures sessionId == old(sessionId) && sessionStart == old(sessionStart) && elapsed == old(elapsed)
    {
      state := Speaking(state, true);
      speakingTimer := true;
    }

    /** The speaking timeout fires: the AI is no longer shown as speaking. */
    method SpeakingTimeout()
      requires Valid() && speakingTimer
      modifies this
      ensures Valid()
      ensures state == Speaking(old(state), false) && !speakingTimer
      ensures messages == old(messages) && currentAIMessage == old(currentAIMessage) && service == old(service)
      ensures sessionId == old(sessionId) && sessionStart == old(sessionStart) && elapsed == old(elapsed)
    {
      state := Speaking(state, false);
      speakingTimer := false;
    }

    /**
     * `handleTextResponse(text)` at time `nowMs`, with `rs` the draws of the
     * id a new message would take: the fragment extends the reply, the
     * reply becomes the last AI message, and the question stays.
     */
    method HandleTextResponse(text: string, rs: seq<AudioUtils.Nibble>, nowMs: int)
      requires Valid() && |rs| == 31
      modifies this
      ensures Valid()
      ensures currentAIMessage == old(currentAIMessage) + text
      ensures messages == WithAiText(old(messages), currentAIMessage, AudioUtils.GenerateUuid(rs), nowMs)
      ensures state == old(state)
      ensures service == old(service) && sessionId == old(sessionId) && sessionStart == old(sessionStart)
      ensures elapsed == old(elapsed) && speakingTimer == old(speakingTimer)
    {
      currentAIMessage := currentAIMessage + text;
      messages := WithAiText(messages, currentAIMessage, AudioUtils.GenerateUuid(rs), nowMs);
      QuestionNeverSet(state, currentAIMessage);
      state := QuestionUpdate(state, currentAIMessage);
    }

    /** `handleError`. */
    method HandleError(message: string)
      requires Valid()
      modifies this
      ensures Valid()
      ensures state == Errored(old(state), message)
      ensures messages == old(messages) && currentAIMessage == old(currentAIMessage) && service == old(service)
      ensures sessionId == old(sessionId) && sessionStart == old(sessionStart) && elapsed == old(elapsed)
      ensures speakingTimer == old(speakingTimer)
    {
      state := Errored(state, message);
    }

    /**
     * `handleInterrupted`: the reply is dropped and the AI stops speaking;
     * the transcript keeps the interrupted message, whose content the next
     * fragment replaces.
     */
    method HandleInterrupted()
      requires Valid()
      modifies this
      ensures Valid()
      ensures currentAIMessage == "" && state == Speaking(old(state), false)
      ensures messages == old(messages) && service == old(service) && sessionId == old(sessionId)
      ensures sessionStart == old(sessionStart) && elapsed == old(elapsed) && speakingTimer == old(speakingTimer)
    {
      currentAIMessage := "";
      state := Speaking(state, false);
    }

    /** A callback of the realtime client, routed to its handler. */
    method Deliver(e: LiveService.Event, rs: seq<AudioUtils.Nibble>, nowMs: int)
      requires Valid() && |rs| == 31
      modifies this
      ensures Valid()
      ensures e.Connected? ==> state == Connected(old(state)) && sessionStart == Some(nowMs)
      ensures e.Disconnected? ==> state == Disconnected(old(state))
      ensures e.AudioData? ==> state == Speaking(old(state), true) && speakingTimer
      ensures e.TextResponse? ==>
        currentAIMessage == old(currentAIMessage) + e.text &&
        messages == WithAiText(old(messages), currentAIMessage, AudioUtils.GenerateUuid(rs), nowMs) &&
        state == old(state)
      ensures e.Failed? ==> state == Errored(old(state), e.message)
      ensures e.Interrupted? ==> currentAIMessage == "" && state == Speaking(old(state), false)
      ensures !e.TextResponse? ==> messages == old(messages)
      ensures !e.TextResponse? && !e.Interrupted? ==> currentAIMessage == old(currentAIMessage)
      ensures sessionStart == if e.Connected? then Some(nowMs) else old(sessionStart)
      ensures speakingTimer == (e.AudioData? || old(speakingTimer))
      ensures service == old(service) && sessionId == old(sessionId) && elapsed == old(elapsed)
    {
      match e {
        case Connected => HandleConnect(nowMs);
        case Disconnected => HandleDisconnect();
        case AudioData(_) => HandleAudioData();
        case TextResponse(text) => HandleTextResponse(text, rs, nowMs);
        case Failed(message) => HandleError(message);
        case Interrupted => HandleInterrupted();
      }
    }

    /** One tick of the one-second timer, which runs while the session is active and has a start time. */
    method Tick(nowMs: int)
      requires Valid()
      modifies this
      ensures Valid()
      ensures state.status == Active && sessionStart.Some? ==> elapsed == Clock(ElapsedSeconds(sessionStart.value, nowMs))
      ensures !(state.status == Active && sessionStart.Some?) ==> elapsed == old(elapsed)
      ensures state == old(state) && messages == old(messages) && currentAIMessage == old(currentAIMessage)
      ensures service == old(service) && sessionId == old(sessionId) && sessionStart == old(sessionStart)
      ensures speakingTimer == old(speakingTimer)
    {
      if state.status == Active && sessionStart.Some? {
        elapsed := Clock(ElapsedSeconds(sessionStart.value, nowMs));
      }
    }

    /** `toggleMute`. */
    method ToggleMuteButton()
      requires Valid()
      modifies this
      ensures Valid()
      ensures state == ToggleMute(old(state))
      ensures messages == old(messages) && currentAIMessage == old(currentAIMessage) && service == old(service)
      ensures sessionId == old(sessionId) && sessionStart == old(sessionStart) && elapsed == old(elapsed)
      ensures speakingTimer == old(speakingTimer)
    {
      state := ToggleMute(state);
    }

    /** `toggleCamera`. */
    method ToggleCameraButton()
      requires Valid()
      modifies this
      ensures Valid()
      ensures state == ToggleCamera(old(state))
      ensures messages == old(messages) && currentAIMessage == old(currentAIMessage) && service == old(service)
      ensures sessionId == old(sessionId) && sessionStart == old(sessionStart) && elapsed == old(elapsed)
      ensures speakingTimer == old(speakingTimer)
    {
      state := ToggleCamera(state);
    }

    /**
     * `startInterview`, where `micGranted` says whether the browser grants
     * the microphone. A service is made and connected with the page's
     * callbacks, and the microphone started; a throw from either sends the
     * page back to idle with the error's name as its message, leaving the
     * service in place.
     */
    method StartInterview(apiKey: string, micGranted: bool)
      requires Valid()
      modifies this
      ensures Valid()
      ensures apiKey == "" ==> state == StartRequested(old(state), apiKey) && service == old(service)
      ensures apiKey != "" ==> service.Some? && fresh(service.value) && service.value.apiKey == apiKey
      ensures apiKey != "" && !LiveService.IsToken(LiveService.KeyProtocolPrefix + apiKey) ==>
        state == StartFailed(StartRequested(old(state), apiKey), Some("SyntaxError"))
      ensures apiKey != "" && LiveService.IsToken(LiveService.KeyProtocolPrefix + apiKey) && !micGranted ==>
        state == StartFailed(StartRequested(old(state), apiKey), Some("NotAllowedError"))
      ensures apiKey != "" && LiveService.IsToken(LiveService.KeyProtocolPrefix + apiKey) && micGranted ==>
        state == StartRequested(old(state), apiKey)
      // The client made: callbacks stored, nothing sent or reported yet.
      ensures apiKey != "" ==> service.value.hasCallbacks && service.value.sent == [] && service.value.events == []
      ensures apiKey != "" && !LiveService.IsToken(LiveService.KeyProtocolPrefix + apiKey) ==>
        var c := service.value;
        c.ws.None? && c.playbackContext.None? &&
        c.mediaStream.None? && c.audioContext.None? && c.sourceNode.None? && c.scriptProcessor.None?
      ensures apiKey != "" && LiveService.IsToken(LiveService.KeyProtocolPrefix + apiKey) ==>
        var c := service.value;
        c.ws.Some? && c.ws.value.state == LiveService.Connecting && c.playbackContext.Some?
      ensures apiKey != "" && LiveService.IsToken(LiveService.KeyProtocolPrefix + apiKey) && micGranted ==>
        var c := service.value;
        c.mediaStream.Some? && c.audioContext.Some? && c.sourceNode.Some? && c.scriptProcessor.Some?
      ensures apiKey != "" && LiveService.IsToken(LiveService.KeyProtocolPrefix + apiKey) && !micGranted ==>
        var c := service.value;
        c.mediaStream.None? && c.audioContext.None? && c.sourceNode.None? && c.scriptProcessor.None?
      ensures messages == old(messages) && currentAIMessage == old(currentAIMessage) && sessionId == old(sessionId)
      ensures sessionStart == old(sessionStart) && elapsed == old(elapsed) && speakingTimer == old(speakingTimer)
    {
      state := StartRequested(state, apiKey);
      if apiKey == "" {
        return;
      }
      var created := LiveService.LiveInterviewService.Create(apiKey);
      var svc := created.value;
      service := Some(svc);
      var connected := svc.Connect();
      if connected.Fail? {
        state := StartFailed(state, Some(connected.error));
        return;
      }
      var mic := svc.StartMicrophone(micGranted);
      if mic.Fail? {
        state := StartFailed(state, Some(mic.error));
      }
    }

    /**
     * `endInterview`: the service, if any, is disconnected and dropped and
     * the page shows the interview ended. The transcript download is not
     * part of this model.
     */
    method EndInterview()
      requires Valid()
      modifies this, if service.Some? then {service.value} else {}
      ensures Valid()
      ensures service.None? && state == Finished(old(state))
      ensures old(service).Some? ==>
        var s := old(service).value;
        s.ws.None? && s.playbackContext.None? && s.audioContext.None? && s.mediaStream.None? &&
        s.scriptProcessor.None? && s.sourceNode.None? && s.audioQueue == [] && !s.isPlaying && !s.isConnected
      ensures messages == old(messages) && currentAIMessage == old(currentAIMessage) && sessionId == old(sessionId)
      ensures sessionStart == old(sessionStart) && elapsed == old(elapsed) && speakingTimer == old(speakingTimer)
    {
      if service.Some? {
        service.value.Disconnect();
        service := None;
      }
      state := Finished(state);
    }

    /**
     * "Restart Session": the page, the transcript and the reply start over
     * under a new session id. The start time and the clock text are kept.
     */
    method Restart(rs: seq<AudioUtils.Nibble>)
      requires Valid() && |rs| == 31
      modifies this
      ensures Valid()
      ensures state == Initial && messages == [] && currentAIMessage == ""
      ensures sessionId == AudioUtils.GenerateUuid(rs)
      ensures service == old(service) && sessionStart == old(sessionStart) && elapsed == old(elapsed)
      ensures speakingTimer == old(speakingTimer)
    {
      state := Initial;
      messages := [];
      sessionId := AudioUtils.GenerateUuid(rs);
      currentAIMessage := "";
      AudioUtils.UuidLayout(rs);
    }
  }

  /**
   * After an interruption the next fragment replaces the interrupted
   * message's content instead of extending it, and no message is added.
   */
  method FragmentAfterInterruption(page: InterviewSession, text: string, rs: seq<AudioUtils.Nibble>, nowMs: int)
    requires page.Valid() && |rs| == 31 && EndsWithAi(page.messages)
    modifies page
    ensures page.Valid()
    ensures |page.messages| == old(|page.messages|)
    ensures page.messages[|page.messages| - 1].content == text
  {
    page.HandleInterrupted();
    page.HandleTextResponse(text, rs, nowMs);
  }
}
