/**
  src/components/VoiceInterviewScreen.tsx: the session and conversation state
  machine of the voice-interview screen.

  The pure part is the conversation history: how agent data messages and the
  live transcript extend it, and which entry the question panel shows. The
  imperative part is class `Screen`, one method per handler or effect. Each
  call into code outside this model (the backend, the media room, speech
  recognition) is either a method of a stand-in object from `Environment` or
  an input that says how the awaited call ended. A `setTimeout` callback is a
  pending flag, set where the source schedules it and cleared by the method
  that stands for its firing.
 */
module InterviewScreen {
  import opened Strings
  import opened Types
  import opened SessionState
  import opened Environment
  import opened Audio

  // ---------------------------------------------------------------------
  // Data messages
  // ---------------------------------------------------------------------

  /** A message on the room's data channel; a missing `type` or `text` is "". */
  datatype DataMessage = DataMessage(kind: string, text: string)

  /** The `messageTypes` table: only question, greeting and feedback have a handler. */
  function MessageType(kind: string): (r: Option<ConversationType>)
    ensures r.Some? ==> ConversationTypeName(r.value) == kind && r.value != Speaking
  {
    if kind == "question" then Some(Question)
    else if kind == "greeting" then Some(Greeting)
    else if kind == "feedback" then Some(Feedback)
    else None
  }

  lemma MessageTypeIff(kind: string)
    ensures MessageType(kind).Some? <==> kind == "question" || kind == "greeting" || kind == "feedback"
  {
  }

  /** The handler a message runs: both fields must be truthy and the type must be in the table. */
  function HandledKind(m: DataMessage): (r: Option<ConversationType>)
    ensures r.Some? <==> m.text != "" && MessageType(m.kind).Some?
    ensures r.Some? ==> ConversationTypeName(r.value) == m.kind
  {
    if m.kind != "" && m.text != "" then MessageType(m.kind) else None
  }

  /** Question and greeting messages also replace the current question; feedback does not. */
  predicate SetsQuestion(kind: ConversationType) {
    kind == Question || kind == Greeting
  }

  // ---------------------------------------------------------------------
  // Transcript coalescing
  // ---------------------------------------------------------------------

  predicate IsUserSpeech(e: ConversationEntry) {
    e.speaker == User && e.kind == Speaking
  }

  function Last<T>(s: seq<T>): T
    requires |s| > 0
  {
    s[|s| - 1]
  }

  /**
    One run of the transcript effect on the history: a transcript that is
    blank after trimming changes nothing; otherwise it extends the trailing
    user-speech entry, or starts one.
   */
  function ApplyTranscript(h: seq<ConversationEntry>, transcript: string, now: int): (r: seq<ConversationEntry>)
    ensures Trim(transcript) == [] ==> r == h
    ensures |h| <= |r| <= |h| + 1
    ensures forall i :: 0 <= i < |h| - 1 ==> r[i] == h[i]
    ensures |r| == |h| + 1 ==> r[..|h|] == h
    ensures |r| == |h| && |h| > 0 ==> r[..|h| - 1] == h[..|h| - 1]
    ensures Trim(transcript) != [] ==> |r| > 0 && Last(r) == ConversationEntry(User, transcript, now, Speaking)
    ensures |r| == |h| + 1 <==> Trim(transcript) != [] && (|h| == 0 || !IsUserSpeech(Last(h)))
  {
    if |Trim(transcript)| == 0 then h
    else if |h| == 0 || !IsUserSpeech(Last(h)) then h + [ConversationEntry(User, transcript, now, Speaking)]
    else h[..|h| - 1] + [ConversationEntry(User, transcript, now, Speaking)]
  }

  /** A later transcript overwrites an earlier one: two runs in a row are one run of the later. */
  lemma TranscriptsCoalesce(h: seq<ConversationEntry>, t1: string, t2: string, n1: int, n2: int)
    requires Trim(t1) != [] && Trim(t2) != []
    ensures ApplyTranscript(ApplyTranscript(h, t1, n1), t2, n2) == ApplyTranscript(h, t2, n2)
  {
    var h1 := ApplyTranscript(h, t1, n1);
    assert IsUserSpeech(Last(h1));
    if |h| == 0 || !IsUserSpeech(Last(h)) {
      assert h1[..|h1| - 1] == h;
    } else {
      assert h1[..|h1| - 1] == h[..|h| - 1];
    }
  }

  /** The transcript effect run once per transcript in `ts`, in order. */
  function ApplyTranscripts(h: seq<ConversationEntry>, ts: seq<string>, now: int): seq<ConversationEntry>
    decreases |ts|
  {
    if ts == [] then h else ApplyTranscripts(ApplyTranscript(h, ts[0], now), ts[1..], now)
  }

  /**
    However many contentful transcripts arrive in a row, the history gains at
    most one entry, and it holds the last of them.
   */
  lemma {:induction false} TranscriptRunIsOneEntry(h: seq<ConversationEntry>, ts: seq<string>, now: int)
    requires |ts| > 0 && forall i :: 0 <= i < |ts| ==> Trim(ts[i]) != []
    ensures ApplyTranscripts(h, ts, now) == ApplyTranscript(h, Last(ts), now)
    decreases |ts|
  {
    if |ts| > 1 {
      var h1 := ApplyTranscript(h, ts[0], now);
      TranscriptRunIsOneEntry(h1, ts[1..], now);
      assert Last(ts[1..]) == Last(ts);
      TranscriptsCoalesce(h, ts[0], Last(ts), now, now);
    }
  }

  // ---------------------------------------------------------------------
  // The question panel
  // ---------------------------------------------------------------------

  function Reverse<T>(s: seq<T>): (r: seq<T>)
    ensures |r| == |s| && forall i :: 0 <= i < |s| ==> r[i] == s[|s| - 1 - i]
    decreases |s|
  {
    if s == [] then [] else [Last(s)] + Reverse(s[..|s| - 1])
  }

  /** `find(entry => entry.speaker === 'ai')`: the index of the first AI entry. */
  function FindAI(s: seq<ConversationEntry>): (r: Option<nat>)
    ensures r.Some? ==> r.value < |s| && s[r.value].speaker == AI
    ensures r.Some? ==> forall j :: 0 <= j < r.value ==> s[j].speaker != AI
    ensures r.None? <==> forall j :: 0 <= j < |s| ==> s[j].speaker != AI
    decreases |s|
  {
    if s == [] then None
    else if s[0].speaker == AI then Some(0)
    else match FindAI(s[1..])
      case None => None
      case Some(i) => Some(i + 1)
  }

  /** `[...conversationHistory].reverse().find(entry => entry.speaker === 'ai')`. */
  function LastAIEntry(h: seq<ConversationEntry>): (r: Option<ConversationEntry>)
    ensures r.Some? ==> r.value in h && r.value.speaker == AI
  {
    match FindAI(Reverse(h))
    case None => None
    case Some(i) => Some(Reverse(h)[i])
  }

  /** The lookup finds the AI entry with no AI entry after it, and nothing when there is no AI entry. */
  lemma LastAIEntryIsLatest(h: seq<ConversationEntry>)
    ensures LastAIEntry(h).None? <==> forall i :: 0 <= i < |h| ==> h[i].speaker != AI
    ensures LastAIEntry(h).Some? ==>
      (exists i :: 0 <= i < |h| && h[i] == LastAIEntry(h).value && h[i].speaker == AI &&
        (forall j :: i < j < |h| ==> h[j].speaker != AI))
  {
    var r := Reverse(h);
    if FindAI(r).None? {
      forall i | 0 <= i < |h|
        ensures h[i].speaker != AI
      {
        assert r[|h| - 1 - i] == h[i];
      }
    } else {
      var k := FindAI(r).value;
      var i := |h| - 1 - k;
      assert h[i] == r[k];
      forall j | i < j < |h|
        ensures h[j].speaker != AI
      {
        assert r[|h| - 1 - j] == h[j];
      }
    }
  }

  /** Appending an entry: an AI entry becomes the one shown, any other leaves the lookup as it was. */
  lemma LastAIEntryAppend(h: seq<ConversationEntry>, e: ConversationEntry)
    ensures LastAIEntry(h + [e]) == if e.speaker == AI then Some(e) else LastAIEntry(h)
  {
    var r, r' := Reverse(h), Reverse(h + [e]);
    assert r'[0] == e;
    if e.speaker != AI {
      assert r'[1..] == r;
      assert FindAI(r') == match FindAI(r) case None => None case Some(i) => Some(i + 1);
    }
  }

  /** User speech never displaces the interviewer's message in the panel. */
  lemma LastAIEntryIgnoresTranscript(h: seq<ConversationEntry>, t: string, now: int)
    ensures LastAIEntry(ApplyTranscript(h, t, now)) == LastAIEntry(h)
  {
    var e := ConversationEntry(User, t, now, Speaking);
    if Trim(t) != [] {
      if |h| == 0 || !IsUserSpeech(Last(h)) {
        LastAIEntryAppend(h, e);
      } else {
        var p := h[..|h| - 1];
        assert h == p + [Last(h)];
        LastAIEntryAppend(p, Last(h));
        LastAIEntryAppend(p, e);
      }
    }
  }

  /** What the current-question panel of `renderCurrentQuestion` shows. */
  datatype QuestionPanel =
    | AIMessage(entry: ConversationEntry)
    | PendingQuestion(text: string)
    | StartPrompt
    | WaitingForInterviewer

  function CurrentQuestionPanel(h: seq<ConversationEntry>, currentQuestion: string, active: bool): (p: QuestionPanel)
    ensures p.AIMessage? <==> LastAIEntry(h).Some?
    ensures p.AIMessage? ==> p.entry == LastAIEntry(h).value
    ensures p.PendingQuestion? <==> LastAIEntry(h).None? && Trim(currentQuestion) != []
    ensures p.PendingQuestion? ==> p.text == currentQuestion
    ensures p.StartPrompt? <==> LastAIEntry(h).None? && Trim(currentQuestion) == [] && !active
  {
    match LastAIEntry(h)
    case Some(e) => AIMessage(e)
    case None =>
      if |Trim(currentQuestion)| > 0 then PendingQuestion(currentQuestion)
      else if !active then StartPrompt
      else WaitingForInterviewer
  }

  /** A handled data message is what the panel shows next. */
  lemma DataMessageIsShown(h: seq<ConversationEntry>, q: string, active: bool, m: DataMessage, now: int)
    requires HandledKind(m).Some?
    ensures CurrentQuestionPanel(h + [ConversationEntry(AI, m.text, now, HandledKind(m).value)], q, active) ==
      AIMessage(ConversationEntry(AI, m.text, now, HandledKind(m).value))
  {
    LastAIEntryAppend(h, ConversationEntry(AI, m.text, now, HandledKind(m).value));
  }

  // ---------------------------------------------------------------------
  // Connection status and start outcomes
  // ---------------------------------------------------------------------

  /** `livekitProps` is non-null exactly when a session with a truthy participant token is stored. */
  predicate HasLiveKitProps(session: Option<VoiceSession>) {
    session.Some? && session.value.participantToken != ""
  }

  /**
    The status the connection-status effect writes, by priority: connecting,
    then connected, then error, then disconnected when a session exists;
    `None` leaves the status as it is.
   */
  function ReportedStatus(connecting: bool, connected: bool, failed: bool, hasSession: bool): (r: Option<ConnectionStatus>)
    ensures r == Some(Connecting) <==> connecting
    ensures r == Some(Connected) <==> !connecting && connected
    ensures r == Some(Error) <==> !connecting && !connected && failed
    ensures r == Some(Disconnected) <==> !connecting && !connected && !failed && hasSession
  {
    if connecting then Some(Connecting)
    else if connected then Some(Connected)
    else if failed then Some(Error)
    else if hasSession then Some(Disconnected)
    else None
  }

  /** With LiveKit props a session is stored, so the effect always writes a status. */
  lemma PropsAlwaysReport(session: Option<VoiceSession>, connecting: bool, connected: bool, failed: bool)
    requires HasLiveKitProps(session)
    ensures ReportedStatus(connecting, connected, failed, session.Some?).Some?
  {
  }

  /** How the awaited `VoiceInterviewService.startVoiceInterview` call ended. */
  datatype StartReply = Rejected(failure: Failure) | Returned(session: Option<VoiceSession>)

  const UNKNOWN_START_ERROR := "Unknown error occurred"
  const UNKNOWN_CONNECT_ERROR := "Unknown error"
  const NO_SESSION := "No session received from backend"
  const NO_TOKEN := "No participant token received from backend"
  const START_FAILED := "Failed to start voice interview: "
  const CONNECT_FAILED := "Failed to connect to voice interview: "
  const TEST_MESSAGE := "This is a test of the audio system. If you can hear this, the audio is working correctly."

  datatype StartResult = Stored(session: VoiceSession) | Failed(message: string)

  /**
    Where the `try` block of `startVoiceInterview` ends: with a stored
    session, or in the `catch` with the message the alert shows.
   */
  function StartResultOf(resume: Resume, reply: StartReply): (r: StartResult)
    ensures r.Stored? ==> !resume.ResumeFailed? && reply == Returned(Some(r.session)) && r.session.participantToken != ""
    ensures !resume.ResumeFailed? && reply.Returned? && reply.session.Some? && reply.session.value.participantToken != ""
      ==> r == Stored(reply.session.value)
    ensures resume.ResumeFailed? ==> r == Failed(FailureText(resume.failure, UNKNOWN_START_ERROR))
    ensures !resume.ResumeFailed? && reply.Rejected? ==> r == Failed(FailureText(reply.failure, UNKNOWN_START_ERROR))
    ensures reply == Returned(None) && !resume.ResumeFailed? ==> r == Failed(NO_SESSION)
    ensures (reply.Returned? && reply.session.Some? && reply.session.value.participantToken == "" && !resume.ResumeFailed?)
      ==> r == Failed(NO_TOKEN)
  {
    if resume.ResumeFailed? then Failed(FailureText(resume.failure, UNKNOWN_START_ERROR))
    else match reply
      case Rejected(f) => Failed(FailureText(f, UNKNOWN_START_ERROR))
      case Returned(None) => Failed(NO_SESSION)
      case Returned(Some(s)) => if s.participantToken == "" then Failed(NO_TOKEN) else Stored(s)
  }

  /**
    The calls the start handler makes: the backend request, unless the
    `resume()` before it threw, then one alert if the start failed.
   */
  function StartCalls(participant: string, provider: Provider, resume: Resume, reply: StartReply): seq<Call>
  {
    (if resume.ResumeFailed? then [] else [StartSession(participant, true, provider)]) +
    (if StartResultOf(resume, reply).Failed? then [Alert(START_FAILED + StartResultOf(resume, reply).message)] else [])
  }

  /** A stored session always carries LiveKit props. */
  lemma StoredSessionHasProps(resume: Resume, reply: StartReply)
    requires StartResultOf(resume, reply).Stored?
    ensures HasLiveKitProps(Some(StartResultOf(resume, reply).session))
  {
  }

  // ---------------------------------------------------------------------
  // The screen
  // ---------------------------------------------------------------------

  class Screen {
    const st: InterviewState
    const rec: SpeechRecognizer
    const out: Outside
    /** The connect `setTimeout` of the connect-once effect is scheduled and has not fired. */
    var connectPending: bool
    /** The listening-start `setTimeout` scheduled after a connect is waiting to fire. */
    var listenStartPending: bool
    /** Room connects made for sessions stored before the current one. */
    ghost var earlierConnects: nat

    /**
      The session invariant: a stored session has a token; `livekitReady`
      only with a session; a pending connect only while the starting modal is
      up; the modal is up exactly while a connect is pending or about to be
      scheduled; and the current session has been connected at most once.
     */
    ghost predicate Valid()
      reads this, st, out
    {
      && (st.voiceSession.Some? ==> st.voiceSession.value.participantToken != "")
      && (st.livekitReady ==> st.voiceSession.Some?)
      && (connectPending ==> st.livekitReady && st.isThinking)
      && (st.isThinking ==> connectPending || (st.voiceSession.Some? && !st.livekitReady))
      && (st.voiceSession.Some? && !st.livekitReady ==> st.isThinking)
      && Count(out.calls, ConnectRoom) == earlierConnects + (if st.livekitReady && !connectPending then 1 else 0)
    }

    /** The screen as mounted: every cell at its initial value, nothing scheduled, nothing called. */
    constructor (clock: nat, speechSupported: bool)
      ensures Valid() && st.Initial() && fresh(st) && fresh(rec) && fresh(out)
      ensures st.participantName == "participant-" + NatToDecimal(clock)
      ensures rec.supported == speechSupported && !rec.listening && rec.calls == [] && out.calls == []
      ensures !connectPending && !listenStartPending
    {
      st := new InterviewState(clock);
      rec := new SpeechRecognizer(speechSupported);
      out := new Outside();
      connectPending := false;
      listenStartPending := false;
      earlierConnects := 0;
    }

    /** Record one call to the outside; only `ConnectRoom` moves the connect count. */
    method Log(c: Call)
      modifies out
      ensures out.calls == old(out.calls) + [c]
      ensures Count(out.calls, ConnectRoom) == old(Count(out.calls, ConnectRoom)) + (if c == ConnectRoom then 1 else 0)
    {
      CountAppend(out.calls, [c], ConnectRoom);
      assert [c][..0] == [];
      out.calls := out.calls + [c];
    }

    /** Record several calls, none of them a room connect. */
    method LogAll(cs: seq<Call>)
      requires ConnectRoom !in cs
      modifies out
      ensures out.calls == old(out.calls) + cs
      ensures Count(out.calls, ConnectRoom) == old(Count(out.calls, ConnectRoom))
    {
      CountAppend(out.calls, cs, ConnectRoom);
      CountAbsent(cs, ConnectRoom);
      out.calls := out.calls + cs;
    }

    /** `handleDataMessage`. */
    method HandleDataMessage(m: DataMessage, now: int)
      modifies st`conversationHistory, st`currentQuestion
      ensures HandledKind(m).Some? ==>
        st.conversationHistory == old(st.conversationHistory) + [ConversationEntry(AI, m.text, now, HandledKind(m).value)]
      ensures HandledKind(m).Some? && SetsQuestion(HandledKind(m).value) ==> st.currentQuestion == m.text
      ensures HandledKind(m).None? || !SetsQuestion(HandledKind(m).value) ==> st.currentQuestion == old(st.currentQuestion)
      ensures HandledKind(m).None? ==> st.conversationHistory == old(st.conversationHistory)
    {
      match HandledKind(m)
      case None =>
      case Some(kind) =>
        if SetsQuestion(kind) {
          st.currentQuestion := m.text;
        }
        st.conversationHistory := st.conversationHistory + [ConversationEntry(AI, m.text, now, kind)];
    }

    /** The `onConnected` callback of the LiveKit props (a no-op without props). */
    method OnRoomConnected()
      modifies st`connectionStatus
      ensures st.connectionStatus == if HasLiveKitProps(st.voiceSession) then Connected else old(st.connectionStatus)
    {
      if HasLiveKitProps(st.voiceSession) {
        st.connectionStatus := Connected;
      }
    }

    method OnRoomDisconnected()
      modifies st`connectionStatus
      ensures st.connectionStatus == if HasLiveKitProps(st.voiceSession) then Disconnected else old(st.connectionStatus)
    {
      if HasLiveKitProps(st.voiceSession) {
        st.connectionStatus := Disconnected;
      }
    }

    method OnRoomError()
      modifies st`connectionStatus
      ensures st.connectionStatus == if HasLiveKitProps(st.voiceSession) then Error else old(st.connectionStatus)
    {
      if HasLiveKitProps(st.voiceSession) {
        st.connectionStatus := Error;
      }
    }

    /** The connection-status effect, given the room hook's `isConnecting`, `isConnected` and `error`. */
    method SyncConnectionStatus(connecting: bool, connected: bool, failed: bool)
      modifies st`connectionStatus
      ensures !HasLiveKitProps(st.voiceSession) ==> st.connectionStatus == old(st.connectionStatus)
      ensures HasLiveKitProps(st.voiceSession) ==>
        Some(st.connectionStatus) == ReportedStatus(connecting, connected, failed, st.voiceSession.Some?)
    {
      if !HasLiveKitProps(st.voiceSession) {
        return;
      }
      match ReportedStatus(connecting, connected, failed, st.voiceSession.Some?)
      case None =>
      case Some(s) => st.connectionStatus := s;
    }

    /**
      The connect-once effect: with a tokened session and `livekitReady`
      false, set `livekitReady` and schedule the connect; otherwise nothing.
     */
    method ConnectEffect()
      modifies st`livekitReady, this`connectPending
      ensures old(Valid()) ==> Valid()
      ensures HasLiveKitProps(st.voiceSession) && !old(st.livekitReady) ==> st.livekitReady && connectPending
      ensures !(HasLiveKitProps(st.voiceSession) && !old(st.livekitReady)) ==>
        st.livekitReady == old(st.livekitReady) && connectPending == old(connectPending)
    {
      if HasLiveKitProps(st.voiceSession) && !st.livekitReady {
        st.livekitReady := true;
        connectPending := true;
      }
    }

    /**
      The connect timer fires, `LIVEKIT_CONNECTION_DELAY` ms after it was
      scheduled: connect, resume a suspended audio context, and go live; any
      failure leaves the interview inactive with an error status and an alert.
     */
    method FireConnect(connect: Outcome, resume: Resume, now: int)
      requires connectPending
      modifies st`isInterviewActive, st`startTime, st`isThinking, st`connectionStatus,
               this`connectPending, this`listenStartPending, out
      ensures old(Valid()) ==> Valid()
      ensures !connectPending && !st.isThinking
      ensures Count(out.calls, ConnectRoom) == old(Count(out.calls, ConnectRoom)) + 1
      ensures connect.Ok? && !resume.ResumeFailed? ==>
        && st.isInterviewActive && st.startTime == Some(now) && listenStartPending
        && st.connectionStatus == old(st.connectionStatus)
        && out.calls == old(out.calls) + [ConnectRoom]
      ensures !(connect.Ok? && !resume.ResumeFailed?) ==>
        && st.isInterviewActive == old(st.isInterviewActive) && st.startTime == old(st.startTime)
        && listenStartPending == old(listenStartPending) && st.connectionStatus == Error
        && out.calls == old(out.calls) + [ConnectRoom] + [Alert(CONNECT_FAILED + FailureText(
             if connect.Fail? then connect.failure else resume.failure, UNKNOWN_CONNECT_ERROR))]
    {
      connectPending := false;
      Log(ConnectRoom);
      if connect.Ok? && !resume.ResumeFailed? {
        st.isInterviewActive := true;
        st.startTime := Some(now);
        st.isThinking := false;
        listenStartPending := true;
      } else {
        var f := if connect.Fail? then connect.failure else resume.failure;
        st.connectionStatus := Error;
        st.isThinking := false;
        Log(Alert(CONNECT_FAILED + FailureText(f, UNKNOWN_CONNECT_ERROR)));
      }
    }

    /**
      The listening-start timer fires, `LISTENING_START_DELAY` ms after a
      connect; `capturedListening` is the `isListening` its closure captured.
     */
    method FireListeningStart(capturedListening: bool)
      requires listenStartPending
      modifies st`userSpeaking, rec, this`listenStartPending
      ensures !listenStartPending
      ensures rec.supported && !capturedListening ==>
        st.userSpeaking && rec.listening && rec.calls == old(rec.calls) + [StartListening]
      ensures !(rec.supported && !capturedListening) ==>
        st.userSpeaking == old(st.userSpeaking) && rec.listening == old(rec.listening) && rec.calls == old(rec.calls)
      ensures rec.transcript == old(rec.transcript)
    {
      listenStartPending := false;
      if rec.supported && !capturedListening {
        rec.Start();
        st.userSpeaking := true;
      }
    }

    /** The transcript effect, run on the current transcript. */
    method TranscriptEffect(now: int)
      modifies st`userSpeaking, st`conversationHistory
      ensures st.conversationHistory == ApplyTranscript(old(st.conversationHistory), rec.transcript, now)
      ensures st.userSpeaking == (old(st.userSpeaking) || Trim(rec.transcript) != [])
    {
      if |Trim(rec.transcript)| > 0 {
        st.userSpeaking := true;
        st.conversationHistory := ApplyTranscript(st.conversationHistory, rec.transcript, now);
      }
    }

    /** The interval of the timer effect fires. */
    method Tick(now: int)
      modifies st`elapsedTime
      ensures st.isInterviewActive && st.startTime.Some? && st.startTime.value != 0 ==>
        st.elapsedTime == now - st.startTime.value
      ensures !(st.isInterviewActive && st.startTime.Some? && st.startTime.value != 0) ==>
        st.elapsedTime == old(st.elapsedTime)
    {
      if st.isInterviewActive && st.startTime.Some? && st.startTime.value != 0 {
        st.elapsedTime := now - st.startTime.value;
      }
    }

    /**
      The part of `startVoiceInterview` up to the stored session: raise the
      starting modal, resume the audio context, ask the backend for a
      session and check it; on any failure lower the modal and alert.
     */
    method RequestSession(resume: Resume, reply: StartReply) returns (r: StartResult)
      requires !st.isThinking
      modifies st`isThinking, st`connectionStatus, st`showEndConfirmation, out
      ensures r == StartResultOf(resume, reply)
      ensures !st.showEndConfirmation
      ensures st.isThinking == r.Stored?
      ensures st.connectionStatus == if r.Stored? then Connecting else Error
      ensures out.calls == old(out.calls + StartCalls(st.participantName, st.selectedProvider, resume, reply))
      ensures r.Failed? ==> |out.calls| > 0 && Last(out.calls) == Alert(START_FAILED + r.message)
      ensures Count(out.calls, ConnectRoom) == old(Count(out.calls, ConnectRoom))
    {
      st.isThinking := true;
      st.connectionStatus := Connecting;
      st.showEndConfirmation := false;
      var asked := if resume.ResumeFailed? then [] else [StartSession(st.participantName, true, st.selectedProvider)];
      r := StartResultOf(resume, reply);
      var alert := if r.Failed? then [Alert(START_FAILED + r.message)] else [];
      if r.Failed? {
        st.connectionStatus := Error;
        st.isThinking := false;
      }
      assert ConnectRoom !in asked && ConnectRoom !in alert;
      assert asked + alert == StartCalls(st.participantName, st.selectedProvider, resume, reply);
      LogAll(asked + alert);
    }

    /**
      `startVoiceInterview` corrected, as the Start button calls it (it is
      shown only while the interview is inactive and is disabled while the
      starting modal is up). The correction: a new session resets
      `livekitReady`, so the connect-once effect connects it. The source does
      not do this; `StartVoiceInterviewAsWritten` is its start as written.
     */
    method StartVoiceInterview(resume: Resume, reply: StartReply)
      requires !st.isThinking && !st.isInterviewActive
      modifies st`isThinking, st`connectionStatus, st`showEndConfirmation, st`voiceSession, st`aiAgentStatus,
               st`conversationHistory, st`currentQuestion, st`livekitReady, out, this`earlierConnects
      ensures old(Valid()) ==> Valid()
      ensures !st.showEndConfirmation
      ensures out.calls == old(out.calls + StartCalls(st.participantName, st.selectedProvider, resume, reply))
      ensures Count(out.calls, ConnectRoom) == old(Count(out.calls, ConnectRoom))
      ensures StartResultOf(resume, reply).Stored? ==>
        && st.voiceSession == Some(StartResultOf(resume, reply).session)
        && st.aiAgentStatus == Some(AIAgentStatus(st.voiceSession.value.aiAgentEnabled,
             st.voiceSession.value.agentProvider, st.voiceSession.value.conversationalMode))
        && st.conversationHistory == [] && st.currentQuestion == ""
        && st.isThinking && st.connectionStatus == Connecting && !st.livekitReady
      ensures StartResultOf(resume, reply).Failed? ==>
        && st.voiceSession == old(st.voiceSession) && st.aiAgentStatus == old(st.aiAgentStatus)
        && st.conversationHistory == old(st.conversationHistory) && st.currentQuestion == old(st.currentQuestion)
        && st.livekitReady == old(st.livekitReady)
        && !st.isThinking && st.connectionStatus == Error
        && |out.calls| > 0 && Last(out.calls) == Alert(START_FAILED + StartResultOf(resume, reply).message)
    {
      var r := RequestSession(resume, reply);
      if r.Stored? {
        BeginSession(r.session);
      }
    }

    /**
      The success tail of the corrected start: store the session as the
      source does, and also reset `livekitReady` so the new session's connect
      is scheduled; the connects so far belong to earlier sessions.
     */
    method BeginSession(s: VoiceSession)
      modifies st`voiceSession, st`aiAgentStatus, st`conversationHistory, st`currentQuestion, st`livekitReady,
               this`earlierConnects
      ensures st.voiceSession == Some(s) && !st.livekitReady
      ensures st.aiAgentStatus == Some(AIAgentStatus(s.aiAgentEnabled, s.agentProvider, s.conversationalMode))
      ensures st.conversationHistory == [] && st.currentQuestion == ""
      ensures earlierConnects == Count(out.calls, ConnectRoom)
    {
      StoreSession(s);
      st.livekitReady := false;
      earlierConnects := Count(out.calls, ConnectRoom);
    }

    /** `startVoiceInterview` exactly as the source has it: `livekitReady` is left as it was. */
    method StartVoiceInterviewAsWritten(resume: Resume, reply: StartReply)
      requires !st.isThinking && !st.isInterviewActive
      modifies st`isThinking, st`connectionStatus, st`showEndConfirmation, st`voiceSession, st`aiAgentStatus,
               st`conversationHistory, st`currentQuestion, out
      ensures st.livekitReady == old(st.livekitReady)
      ensures !st.showEndConfirmation
      ensures out.calls == old(out.calls + StartCalls(st.participantName, st.selectedProvider, resume, reply))
      ensures Count(out.calls, ConnectRoom) == old(Count(out.calls, ConnectRoom))
      ensures StartResultOf(resume, reply).Stored? ==>
        && st.voiceSession == Some(StartResultOf(resume, reply).session)
        && st.aiAgentStatus == Some(AIAgentStatus(st.voiceSession.value.aiAgentEnabled,
             st.voiceSession.value.agentProvider, st.voiceSession.value.conversationalMode))
        && st.conversationHistory == [] && st.currentQuestion == ""
        && st.isThinking && st.connectionStatus == Connecting
      ensures StartResultOf(resume, reply).Failed? ==>
        && st.voiceSession == old(st.voiceSession) && st.aiAgentStatus == old(st.aiAgentStatus)
        && st.conversationHistory == old(st.conversationHistory) && st.currentQuestion == old(st.currentQuestion)
        && !st.isThinking && st.connectionStatus == Error
        && |out.calls| > 0 && Last(out.calls) == Alert(START_FAILED + StartResultOf(resume, reply).message)
    {
      var r := RequestSession(resume, reply);
      if r.Stored? {
        StoreSession(r.session);
      }
    }

    /** The success tail of the `try` block: store the session and the agent status, clear the conversation. */
    method StoreSession(s: VoiceSession)
      modifies st`voiceSession, st`aiAgentStatus, st`conversationHistory, st`currentQuestion
      ensures st.voiceSession == Some(s)
      ensures st.aiAgentStatus == Some(AIAgentStatus(s.aiAgentEnabled, s.agentProvider, s.conversationalMode))
      ensures st.conversationHistory == [] && st.currentQuestion == ""
    {
      st.voiceSession := Some(s);
      st.aiAgentStatus := Some(AIAgentStatus(s.aiAgentEnabled, s.agentProvider, s.conversationalMode));
      st.conversationHistory := [];
      st.currentQuestion := "";
    }

    /**
      `endInterview`: deactivate, stop listening, leave the room if there are
      props, send both end calls (whatever they throw is caught), and hand
      control back to the parent. `signal` and `endCall` say how the two end
      calls ended; no clause reads them, because the contract holds for every
      outcome of either call.
     */
    method EndInterview(signal: Outcome, endCall: Outcome)
      modifies st`isInterviewActive, rec, out
      ensures old(Valid()) ==> Valid()
      ensures !st.isInterviewActive && !rec.listening
      ensures rec.calls == old(rec.calls) + [StopListening] && rec.transcript == old(rec.transcript)
      ensures out.calls == old(out.calls) +
        ((if HasLiveKitProps(st.voiceSession) then [StopLocalAudio, DisconnectRoom] else []) +
         [EndSignal] +
         (if st.voiceSession.Some? then [EndSession(st.voiceSession.value.sessionId)] else []) +
         [EndInterviewCallback])
    {
      st.isInterviewActive := false;
      rec.Stop();
      var leave := if HasLiveKitProps(st.voiceSession) then [StopLocalAudio, DisconnectRoom] else [];
      var end := if st.voiceSession.Some? then [EndSession(st.voiceSession.value.sessionId)] else [];
      assert ConnectRoom !in leave && ConnectRoom !in end;
      LogAll(leave + [EndSignal] + end + [EndInterviewCallback]);
    }

    method HandleEndInterviewClick()
      modifies st`showEndConfirmation
      ensures st.showEndConfirmation
    {
      st.showEndConfirmation := true;
    }

    method CancelEndInterview()
      modifies st`showEndConfirmation
      ensures !st.showEndConfirmation
    {
      st.showEndConfirmation := false;
    }

    /** The confirm button of the end dialog; the two outcomes are passed on to `EndInterview`. */
    method ConfirmEndInterview(signal: Outcome, endCall: Outcome)
      modifies st`showEndConfirmation, st`isInterviewActive, rec, out
      ensures old(Valid()) ==> Valid()
      ensures !st.showEndConfirmation && !st.isInterviewActive && !rec.listening
      ensures rec.calls == old(rec.calls) + [StopListening] && rec.transcript == old(rec.transcript)
      ensures out.calls == old(out.calls) +
        ((if HasLiveKitProps(st.voiceSession) then [StopLocalAudio, DisconnectRoom] else []) +
         [EndSignal] +
         (if st.voiceSession.Some? then [EndSession(st.voiceSession.value.sessionId)] else []) +
         [EndInterviewCallback])
    {
      st.showEndConfirmation := false;
      EndInterview(signal, endCall);
    }

    /** The `beforeunload` listener: end the interview if it is active (outcomes as in `EndInterview`). */
    method BeforeUnload(signal: Outcome, endCall: Outcome)
      modifies st`isInterviewActive, rec, out
      ensures old(Valid()) ==> Valid()
      ensures !st.isInterviewActive
      ensures !old(st.isInterviewActive) ==>
        out.calls == old(out.calls) && rec.calls == old(rec.calls) && rec.listening == old(rec.listening)
      ensures old(st.isInterviewActive) ==>
        && !rec.listening && rec.calls == old(rec.calls) + [StopListening]
        && out.calls == old(out.calls) +
          ((if HasLiveKitProps(st.voiceSession) then [StopLocalAudio, DisconnectRoom] else []) +
           [EndSignal] +
           (if st.voiceSession.Some? then [EndSession(st.voiceSession.value.sessionId)] else []) +
           [EndInterviewCallback])
      ensures rec.transcript == old(rec.transcript)
    {
      if st.isInterviewActive {
        EndInterview(signal, endCall);
      }
    }

    /**
      `toggleMicrophone`: mute (stop listening, stop local audio) or unmute
      (start local audio, then listening). A rejected `startAudio` ends the
      handler before listening starts.
     */
    method ToggleMicrophone(startAudio: Outcome)
      modifies st`userSpeaking, rec, out
      ensures old(Valid()) ==> Valid()
      ensures rec.transcript == old(rec.transcript)
      ensures old(rec.listening) ==>
        && !rec.listening && !st.userSpeaking && rec.calls == old(rec.calls) + [StopListening]
        && out.calls == old(out.calls) + (if HasLiveKitProps(st.voiceSession) then [StopLocalAudio] else [])
      ensures !old(rec.listening) ==>
        out.calls == old(out.calls) + (if HasLiveKitProps(st.voiceSession) then [StartLocalAudio] else [])
      ensures !old(rec.listening) && (startAudio.Ok? || !HasLiveKitProps(st.voiceSession)) ==>
        rec.listening && st.userSpeaking && rec.calls == old(rec.calls) + [StartListening]
      ensures !old(rec.listening) && startAudio.Fail? && HasLiveKitProps(st.voiceSession) ==>
        !rec.listening && st.userSpeaking == old(st.userSpeaking) && rec.calls == old(rec.calls)
    {
      if rec.listening {
        rec.Stop();
        st.userSpeaking := false;
        if HasLiveKitProps(st.voiceSession) {
          Log(StopLocalAudio);
        }
      } else {
        if HasLiveKitProps(st.voiceSession) {
          Log(StartLocalAudio);
          if startAudio.Fail? {
            return;
          }
        }
        rec.Start();
        st.userSpeaking := true;
      }
    }

    /** `testAudio`: clear the last result and speak the test sentence through the fallback engine. */
    method TestAudio(am: AudioManager, voices: seq<Voice>)
      modifies st`audioTestResult, am`utterances, am`cancels
      ensures st.audioTestResult == NoResult
      ensures am.synthesisAvailable ==>
        && am.cancels == old(am.cancels) + 1
        && am.utterances == old(am.utterances) + [Utterance(TEST_MESSAGE, TTS_RATE, TTS_PITCH, TTS_VOLUME, FallbackVoice(voices))]
      ensures !am.synthesisAvailable ==> am.cancels == old(am.cancels) && am.utterances == old(am.utterances)
    {
      st.audioTestResult := NoResult;
      am.SpeakTextFallback(TEST_MESSAGE, voices);
    }
  }

  // ---------------------------------------------------------------------
  // Retrying after a failed connect
  // ---------------------------------------------------------------------

  /**
    The first half of both scenarios: mount, start a session (with the start
    as written or corrected), let the connect effect schedule the connect,
    and have the connect fail. The Start button is back.
   */
  method FirstConnectFails(s1: VoiceSession, f: Failure, corrected: bool) returns (screen: Screen)
    requires s1.participantToken != ""
    ensures fresh(screen) && fresh(screen.st) && fresh(screen.rec) && fresh(screen.out)
    ensures screen.st.voiceSession == Some(s1) && screen.st.livekitReady && !screen.connectPending
    ensures !screen.st.isThinking && !screen.st.isInterviewActive && screen.st.connectionStatus == Error
    ensures Count(screen.out.calls, ConnectRoom) == 1
  {
    screen := new Screen(1, true);
    StartFirstSession(screen, s1, corrected);
    screen.ConnectEffect();
    screen.FireConnect(Fail(f), NotSuspended, 2);
  }

  /** The first click on Start, answered with a tokened session, as written or corrected. */
  method StartFirstSession(screen: Screen, s1: VoiceSession, corrected: bool)
    requires s1.participantToken != ""
    requires !screen.st.isThinking && !screen.st.isInterviewActive && !screen.st.livekitReady && !screen.connectPending
    modifies screen.st, screen.out, screen
    ensures screen.st.voiceSession == Some(s1) && !screen.st.livekitReady && !screen.connectPending
    ensures !screen.st.isInterviewActive
    ensures Count(screen.out.calls, ConnectRoom) == old(Count(screen.out.calls, ConnectRoom))
  {
    if corrected {
      screen.StartVoiceInterview(NotSuspended, Returned(Some(s1)));
    } else {
      screen.StartVoiceInterviewAsWritten(NotSuspended, Returned(Some(s1)));
    }
  }

  /**
    As written: a first session whose connect fails, then a second start
    that the backend answers with a valid session. The second session is
    stored and the starting modal is up, but no connect is ever scheduled,
    because `livekitReady` is still true.
   */
  method RetryAfterConnectFailureStalls(s1: VoiceSession, s2: VoiceSession, f: Failure)
    returns (stuck: bool, connects: nat)
    requires s1.participantToken != "" && s2.participantToken != ""
    ensures stuck && connects == 1
  {
    var screen := FirstConnectFails(s1, f, false);
    screen.StartVoiceInterviewAsWritten(NotSuspended, Returned(Some(s2)));
    screen.ConnectEffect();
    assert screen.st.voiceSession == Some(s2) && screen.st.livekitReady;
    stuck := screen.st.isThinking && !screen.connectPending && !screen.st.isInterviewActive;
    connects := Count(screen.out.calls, ConnectRoom);
  }

  /** Corrected: the same sequence connects the second session and the interview goes live. */
  method RetryAfterConnectFailureConnects(s1: VoiceSession, s2: VoiceSession, f: Failure)
    returns (live: bool, connects: nat)
    requires s1.participantToken != "" && s2.participantToken != ""
    ensures live && connects == 2
  {
    var screen := FirstConnectFails(s1, f, true);
    screen.StartVoiceInterview(NotSuspended, Returned(Some(s2)));
    screen.ConnectEffect();
    screen.FireConnect(Ok, NotSuspended, 3);
    live := screen.st.isInterviewActive && !screen.st.isThinking && screen.st.voiceSession == Some(s2);
    connects := Count(screen.out.calls, ConnectRoom);
  }
}
