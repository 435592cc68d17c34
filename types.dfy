/**
  The entities of the voice-interview screen (src/components/VoiceInterview/types.ts)
  and its named constants (src/components/VoiceInterview/constants.ts), plus the
  shapes in which the model receives the outcome of calls it cannot see.
 */
module Types {

  datatype Option<+T> = None | Some(value: T)

  /** The four connection states; a state cell of this type can hold nothing else. */
  datatype ConnectionStatus = Disconnected | Connecting | Connected | Error

  /** The string each status stands for in CONNECTION_STATUS. */
  function StatusName(s: ConnectionStatus): string {
    match s
    case Disconnected => "disconnected"
    case Connecting => "connecting"
    case Connected => "connected"
    case Error => "error"
  }

  function ParseStatus(name: string): (r: Option<ConnectionStatus>)
    ensures r.Some? ==> StatusName(r.value) == name
  {
    if name == "disconnected" then Some(Disconnected)
    else if name == "connecting" then Some(Connecting)
    else if name == "connected" then Some(Connected)
    else if name == "error" then Some(Error)
    else None
  }

  lemma StatusNameRoundTrip(s: ConnectionStatus)
    ensures ParseStatus(StatusName(s)) == Some(s)
  {
  }

  /** AUDIO_TEST_RESULT: 'none' | 'success' | 'failed'. */
  datatype AudioTestResult = NoResult | TestSucceeded | TestFailed

  /** PROVIDER_OPTIONS: 'openai' | 'google'. */
  datatype Provider = OpenAI | Google

  /** CONVERSATION_TYPES. */
  datatype ConversationType = Question | Greeting | Feedback | Speaking

  function ConversationTypeName(t: ConversationType): string {
    match t
    case Question => "question"
    case Greeting => "greeting"
    case Feedback => "feedback"
    case Speaking => "speaking"
  }

  datatype Speaker = AI | User

  /** One line of the conversation; `timestamp` is the clock reading in milliseconds. */
  datatype ConversationEntry = ConversationEntry(
    speaker: Speaker,
    message: string,
    timestamp: int,
    kind: ConversationType)

  /** An absent optional field of the backend's reply is `None`. */
  datatype AIAgentStatus = AIAgentStatus(
    enabled: Option<bool>,
    provider: Option<string>,
    conversational: Option<bool>)

  /** A field the backend left out is the empty string (it is falsy in the source). */
  datatype VoiceSession = VoiceSession(
    sessionId: string,
    roomName: string,
    wsUrl: string,
    participantToken: string,
    aiAgentEnabled: Option<bool>,
    conversationalMode: Option<bool>,
    agentProvider: Option<string>)

  /** TIMING, in milliseconds. */
  const LIVEKIT_CONNECTION_DELAY: nat := 200
  const LISTENING_RESUME_DELAY: nat := 500
  const AUDIO_RETRY_DELAY: nat := 600
  const LISTENING_START_DELAY: nat := 1000

  /** AUDIO_CONFIG's speech-synthesis settings. */
  const TTS_RATE: real := 0.9
  const TTS_PITCH: real := 1.0
  const TTS_VOLUME: real := 1.0

  /** What an awaited call that the model cannot see threw. */
  datatype Failure = Thrown(message: string) | ThrownNonError

  /** The text shown for a caught failure: its message, or the source's fallback. */
  function FailureText(f: Failure, fallback: string): string {
    match f
    case Thrown(m) => m
    case ThrownNonError => fallback
  }

  datatype Outcome = Ok | Fail(failure: Failure)

  /** The audio context's `resume()` is awaited only when the context is suspended. */
  datatype Resume = NotSuspended | Resumed | ResumeFailed(failure: Failure)
}
