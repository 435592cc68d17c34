/**
  The state cells of src/components/VoiceInterview/hooks/useVoiceInterviewState.ts.
  Each `useState` pair becomes one mutable field; the hook's setters are plain
  field assignments made by the other modules, so the class itself only fixes
  the values every cell starts from.
 */
module SessionState {
  import opened Strings
  import opened Types

  class InterviewState {
    var isInterviewActive: bool
    var notes: string
    var startTime: Option<int>
    var elapsedTime: int
    var isThinking: bool
    var voiceSession: Option<VoiceSession>
    var connectionStatus: ConnectionStatus
    const participantName: string
    var livekitReady: bool
    var showEndConfirmation: bool
    var conversationHistory: seq<ConversationEntry>
    var currentQuestion: string
    var isAISpeaking: bool
    var userSpeaking: bool
    var aiAgentStatus: Option<AIAgentStatus>
    var selectedProvider: Provider
    var showProviderSelection: bool
    var showAutoplayPrompt: bool
    var audioTestResult: AudioTestResult

    /** Every cell holds the value its `useState` call starts it with. */
    ghost predicate Initial()
      reads this
    {
      && !isInterviewActive && notes == "" && startTime == None && elapsedTime == 0
      && !isThinking && voiceSession == None && connectionStatus == Disconnected
      && !livekitReady && !showEndConfirmation
      && conversationHistory == [] && currentQuestion == ""
      && !isAISpeaking && !userSpeaking && aiAgentStatus == None
      && selectedProvider == Google && !showProviderSelection
      && !showAutoplayPrompt && audioTestResult == NoResult
    }

    /** `clock` is the `Date.now()` reading the participant name is made from. */
    constructor (clock: nat)
      ensures Initial()
      ensures participantName == "participant-" + NatToDecimal(clock)
    {
      isInterviewActive := false;
      notes := "";
      startTime := None;
      elapsedTime := 0;
      isThinking := false;
      voiceSession := None;
      connectionStatus := Disconnected;
      participantName := "participant-" + NatToDecimal(clock);
      livekitReady := false;
      showEndConfirmation := false;
      conversationHistory := [];
      currentQuestion := "";
      isAISpeaking := false;
      userSpeaking := false;
      aiAgentStatus := None;
      selectedProvider := Google;
      showProviderSelection := false;
      showAutoplayPrompt := false;
      audioTestResult := NoResult;
    }
  }
}
