/**
  Stand-ins for the collaborators the screen calls but whose code is not part
  of this model: the speech-recognition hook (its `listening` flag, live
  `transcript` and `isSupported` capability) and a log of the calls made to
  the media room, the backend and the parent component.
 */
module Environment {
  import opened Types

  datatype SpeechCall = StartListening | StopListening | ResetTranscript

  class SpeechRecognizer {
    var listening: bool
    var transcript: string
    const supported: bool
    var calls: seq<SpeechCall>

    constructor (supported: bool)
      ensures !listening && transcript == "" && calls == [] && this.supported == supported
    {
      listening := false;
      transcript := "";
      this.supported := supported;
      calls := [];
    }

    method Start()
      modifies this
      ensures listening && transcript == old(transcript)
      ensures calls == old(calls) + [StartListening]
    {
      listening := true;
      calls := calls + [StartListening];
    }

    method Stop()
      modifies this
      ensures !listening && transcript == old(transcript)
      ensures calls == old(calls) + [StopListening]
    {
      listening := false;
      calls := calls + [StopListening];
    }

    method Reset()
      modifies this
      ensures listening == old(listening) && transcript == ""
      ensures calls == old(calls) + [ResetTranscript]
    {
      transcript := "";
      calls := calls + [ResetTranscript];
    }

    /** The recognition engine reports new speech. */
    method Hear(text: string)
      modifies this
      ensures listening == old(listening) && transcript == text && calls == old(calls)
    {
      transcript := text;
    }
  }

  /** Calls to collaborators whose only effect the model keeps is that they were made. */
  datatype Call =
    | StartSession(participant: string, enableAIAgent: bool, provider: Provider)
    | ConnectRoom
    | DisconnectRoom
    | StartLocalAudio
    | StopLocalAudio
    | EndSignal
    | EndSession(sessionId: string)
    | EndInterviewCallback
    | Alert(message: string)

  class Outside {
    var calls: seq<Call>

    constructor ()
      ensures calls == []
    {
      calls := [];
    }
  }

  /** How many times `c` occurs in a call log. */
  function Count(log: seq<Call>, c: Call): nat
    decreases |log|
  {
    if log == [] then 0 else Count(log[..|log| - 1], c) + (if log[|log| - 1] == c then 1 else 0)
  }

  lemma {:induction false} CountAppend(a: seq<Call>, b: seq<Call>, c: Call)
    ensures Count(a + b, c) == Count(a, c) + Count(b, c)
    decreases |b|
  {
    if b != [] {
      assert (a + b)[..|a + b| - 1] == a + b[..|b| - 1];
      CountAppend(a, b[..|b| - 1], c);
    } else {
      assert a + b == a;
    }
  }

  lemma {:induction false} CountAbsent(log: seq<Call>, c: Call)
    requires c !in log
    ensures Count(log, c) == 0
    decreases |log|
  {
    if log != [] {
      assert log[..|log| - 1] <= log;
      CountAbsent(log[..|log| - 1], c);
    }
  }
}
