/**
  src/components/VoiceInterview/hooks/useAudioManager.ts: the registry that
  binds each remote audio track to one hidden playback element, the bounded
  retry of `play()` under autoplay restrictions, the speaking-flag effects of
  the element and utterance callbacks, and the speech-synthesis fallback.

  Playback elements are opaque handles, numbered in creation order. The
  handlers receive the `isListening` and `isInterviewActive` values their
  closures captured as parameters.
 */
module Audio {
  import opened Strings
  import opened Types
  import opened SessionState
  import opened Environment

  // ---------------------------------------------------------------------
  // Track keys
  // ---------------------------------------------------------------------

  /** A remote track: its `sid` ("" when absent) and whether `attach` throws for it. */
  datatype RemoteTrack = RemoteTrack(sid: string, attachFails: bool)

  /** `track.sid || \`track-${index}\``, used both for binding and for clean-up. */
  function TrackKey(t: RemoteTrack, index: nat): (r: string)
    ensures r != ""
    ensures t.sid == "" ==> |r| > 6 && r[..6] == "track-"
  {
    if t.sid != "" then t.sid else "track-" + NatToDecimal(index)
  }

  /** Tracks without a `sid` at different positions never share a key. */
  lemma FallbackKeysDistinct(t: RemoteTrack, u: RemoteTrack, i: nat, j: nat)
    requires t.sid == "" && u.sid == "" && i != j
    ensures TrackKey(t, i) != TrackKey(u, j)
  {
    if TrackKey(t, i) == TrackKey(u, j) {
      var p := "track-";
      assert (p + NatToDecimal(i))[|p|..] == NatToDecimal(i);
      assert (p + NatToDecimal(j))[|p|..] == NatToDecimal(j);
      NatToDecimalInjective(i, j);
    }
  }

  /** The keys of the current track list (`currentTrackIds`). */
  function CurrentKeys(tracks: seq<RemoteTrack>): (r: set<string>)
    ensures forall i :: 0 <= i < |tracks| ==> TrackKey(tracks[i], i) in r
    ensures "" !in r
  {
    set i | 0 <= i < |tracks| :: TrackKey(tracks[i], i)
  }

  /** Keys of the first `n` tracks whose attach succeeds. */
  function AttachedKeys(tracks: seq<RemoteTrack>, n: nat): set<string>
    requires n <= |tracks|
  {
    set i | 0 <= i < n && !tracks[i].attachFails :: TrackKey(tracks[i], i)
  }

  /** The keys bound after one reconciliation pass that started from `bound`. */
  function ReconciledKeys(bound: set<string>, tracks: seq<RemoteTrack>): set<string> {
    (bound + AttachedKeys(tracks, |tracks|)) * CurrentKeys(tracks)
  }

  lemma AttachedAreCurrent(tracks: seq<RemoteTrack>)
    ensures AttachedKeys(tracks, |tracks|) <= CurrentKeys(tracks)
  {
  }

  /** The bindings of `m` whose key is in `keep`. */
  function Kept(m: map<string, nat>, keep: set<string>): map<string, nat> {
    map k | k in m && k in keep :: m[k]
  }

  /** The elements `m` binds under keys outside `keep`. */
  function Dropped(m: map<string, nat>, keep: set<string>): set<nat> {
    set k | k in m && k !in keep :: m[k]
  }

  /** The elements `after` binds under keys `before` does not have: the ones a pass created. */
  function NewElements(before: map<string, nat>, after: map<string, nat>): set<nat> {
    set k | k in after && k !in before :: after[k]
  }

  /** Binding a key that neither map has adds exactly its element to the new ones. */
  lemma NewElementsAdd(m: map<string, nat>, els: map<string, nat>, key: string, e: nat)
    requires key !in m && key !in els
    ensures NewElements(m, els[key := e]) == NewElements(m, els) + {e}
  {
    var after := els[key := e];
    forall x | x in NewElements(m, els) + {e}
      ensures x in NewElements(m, after)
    {
      if x == e {
        assert key in after && key !in m && after[key] == e;
      } else {
        var k :| k in els && k !in m && els[k] == x;
        assert k in after && k !in m && after[k] == x;
      }
    }
  }

  /** The bindings the clean-up loop still holds while `todo` is left to visit. */
  function KeptSoFar(m: map<string, nat>, todo: set<string>, current: set<string>): map<string, nat> {
    map k | k in m && (k in todo || k in current) :: m[k]
  }

  /** The elements the clean-up loop has torn down while `todo` is left to visit. */
  function DroppedSoFar(m: map<string, nat>, todo: set<string>, current: set<string>): set<nat> {
    set k | k in m && k !in todo && k !in current :: m[k]
  }

  lemma CleanupStart(m: map<string, nat>, current: set<string>)
    ensures KeptSoFar(m, m.Keys, current) == m && DroppedSoFar(m, m.Keys, current) == {}
  {
  }

  lemma CleanupStep(m: map<string, nat>, d0: set<nat>, todo: set<string>, current: set<string>, k: string,
                    elements: map<string, nat>, detached: set<nat>)
    requires k in m && k in todo
    requires elements == KeptSoFar(m, todo, current) && detached == d0 + DroppedSoFar(m, todo, current)
    ensures k !in current ==> k in elements && elements - {k} == KeptSoFar(m, todo - {k}, current)
    ensures k !in current ==> detached + {elements[k]} == d0 + DroppedSoFar(m, todo - {k}, current)
    ensures k in current ==>
      elements == KeptSoFar(m, todo - {k}, current) && detached == d0 + DroppedSoFar(m, todo - {k}, current)
  {
    if k !in current {
      assert DroppedSoFar(m, todo - {k}, current) == DroppedSoFar(m, todo, current) + {m[k]};
    }
  }

  lemma CleanupEnd(m: map<string, nat>, current: set<string>)
    ensures KeptSoFar(m, {}, current) == Kept(m, current)
    ensures DroppedSoFar(m, {}, current) == Dropped(m, current)
  {
  }

  /** Cleaning up after binding only new keys that are current drops exactly what it would have dropped before. */
  lemma BindThenClean(m: map<string, nat>, bound: map<string, nat>, added: set<string>, current: set<string>)
    requires bound.Keys == m.Keys + added && added <= current
    requires forall k :: k in m ==> bound[k] == m[k]
    ensures Dropped(bound, current) == Dropped(m, current)
    ensures Kept(bound, current).Keys == (m.Keys + added) * current
    ensures (m.Keys + added) * current == m.Keys ==> Kept(bound, current) == m
    ensures NewElements(m, Kept(bound, current)) == NewElements(m, bound)
  {
    if (m.Keys + added) * current == m.Keys {
      assert Kept(bound, current).Keys == m.Keys;
    }
  }

  /**
    Elements in the registry were created (their number is below `next`), no
    element is bound under two keys, and no bound element has been torn down.
   */
  ghost predicate Registry(elements: map<string, nat>, next: nat, detached: set<nat>) {
    && (forall k :: k in elements ==> elements[k] < next)
    && (forall k, k' :: k in elements && k' in elements && k != k' ==> elements[k] != elements[k'])
    && (forall k :: k in elements ==> elements[k] !in detached)
    && (forall d :: d in detached ==> d < next)
  }

  lemma RegistryCreate(elements: map<string, nat>, next: nat, detached: set<nat>, key: string)
    requires Registry(elements, next, detached) && key !in elements
    ensures Registry(elements, next + 1, detached)
    ensures Registry(elements[key := next], next + 1, detached)
  {
  }

  /** Tearing down every binding outside `keep` keeps the registry well formed. */
  lemma RegistryKeep(elements: map<string, nat>, next: nat, detached: set<nat>, keep: set<string>)
    requires Registry(elements, next, detached)
    ensures Registry(Kept(elements, keep), next, detached + Dropped(elements, keep))
  {
  }

  /**
    What the binding loop keeps about the registry after visiting the first
    `i` tracks, starting from `m` and `n0`.
   */
  ghost predicate BindInvariant(m: map<string, nat>, n0: nat, detached: set<nat>,
                                tracks: seq<RemoteTrack>, i: nat, els: map<string, nat>, next: nat)
  {
    && i <= |tracks|
    && Registry(els, next, detached)
    && els.Keys == m.Keys + AttachedKeys(tracks, i)
    && (forall k :: k in m ==> els[k] == m[k])
    && (forall k :: k in els && k !in m ==> n0 <= els[k])
    && n0 <= next
  }

  /** A bound key, or an attach that throws (the element is still created), binds nothing. */
  lemma BindSkips(m: map<string, nat>, n0: nat, detached: set<nat>,
                  tracks: seq<RemoteTrack>, i: nat, els: map<string, nat>, next: nat)
    requires i < |tracks| && (TrackKey(tracks[i], i) in els || tracks[i].attachFails)
    requires BindInvariant(m, n0, detached, tracks, i, els, next)
    ensures BindInvariant(m, n0, detached, tracks, i + 1, els, next)
    ensures BindInvariant(m, n0, detached, tracks, i + 1, els, next + 1)
  {
    assert AttachedKeys(tracks, i + 1) ==
      AttachedKeys(tracks, i) + (if tracks[i].attachFails then {} else {TrackKey(tracks[i], i)});
  }

  /** A new key whose attach succeeds is bound to a fresh element. */
  lemma BindAdds(m: map<string, nat>, n0: nat, detached: set<nat>,
                 tracks: seq<RemoteTrack>, i: nat, els: map<string, nat>, next: nat)
    requires i < |tracks| && TrackKey(tracks[i], i) !in els && !tracks[i].attachFails
    requires BindInvariant(m, n0, detached, tracks, i, els, next)
    ensures BindInvariant(m, n0, detached, tracks, i + 1, els[TrackKey(tracks[i], i) := next], next + 1)
  {
    RegistryCreate(els, next, detached, TrackKey(tracks[i], i));
    assert AttachedKeys(tracks, i + 1) == AttachedKeys(tracks, i) + {TrackKey(tracks[i], i)};
  }

  /**
    The binding loop has played, and handed to `playWithRetry`, exactly the
    elements it bound beyond `m`.
   */
  ghost predicate PlayAccount(m: map<string, nat>, p0: set<nat>, s0: map<nat, nat>,
                              els: map<string, nat>, played: set<nat>, pending: map<nat, nat>)
  {
    && played == p0 + NewElements(m, els)
    && pending == s0 + FirstPlays(NewElements(m, els))
  }

  lemma PlayAccountAdd(m: map<string, nat>, p0: set<nat>, s0: map<nat, nat>,
                       els: map<string, nat>, played: set<nat>, pending: map<nat, nat>, key: string, e: nat)
    requires key !in m && key !in els
    requires PlayAccount(m, p0, s0, els, played, pending)
    ensures PlayAccount(m, p0, s0, els[key := e], played + {e}, pending[e := PLAY_RETRIES])
  {
    NewElementsAdd(m, els, key, e);
    FirstPlaysAdd(s0, NewElements(m, els), e);
  }

  /** A second pass over the same list binds and unbinds nothing. */
  lemma ReconcileIdempotent(bound: set<string>, tracks: seq<RemoteTrack>)
    ensures ReconciledKeys(ReconciledKeys(bound, tracks), tracks) == ReconciledKeys(bound, tracks)
  {
  }

  // ---------------------------------------------------------------------
  // playWithRetry
  // ---------------------------------------------------------------------

  /** The default retry budget of `playWithRetry`. */
  const PLAY_RETRIES: nat := 3

  /**
    `outcomes[k]` says whether the k-th `play()` call for an element
    resolves; a missing entry is a rejection.
   */
  function AttemptSucceeds(outcomes: seq<bool>, k: nat): bool {
    k < |outcomes| && outcomes[k]
  }

  function Later(outcomes: seq<bool>): seq<bool> {
    if outcomes == [] then [] else outcomes[1..]
  }

  /** How many times `play()` is called, starting with `retries` left. */
  function Attempts(outcomes: seq<bool>, retries: nat): (n: nat)
    ensures 1 <= n <= retries + 1
    decreases retries
  {
    if AttemptSucceeds(outcomes, 0) || retries == 0 then 1
    else 1 + Attempts(Later(outcomes), retries - 1)
  }

  /** Every attempt failed, down to the one made with no retries left. */
  function Exhausted(outcomes: seq<bool>, retries: nat): (r: bool)
    ensures AttemptSucceeds(outcomes, 0) ==> !r
    ensures r ==> Attempts(outcomes, retries) == retries + 1
    decreases retries
  {
    !AttemptSucceeds(outcomes, 0) && (retries == 0 || Exhausted(Later(outcomes), retries - 1))
  }

  lemma LaterShifts(outcomes: seq<bool>, k: nat)
    ensures AttemptSucceeds(Later(outcomes), k) == AttemptSucceeds(outcomes, k + 1)
  {
  }

  /** The budget runs out exactly when each of the `retries + 1` attempts is rejected. */
  lemma {:induction false} ExhaustedIff(outcomes: seq<bool>, retries: nat)
    ensures Exhausted(outcomes, retries) <==> forall k :: 0 <= k <= retries ==> !AttemptSucceeds(outcomes, k)
    decreases retries
  {
    if retries > 0 {
      ExhaustedIff(Later(outcomes), retries - 1);
      if Exhausted(outcomes, retries) {
        forall k | 0 <= k <= retries
          ensures !AttemptSucceeds(outcomes, k)
        {
          if k > 0 {
            LaterShifts(outcomes, k - 1);
          }
        }
      }
      if forall k :: 0 <= k <= retries ==> !AttemptSucceeds(outcomes, k) {
        forall k | 0 <= k <= retries - 1
          ensures !AttemptSucceeds(Later(outcomes), k)
        {
          LaterShifts(outcomes, k);
        }
      }
    }
  }

  /**
    Attempts stop at the first success; with the budget exhausted every
    allowed attempt was made.
   */
  lemma {:induction false} AttemptsStopAtFirstSuccess(outcomes: seq<bool>, retries: nat)
    ensures Exhausted(outcomes, retries) ==> Attempts(outcomes, retries) == retries + 1
    ensures !Exhausted(outcomes, retries) ==> AttemptSucceeds(outcomes, Attempts(outcomes, retries) - 1)
    ensures forall k :: 0 <= k < Attempts(outcomes, retries) - 1 ==> !AttemptSucceeds(outcomes, k)
    decreases retries
  {
    if !AttemptSucceeds(outcomes, 0) && retries > 0 {
      AttemptsStopAtFirstSuccess(Later(outcomes), retries - 1);
      LaterShifts(outcomes, Attempts(Later(outcomes), retries - 1) - 1);
      forall k | 0 <= k < Attempts(outcomes, retries) - 1
        ensures !AttemptSucceeds(outcomes, k)
      {
        if k > 0 {
          LaterShifts(outcomes, k - 1);
        }
      }
    }
  }

  /** A `play()` that always rejects is called four times under the default budget, then gives up. */
  lemma AlwaysRejectedPlay(outcomes: seq<bool>)
    requires forall k :: 0 <= k < |outcomes| ==> !outcomes[k]
    ensures Exhausted(outcomes, PLAY_RETRIES) && Attempts(outcomes, PLAY_RETRIES) == 4
  {
    ExhaustedIff(outcomes, PLAY_RETRIES);
    AttemptsStopAtFirstSuccess(outcomes, PLAY_RETRIES);
  }

  /** A first `play()` that resolves ends the engine at once and raises no prompt. */
  lemma FirstPlaySucceeds(outcomes: seq<bool>, retries: nat)
    requires AttemptSucceeds(outcomes, 0)
    ensures !Exhausted(outcomes, retries) && Attempts(outcomes, retries) == 1
  {
  }

  /** The first `play()` of each element in `es`, made with the default budget. */
  function FirstPlays(es: set<nat>): map<nat, nat> {
    map e | e in es :: PLAY_RETRIES
  }

  lemma FirstPlaysAdd(pending: map<nat, nat>, es: set<nat>, e: nat)
    ensures pending + FirstPlays(es + {e}) == (pending + FirstPlays(es))[e := PLAY_RETRIES]
  {
  }

  // ---------------------------------------------------------------------
  // Fallback voice
  // ---------------------------------------------------------------------

  datatype Voice = Voice(name: string)

  /** The speech-synthesis request: text, the fixed rate/pitch/volume, and a voice unless left at the default. */
  datatype Utterance = Utterance(text: string, rate: real, pitch: real, volume: real, voice: Option<Voice>)

  predicate PreferredVoice(v: Voice) {
    var name := LowerAscii(v.name);
    Contains(name, "female") || Contains(name, "woman") || Contains(name, "samantha") || Contains(name, "karen")
  }

  /** The position `voices.find` stops at: the first preferred voice. */
  function FirstPreferredVoice(voices: seq<Voice>): (r: Option<nat>)
    ensures r.Some? ==> r.value < |voices| && PreferredVoice(voices[r.value])
    ensures r.Some? ==> forall j :: 0 <= j < r.value ==> !PreferredVoice(voices[j])
    ensures r.None? <==> forall j :: 0 <= j < |voices| ==> !PreferredVoice(voices[j])
    decreases |voices|
  {
    if voices == [] then None
    else if PreferredVoice(voices[0]) then Some(0)
    else match FirstPreferredVoice(voices[1..])
      case None => None
      case Some(i) => Some(i + 1)
  }

  /** The voice the utterance is given: the first preferred one, or none (the engine's default). */
  function FallbackVoice(voices: seq<Voice>): (r: Option<Voice>)
    ensures r.Some? ==> r.value in voices && PreferredVoice(r.value)
    ensures r.None? <==> forall j :: 0 <= j < |voices| ==> !PreferredVoice(voices[j])
  {
    match FirstPreferredVoice(voices)
    case None => None
    case Some(i) => Some(voices[i])
  }

  // ---------------------------------------------------------------------
  // The manager
  // ---------------------------------------------------------------------

  class AudioManager {
    /** `audioElementsRef`: track key to playback element. */
    var elements: map<string, nat>
    /** Number of playback elements created so far; the next one gets this number. */
    var nextElement: nat
    /** Elements on which `play()` has been called. */
    var playRequested: set<nat>
    /** Elements paused and removed from the document. */
    var detached: set<nat>
    /** Whether `window.speechSynthesis` was stored by the mount effect. */
    const synthesisAvailable: bool
    /** Utterances handed to `speechSynthesis.speak`, in order. */
    var utterances: seq<Utterance>
    /** Calls to `speechSynthesis.cancel`. */
    var cancels: nat
    var contextOpen: bool
    /**
      The `play()` calls of `playWithRetry` whose promise has not settled:
      element to the retries left to that call. Only the binding of a fresh
      element starts a chain, so an element has at most one.
     */
    var settling: map<nat, nat>
    /** The retries scheduled `AUDIO_RETRY_DELAY` ms after a rejection: element to the retries that call gets. */
    var retryTimers: map<nat, nat>

    /** The registry is well formed (see `Registry`). */
    ghost predicate Valid()
      reads this
    {
      Registry(elements, nextElement, detached)
    }

    /**
      The mount effect: create the audio context and, if the browser has one,
      keep the synthesis engine. `contextCreated` says whether the context
      constructor returned; when it throws, the `catch` is reached before the
      engine is stored, so there is neither a context nor an engine.
     */
    constructor (hasSynthesis: bool, contextCreated: bool)
      ensures Valid() && elements == map[] && nextElement == 0
      ensures playRequested == {} && detached == {} && utterances == [] && cancels == 0
      ensures contextOpen == contextCreated
      ensures synthesisAvailable == (hasSynthesis && contextCreated)
      ensures settling == map[] && retryTimers == map[]
    {
      elements := map[];
      nextElement := 0;
      playRequested := {};
      detached := {};
      synthesisAvailable := hasSynthesis && contextCreated;
      utterances := [];
      cancels := 0;
      contextOpen := contextCreated;
      settling := map[];
      retryTimers := map[];
    }

    /**
      The remote-track effect: bind every track whose key is not bound yet
      (an attach that throws leaves the key unbound and the loop goes on),
      then tear down every binding whose key is no longer in the list.
     */
    method Reconcile(tracks: seq<RemoteTrack>)
      requires Valid()
      modifies this`elements, this`nextElement, this`playRequested, this`settling, this`detached
      ensures Valid()
      ensures elements.Keys == ReconciledKeys(old(elements).Keys, tracks)
      ensures elements.Keys <= CurrentKeys(tracks)
      ensures forall k :: k in elements && k in old(elements) ==> elements[k] == old(elements)[k]
      ensures forall k :: k in elements && k !in old(elements) ==>
        old(nextElement) <= elements[k] && elements[k] in playRequested
      ensures old(nextElement) <= nextElement
      ensures detached == old(detached) + Dropped(old(elements), CurrentKeys(tracks))
      ensures playRequested == old(playRequested) + NewElements(old(elements), elements)
      ensures settling == old(settling) + FirstPlays(NewElements(old(elements), elements))
      ensures ReconciledKeys(old(elements).Keys, tracks) == old(elements).Keys ==>
        elements == old(elements) && playRequested == old(playRequested) && settling == old(settling)
    {
      if |tracks| > 0 {
        Bind(tracks);
      } else {
        assert NewElements(elements, elements) == {};
      }
      ghost var bound := elements;
      ghost var added := AttachedKeys(tracks, |tracks|);
      var current := CurrentKeys(tracks);
      assert bound.Keys == old(elements).Keys + added;
      AttachedAreCurrent(tracks);
      BindThenClean(old(elements), bound, added, current);
      Cleanup(current);
      if elements == old(elements) {
        assert NewElements(old(elements), elements) == {};
        assert FirstPlays({}) == map[];
      }
    }

    /**
      The binding loop of the effect: a key already bound is skipped;
      otherwise a new element is created, and bound and handed to
      `playWithRetry` with the default budget unless the attach throws.
     */
    method Bind(tracks: seq<RemoteTrack>)
      requires Valid()
      modifies this`elements, this`nextElement, this`playRequested, this`settling
      ensures Valid()
      ensures elements.Keys == old(elements).Keys + AttachedKeys(tracks, |tracks|)
      ensures forall k :: k in old(elements) ==> elements[k] == old(elements)[k]
      ensures forall k :: k in elements && k !in old(elements) ==>
        old(nextElement) <= elements[k] && elements[k] in playRequested
      ensures old(nextElement) <= nextElement
      ensures playRequested == old(playRequested) + NewElements(old(elements), elements)
      ensures settling == old(settling) + FirstPlays(NewElements(old(elements), elements))
    {
      ghost var m, n0, p0, s0, d := elements, nextElement, playRequested, settling, detached;
      var els, next, played := elements, nextElement, playRequested;
      var pending: map<nat, nat> := settling;
      var i := 0;
      assert NewElements(m, els) == {};
      assert FirstPlays({}) == map[];
      assert PlayAccount(m, p0, s0, els, played, pending);
      while i < |tracks|
        invariant 0 <= i <= |tracks|
        invariant BindInvariant(m, n0, d, tracks, i, els, next)
        invariant PlayAccount(m, p0, s0, els, played, pending)
      {
        var key := TrackKey(tracks[i], i);
        if key !in els {
          if tracks[i].attachFails {
            BindSkips(m, n0, d, tracks, i, els, next);
            next := next + 1;
          } else {
            BindAdds(m, n0, d, tracks, i, els, next);
            PlayAccountAdd(m, p0, s0, els, played, pending, key, next);
            els, next, played, pending := els[key := next], next + 1, played + {next}, pending[next := PLAY_RETRIES];
          }
        } else {
          BindSkips(m, n0, d, tracks, i, els, next);
        }
        i := i + 1;
      }
      elements, nextElement, playRequested, settling := els, next, played, pending;
    }

    /** The clean-up loop of the effect: drop every binding whose key is not current. */
    method Cleanup(current: set<string>)
      requires Valid()
      modifies this`elements, this`detached
      ensures Valid()
      ensures elements == Kept(old(elements), current)
      ensures detached == old(detached) + Dropped(old(elements), current)
    {
      var els, gone, todo := elements, detached, elements.Keys;
      ghost var m, d0 := elements, detached;
      CleanupStart(m, current);
      while todo != {}
        invariant todo <= m.Keys
        invariant els == KeptSoFar(m, todo, current)
        invariant gone == d0 + DroppedSoFar(m, todo, current)
        decreases |todo|
      {
        var k :| k in todo;
        CleanupStep(m, d0, todo, current, k, els, gone);
        if k !in current {
          gone := gone + {els[k]};
          els := els - {k};
        }
        todo := todo - {k};
      }
      CleanupEnd(m, current);
      RegistryKeep(m, nextElement, d0, current);
      elements, detached := els, gone;
    }

    /**
      `playWithRetry(element, retries)` up to its `await`: `play()` is called
      and its promise is left to settle (`SettlePlay`).
     */
    method PlayWithRetry(element: nat, retries: nat)
      modifies this`playRequested, this`settling
      ensures playRequested == old(playRequested) + {element}
      ensures settling == old(settling)[element := retries]
    {
      playRequested := playRequested + {element};
      settling := settling[element := retries];
    }

    /**
      The `await` of `playWithRetry` ends: a resolved `play()` ends the chain;
      a rejection schedules a retry `AUDIO_RETRY_DELAY` ms later with one
      retry fewer, or raises the autoplay prompt when none is left.
     */
    method SettlePlay(st: InterviewState, element: nat, resolves: bool)
      requires element in settling
      modifies st`showAutoplayPrompt, this`settling, this`retryTimers
      ensures settling == old(settling) - {element}
      ensures resolves ==>
        retryTimers == old(retryTimers) && st.showAutoplayPrompt == old(st.showAutoplayPrompt)
      ensures !resolves && old(settling)[element] > 0 ==>
        && retryTimers == old(retryTimers)[element := old(settling)[element] - 1]
        && st.showAutoplayPrompt == old(st.showAutoplayPrompt)
      ensures !resolves && old(settling)[element] == 0 ==>
        retryTimers == old(retryTimers) && st.showAutoplayPrompt
    {
      var retries := settling[element];
      settling := settling - {element};
      if !resolves {
        if retries > 0 {
          retryTimers := retryTimers[element := retries - 1];
        } else {
          st.showAutoplayPrompt := true;
        }
      }
    }

    /** The retry timer fires: `playWithRetry` runs again with the retries it was given. */
    method FireRetry(element: nat)
      requires element in retryTimers
      modifies this`playRequested, this`settling, this`retryTimers
      ensures retryTimers == old(retryTimers) - {element}
      ensures settling == old(settling)[element := old(retryTimers)[element]]
      ensures playRequested == old(playRequested) + {element}
    {
      var retries := retryTimers[element];
      retryTimers := retryTimers - {element};
      PlayWithRetry(element, retries);
    }

    /**
      The pending `play()` of `element` settles, and so does every retry it
      leads to, with no other handler run in between: `outcomes[k]` says
      whether the k-th of these calls resolves. `times` are the calls'
      offsets from the first.
     */
    method SettleChain(st: InterviewState, element: nat, outcomes: seq<bool>) returns (times: seq<nat>)
      requires element in settling && element !in retryTimers
      modifies st`showAutoplayPrompt, this`playRequested, this`settling, this`retryTimers
      ensures st.showAutoplayPrompt == (old(st.showAutoplayPrompt) || Exhausted(outcomes, old(settling)[element]))
      ensures |times| == Attempts(outcomes, old(settling)[element])
      ensures forall k :: 0 <= k < |times| ==> times[k] == k * AUDIO_RETRY_DELAY
      ensures playRequested == old(playRequested) + (if |times| > 1 then {element} else {})
      ensures settling == old(settling) - {element} && retryTimers == old(retryTimers)
      decreases settling[element]
    {
      var retries := settling[element];
      SettlePlay(st, element, AttemptSucceeds(outcomes, 0));
      if !AttemptSucceeds(outcomes, 0) && retries > 0 {
        FireRetry(element);
        assert retryTimers == old(retryTimers);
        var later := SettleChain(st, element, Later(outcomes));
        times := [0] + seq(|later|, k requires 0 <= k < |later| => later[k] + AUDIO_RETRY_DELAY);
      } else {
        times := [0];
      }
    }

    /**
      A whole `playWithRetry(element, retries)` chain when no other handler
      runs between its steps: the prompt is raised exactly when the budget is
      exhausted, and the k-th `play()` is made `k * AUDIO_RETRY_DELAY` ms
      after the first.
     */
    method RetryChain(st: InterviewState, element: nat, outcomes: seq<bool>, retries: nat) returns (times: seq<nat>)
      requires element !in settling && element !in retryTimers
      modifies st`showAutoplayPrompt, this`playRequested, this`settling, this`retryTimers
      ensures st.showAutoplayPrompt == (old(st.showAutoplayPrompt) || Exhausted(outcomes, retries))
      ensures |times| == Attempts(outcomes, retries)
      ensures forall k :: 0 <= k < |times| ==> times[k] == k * AUDIO_RETRY_DELAY
      ensures playRequested == old(playRequested) + {element}
      ensures settling == old(settling) && retryTimers == old(retryTimers)
    {
      PlayWithRetry(element, retries);
      times := SettleChain(st, element, outcomes);
      assert settling == old(settling);
    }

    /** `onplay`: the AI is speaking, the user is not, and capture stops. */
    method OnPlay(st: InterviewState, rec: SpeechRecognizer, listening: bool)
      modifies st`isAISpeaking, st`userSpeaking, st`showAutoplayPrompt, rec
      ensures st.isAISpeaking && !st.userSpeaking && !st.showAutoplayPrompt
      ensures rec.calls == old(rec.calls) + (if listening then [StopListening] else []) + [ResetTranscript]
      ensures rec.listening == (old(rec.listening) && !listening) && rec.transcript == ""
    {
      st.isAISpeaking := true;
      st.userSpeaking := false;
      st.showAutoplayPrompt := false;
      if listening {
        rec.Stop();
      }
      rec.Reset();
    }

    /** `onended`, first half: the AI stops speaking at once. */
    method OnEnded(st: InterviewState)
      modifies st`isAISpeaking
      ensures !st.isAISpeaking
    {
      st.isAISpeaking := false;
    }

    /**
      `onended`, second half, `LISTENING_RESUME_DELAY` ms later: resume
      capture if the interview is active and capture is off, then set
      `userSpeaking` to false (the source clears it after restarting).
     */
    method ResumeAfterPlayback(st: InterviewState, rec: SpeechRecognizer, interviewActive: bool, listening: bool)
      modifies st`userSpeaking, rec
      ensures interviewActive && !listening ==>
        rec.listening && !st.userSpeaking && rec.calls == old(rec.calls) + [StartListening]
      ensures !(interviewActive && !listening) ==>
        st.userSpeaking == old(st.userSpeaking) && rec.listening == old(rec.listening) && rec.calls == old(rec.calls)
      ensures rec.transcript == old(rec.transcript)
    {
      if interviewActive && !listening {
        rec.Start();
        st.userSpeaking := false;
      }
    }

    method OnPause(st: InterviewState)
      modifies st`isAISpeaking
      ensures !st.isAISpeaking
    {
      st.isAISpeaking := false;
    }

    method OnError(st: InterviewState)
      modifies st`isAISpeaking
      ensures !st.isAISpeaking
    {
      st.isAISpeaking := false;
    }

    /**
      `enableAudio`: resume a suspended context, call `play()` on every bound
      element (each rejection is caught on its own) and clear the prompt. A
      `resume()` that throws skips the rest. Without a context the optional
      chain finds no suspended state, so `resume` is `NotSuspended`.
     */
    method EnableAudio(st: InterviewState, resume: Resume)
      requires !contextOpen ==> resume == NotSuspended
      modifies st`showAutoplayPrompt, this`playRequested
      ensures resume.ResumeFailed? ==>
        st.showAutoplayPrompt == old(st.showAutoplayPrompt) && playRequested == old(playRequested)
      ensures !resume.ResumeFailed? ==>
        !st.showAutoplayPrompt && playRequested == old(playRequested) + elements.Values
    {
      if resume.ResumeFailed? {
        return;
      }
      playRequested := playRequested + elements.Values;
      st.showAutoplayPrompt := false;
    }

    /**
      `speakTextFallback`: cancel what is being spoken and speak `text` at
      the fixed rate, pitch and volume, in the first preferred voice if there
      is one. Without a synthesis engine nothing happens.
     */
    method SpeakTextFallback(text: string, voices: seq<Voice>)
      modifies this`utterances, this`cancels
      ensures synthesisAvailable ==>
        cancels == old(cancels) + 1 &&
        utterances == old(utterances) + [Utterance(text, TTS_RATE, TTS_PITCH, TTS_VOLUME, FallbackVoice(voices))]
      ensures !synthesisAvailable ==> cancels == old(cancels) && utterances == old(utterances)
    {
      if synthesisAvailable {
        cancels := cancels + 1;
        utterances := utterances + [Utterance(text, 0.9, 1.0, 1.0, FallbackVoice(voices))];
      }
    }

    /** The utterance's `onstart`. */
    method OnUtteranceStart(st: InterviewState, rec: SpeechRecognizer, listening: bool)
      modifies st`isAISpeaking, st`audioTestResult, rec
      ensures st.isAISpeaking && st.audioTestResult == TestSucceeded
      ensures rec.calls == old(rec.calls) + (if listening then [StopListening] else [])
      ensures rec.listening == (old(rec.listening) && !listening) && rec.transcript == old(rec.transcript)
    {
      st.isAISpeaking := true;
      st.audioTestResult := TestSucceeded;
      if listening {
        rec.Stop();
      }
    }

    /** The utterance's `onend`, first half. */
    method OnUtteranceEnd(st: InterviewState)
      modifies st`isAISpeaking
      ensures !st.isAISpeaking
    {
      st.isAISpeaking := false;
    }

    /** The utterance's `onend`, second half: like the element's, but `userSpeaking` is left alone. */
    method ResumeAfterUtterance(rec: SpeechRecognizer, interviewActive: bool, listening: bool)
      modifies rec
      ensures interviewActive && !listening ==> rec.listening && rec.calls == old(rec.calls) + [StartListening]
      ensures !(interviewActive && !listening) ==> rec.listening == old(rec.listening) && rec.calls == old(rec.calls)
      ensures rec.transcript == old(rec.transcript)
    {
      if interviewActive && !listening {
        rec.Start();
      }
    }

    method OnUtteranceError(st: InterviewState)
      modifies st`isAISpeaking, st`audioTestResult
      ensures !st.isAISpeaking && st.audioTestResult == TestFailed
    {
      st.isAISpeaking := false;
      st.audioTestResult := TestFailed;
    }

    /**
      The unmount clean-up: pause and remove every bound element, empty the
      registry, cancel synthesis, close the context.
     */
    method Dispose()
      requires Valid()
      modifies this`elements, this`detached, this`cancels, this`contextOpen
      ensures Valid() && elements == map[]
      ensures detached == old(detached) + old(elements).Values
      ensures cancels == old(cancels) + (if synthesisAvailable then 1 else 0)
      ensures !contextOpen
    {
      detached := detached + elements.Values;
      elements := map[];
      if synthesisAvailable {
        cancels := cancels + 1;
      }
      contextOpen := false;
    }
  }

  // ---------------------------------------------------------------------
  // Handlers run between two attempts of a retry chain
  // ---------------------------------------------------------------------

  /**
    Two elements start their chains, as the binding loop does. The first
    one's `play()` is always rejected, so its chain raises the autoplay
    prompt. `enableAudio` clears it while the second element's retry is
    still scheduled, and when that chain is rejected to the end the prompt
    is raised again.
   */
  method PromptReturnsAfterEnable() returns (clearedByEnable: bool, raisedAgain: bool)
    ensures clearedByEnable && raisedAgain
  {
    var st := new InterviewState(0);
    var am := new AudioManager(true, true);
    am.PlayWithRetry(0, PLAY_RETRIES);
    am.PlayWithRetry(1, PLAY_RETRIES);
    AlwaysRejectedPlay([]);
    var _ := am.SettleChain(st, 0, []);
    am.SettlePlay(st, 1, false);
    am.EnableAudio(st, NotSuspended);
    clearedByEnable := !st.showAutoplayPrompt;
    am.FireRetry(1);
    assert am.retryTimers == map[];
    ExhaustedIff([], PLAY_RETRIES - 1);
    var _ := am.SettleChain(st, 1, []);
    raisedAgain := st.showAutoplayPrompt;
  }

  /**
    The unmount clean-up tears the bound element down but leaves its
    scheduled retry in place: when the timer fires, `play()` is called on
    the removed element once more.
   */
  method RetryAfterDispose() returns (tornDown: bool, playingAgain: bool)
    ensures tornDown && playingAgain
  {
    var st := new InterviewState(0);
    var am := new AudioManager(true, true);
    var tracks := [RemoteTrack("a", false)];
    assert TrackKey(tracks[0], 0) == "a";
    assert "a" in AttachedKeys(tracks, |tracks|);
    am.Bind(tracks);
    var e := am.elements["a"];
    assert e in NewElements(map[], am.elements);
    am.SettlePlay(st, e, false);
    am.Dispose();
    tornDown := e in am.detached;
    am.FireRetry(e);
    playingAgain := e in am.settling;
  }
}
