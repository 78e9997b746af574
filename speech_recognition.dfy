/**
 * The voice-capture session of src/hooks/useSpeechRecognition.ts: a two-state
 * machine (idle / listening) around an optional browser recognizer.
 *
 * `Step` is the specification of one event; class `Session` holds the hook's
 * state in fields and each of its methods is proved to perform `Step`.
 */
module SpeechRecognition {
  import opened Wrappers

  // ---------------------------------------------------------------------------
  // The transcript published by a `result` event
  // ---------------------------------------------------------------------------

  /** One entry of the recognizer's result list (interim or final): its alternatives, best first. */
  datatype RecognitionResult = RecognitionResult(isFinal: bool, alternatives: seq<string>)

  /** `parts.join('')` */
  function Join(parts: seq<string>): string
  {
    if parts == [] then "" else parts[0] + Join(parts[1..])
  }

  predicate EveryResultHasAlternative(results: seq<RecognitionResult>)
  {
    forall i :: 0 <= i < |results| ==> results[i].alternatives != []
  }

  /** `results.map(r => r[0]).map(a => a.transcript)` */
  function FirstAlternatives(results: seq<RecognitionResult>): (parts: seq<string>)
    requires EveryResultHasAlternative(results)
    ensures |parts| == |results|
    ensures forall i :: 0 <= i < |results| ==> parts[i] == results[i].alternatives[0]
  {
    if results == [] then [] else [results[0].alternatives[0]] + FirstAlternatives(results[1..])
  }

  /**
   * What the `result` handler publishes: the in-order concatenation of every
   * result's first alternative. When some result has no alternative, `r[0]`
   * is undefined, reading its `transcript` throws, and nothing is published (None).
   */
  function ResultTranscript(results: seq<RecognitionResult>): (t: Option<string>)
    ensures t.Some? <==> EveryResultHasAlternative(results)
    ensures results == [] ==> t == Some("")
  {
    if EveryResultHasAlternative(results) then Some(Join(FirstAlternatives(results))) else None
  }

  lemma {:induction false} JoinAppend(a: seq<string>, b: seq<string>)
    ensures Join(a + b) == Join(a) + Join(b)
  {
    if a == [] {
      assert a + b == b;
    } else {
      assert (a + b)[1..] == a[1..] + b;
      JoinAppend(a[1..], b);
    }
  }

  /** Part `i` of a join sits, unaltered, right after the join of the parts before it. */
  lemma JoinKeepsOrder(parts: seq<string>, i: nat)
    requires i < |parts|
    ensures var start := |Join(parts[..i])|;
      start + |parts[i]| <= |Join(parts)| && Join(parts)[start..start + |parts[i]|] == parts[i]
  {
    assert parts == parts[..i] + ([parts[i]] + parts[i + 1..]);
    JoinAppend(parts[..i], [parts[i]] + parts[i + 1..]);
    JoinAppend([parts[i]], parts[i + 1..]);
    assert [parts[i]][1..] == [];
  }

  /**
   * The published transcript holds the first alternative of result `i`
   * immediately after the transcript of the results before it: the results
   * appear in result order and none is altered.
   */
  lemma TranscriptKeepsResultOrder(results: seq<RecognitionResult>, i: nat)
    requires EveryResultHasAlternative(results) && i < |results|
    ensures ResultTranscript(results[..i]).Some?
    ensures var t := ResultTranscript(results).value;
      var start := |ResultTranscript(results[..i]).value|;
      var part := results[i].alternatives[0];
      start + |part| <= |t| && t[start..start + |part|] == part
  {
    var parts := FirstAlternatives(results);
    assert FirstAlternatives(results[..i]) == parts[..i];
    JoinKeepsOrder(parts, i);
  }

  /** A further result extends the transcript by exactly its first alternative. */
  lemma TranscriptExtends(results: seq<RecognitionResult>, next: RecognitionResult)
    requires EveryResultHasAlternative(results) && next.alternatives != []
    ensures ResultTranscript(results + [next])
         == Some(ResultTranscript(results).value + next.alternatives[0])
  {
    var parts := FirstAlternatives(results);
    assert EveryResultHasAlternative(results + [next]) by {
      forall i | 0 <= i < |results| + 1
        ensures (results + [next])[i].alternatives != []
      {
        if i < |results| { assert (results + [next])[i] == results[i]; }
      }
    }
    var first := next.alternatives[0];
    assert FirstAlternatives(results + [next]) == parts + [first];
    JoinAppend(parts, [first]);
    assert Join([first]) == first + Join([]);
    assert Join([first]) == first;
    assert ResultTranscript(results) == Some(Join(parts));
    assert ResultTranscript(results + [next]) == Some(Join(parts + [first]));
  }

  // ---------------------------------------------------------------------------
  // The session as a state machine
  // ---------------------------------------------------------------------------

  /** The calls the hook makes on the recognizer device. */
  datatype DeviceCall = DeviceStart | DeviceStop

  /**
   * `hasDevice`: the setup effect found a recognizer (`recognitionRef.current`
   * is set). `disposed`: the effect's cleanup has run (the component unmounted).
   * `calls`: every start/stop issued to the device, in order.
   */
  datatype SessionState = SessionState(
    hasDevice: bool, listening: bool, transcript: string, disposed: bool, calls: seq<DeviceCall>)

  datatype SessionEvent =
    | CallStart                                 // startListening()
    | CallStop                                  // stopListening()
    | DeviceResult(results: seq<RecognitionResult>)  // recognition.onresult
    | DeviceEnd                                 // recognition.onend
    | DeviceError(reason: string)               // recognition.onerror
    | Unmount                                   // the effect's cleanup

  /** State right after the setup effect: idle, empty transcript, nothing asked of the device. */
  function Init(hasDevice: bool): SessionState
  {
    SessionState(hasDevice, false, "", false, [])
  }

  /**
   * Without a device the session is inert; while mounted and listening, the
   * last call made on the device is a start (so the hook never starts a
   * device it believes is running).
   */
  predicate Inv(s: SessionState)
  {
    (!s.hasDevice ==> !s.listening && s.transcript == "" && !s.disposed && s.calls == [])
    && (s.listening && !s.disposed ==> s.calls != [] && s.calls[|s.calls| - 1] == DeviceStart)
  }

  /**
   * One event. With no device no handler is attached and both guards fail,
   * so nothing happens; after the cleanup nothing reaches the hook.
   */
  function Step(s: SessionState, e: SessionEvent): (t: SessionState)
    ensures Inv(s) ==> Inv(t)
    ensures t.hasDevice == s.hasDevice
  {
    if !s.hasDevice || s.disposed then s
    else match e
      case CallStart =>
        if s.listening then s
        else s.(transcript := "", calls := s.calls + [DeviceStart], listening := true)
      case CallStop =>
        if s.listening then s.(calls := s.calls + [DeviceStop], listening := false) else s
      case DeviceResult(results) =>
        (match ResultTranscript(results)
         case Some(t) => s.(transcript := t)
         case None => s)
      case DeviceEnd => s.(listening := false)
      case DeviceError(_) => s.(listening := false)
      case Unmount => s.(calls := s.calls + [DeviceStop], disposed := true)
  }

  /** The state after a sequence of events. */
  function Run(s: SessionState, events: seq<SessionEvent>): (t: SessionState)
    ensures Inv(s) ==> Inv(t)
    ensures t.hasDevice == s.hasDevice
  {
    if events == [] then s else Step(Run(s, events[..|events| - 1]), events[|events| - 1])
  }

  /** The events that decide the listening flag. */
  predicate IsControl(e: SessionEvent)
  {
    e.CallStart? || e.CallStop? || e.DeviceEnd? || e.DeviceError?
  }

  /** The most recent control event, or None when the events hold none. */
  function LastControl(events: seq<SessionEvent>): (c: Option<SessionEvent>)
    ensures c.None? <==> forall k :: 0 <= k < |events| ==> !IsControl(events[k])
    ensures c.Some? ==> IsControl(c.value)
    ensures c.Some? ==>
      exists k :: 0 <= k < |events| && events[k] == c.value
                  && forall j :: k < j < |events| ==> !IsControl(events[j])
  {
    if events == [] then None
    else if IsControl(events[|events| - 1]) then Some(events[|events| - 1])
    else LastControl(events[..|events| - 1])
  }

  /**
   * Over any run of a mounted session, the session listens exactly when it has
   * a device and the most recent start/stop/end/error event is a start: a
   * start from listening and a stop from idle change nothing, and an end or
   * error forces idle.
   */
  lemma {:induction false} ListeningIffLastControlIsStart(hasDevice: bool, events: seq<SessionEvent>)
    requires Unmount !in events
    ensures !Run(Init(hasDevice), events).disposed
    ensures Run(Init(hasDevice), events).listening
        <==> hasDevice && LastControl(events) == Some(CallStart)
  {
    if events != [] {
      var before := events[..|events| - 1];
      assert forall e :: e in before ==> e in events;
      ListeningIffLastControlIsStart(hasDevice, before);
    }
  }

  /** With no recognizer, no sequence of events changes anything. */
  lemma NoDeviceIsInert(events: seq<SessionEvent>)
    ensures Run(Init(false), events) == Init(false)
  {
  }

  /**
   * A result event replaces the transcript: the new value is the same
   * whatever the transcript was before.
   */
  lemma ResultReplacesTranscript(s: SessionState, old_transcript: string, results: seq<RecognitionResult>)
    requires s.hasDevice && !s.disposed && EveryResultHasAlternative(results)
    ensures Step(s, DeviceResult(results)).transcript
         == Step(s.(transcript := old_transcript), DeviceResult(results)).transcript
         == Join(FirstAlternatives(results))
  {
  }

  // ---------------------------------------------------------------------------
  // The hook's state, updated in place
  // ---------------------------------------------------------------------------

  class Session {
    const hasDevice: bool
    var isListening: bool
    var transcript: string
    var disposed: bool
    ghost var deviceCalls: seq<DeviceCall>

    ghost function State(): SessionState
      reads this
    {
      SessionState(hasDevice, isListening, transcript, disposed, deviceCalls)
    }

    ghost predicate Valid()
      reads this
    {
      Inv(State())
    }

    /** Mounting: state hooks start idle with an empty transcript; the effect looks for a recognizer. */
    constructor (deviceAvailable: bool)
      ensures Valid() && State() == Init(deviceAvailable)
      ensures hasDevice == deviceAvailable && !isListening && transcript == "" && deviceCalls == []
    {
      hasDevice := deviceAvailable;
      isListening := false;
      transcript := "";
      disposed := false;
      deviceCalls := [];
    }

    method StartListening()
      requires Valid() && !disposed
      modifies this
      ensures Valid() && State() == Step(old(State()), CallStart)
      ensures old(hasDevice && !isListening) ==>
        isListening && transcript == "" && deviceCalls == old(deviceCalls) + [DeviceStart]
      ensures !old(hasDevice && !isListening) ==> State() == old(State())
    {
      if hasDevice && !isListening {
        transcript := "";
        deviceCalls := deviceCalls + [DeviceStart];
        isListening := true;
      }
    }

    method StopListening()
      requires Valid() && !disposed
      modifies this
      ensures Valid() && State() == Step(old(State()), CallStop)
      ensures old(hasDevice && isListening) ==>
        !isListening && transcript == old(transcript) && deviceCalls == old(deviceCalls) + [DeviceStop]
      ensures !old(hasDevice && isListening) ==> State() == old(State())
    {
      if hasDevice && isListening {
        deviceCalls := deviceCalls + [DeviceStop];
        isListening := false;
      }
    }

    /** `recognition.onresult`: only reachable when a device exists. */
    method OnResult(results: seq<RecognitionResult>)
      requires Valid() && hasDevice && !disposed
      modifies this
      ensures Valid() && State() == Step(old(State()), DeviceResult(results))
      ensures EveryResultHasAlternative(results) ==> transcript == Join(FirstAlternatives(results))
      ensures !EveryResultHasAlternative(results) ==> transcript == old(transcript)
      ensures isListening == old(isListening) && deviceCalls == old(deviceCalls)
    {
      match ResultTranscript(results) {
        case Some(t) => transcript := t;
        case None =>
      }
    }

    /** `recognition.onend`: the device stopped on its own. */
    method OnEnd()
      requires Valid() && hasDevice && !disposed
      modifies this
      ensures Valid() && State() == Step(old(State()), DeviceEnd)
      ensures !isListening && transcript == old(transcript) && deviceCalls == old(deviceCalls)
    {
      isListening := false;
    }

    /** `recognition.onerror`: the reason is only logged. */
    method OnError(reason: string)
      requires Valid() && hasDevice && !disposed
      modifies this
      ensures Valid() && State() == Step(old(State()), DeviceError(reason))
      ensures !isListening && transcript == old(transcript) && deviceCalls == old(deviceCalls)
    {
      isListening := false;
    }

    /** The effect's cleanup, registered only when a device was found: stops the device whatever the state. */
    method Cleanup()
      requires Valid() && hasDevice && !disposed
      modifies this
      ensures Valid() && State() == Step(old(State()), Unmount)
      ensures deviceCalls == old(deviceCalls) + [DeviceStop] && disposed
      ensures isListening == old(isListening) && transcript == old(transcript)
    {
      deviceCalls := deviceCalls + [DeviceStop];
      disposed := true;
    }
  }
}
