/**
 The push-to-talk session controller of `SpeachToText`: the flags
 `activation_key_pressed` and `currently_typing`, the liveness of the
 `listen` worker thread and the frame list, driven by `on_press`,
 `on_release` and the body of `listen`.

 The worker's liveness is the phase: Idle when no worker runs, Listening
 while its read loop runs, Processing from the loop's exit until it
 returns. A session start is atomic: the press that spawns the worker also
 performs its first statement (setting `activation_key_pressed`). The post-loop
 code is split at the `keyboard.type` call, so that the state in which
 `currently_typing` is true can be observed by other events.

 The events are modelled first as functions on a `State` value, so that
 properties of whole event sequences can be proved; the class `Dictation`
 then has the source's fields and one method per event, each tied to the
 corresponding function.
 */
module Session {
  import opened Pcm
  import opened Inference
  import opened Cleanup

  /** A keyboard key as delivered by the key listener. */
  type Key = int

  datatype Phase = Idle | Listening | Processing

  /** The controller's fields, plus three ghost records: every text passed
      to `keyboard.type` in call order, the number of the session that typed
      each of them, and how many sessions were started (session n is the one
      the n-th successful press started). */
  datatype State = State(
    phase: Phase,
    keyPressed: bool,
    typing: bool,
    frames: seq<seq<Byte>>,
    typed: seq<string>,
    typedIn: seq<nat>,
    sessions: nat)

  /** The state `__init__` leaves behind. */
  function Initial(): State
  {
    State(Idle, false, false, [], [], [], 0)
  }

  /** `on_press`: ignored while typing, for other keys, while the activation
      key is already held, and while a worker is alive; otherwise a new
      session starts listening. */
  function Press(s: State, activationKey: Key, k: Key): State
  {
    if s.typing then s
    else if k == activationKey && !s.keyPressed then
      if s.phase != Idle then s
      else s.(phase := Listening, keyPressed := true, sessions := s.sessions + 1)
    else s
  }

  /** `on_release`: releasing the activation key clears the flag, which ends
      the read loop of a listening worker. */
  function Release(s: State, activationKey: Key, k: Key): State
  {
    if k == activationKey then
      s.(keyPressed := false, phase := if s.phase == Listening then Processing else s.phase)
    else s
  }

  /** One iteration of the read loop: the bytes available on the stream are
      appended, if there are any. Outside the loop nothing is read. */
  function Read(s: State, chunk: seq<Byte>): State
  {
    if s.phase == Listening && |chunk| > 0 then s.(frames := s.frames + [chunk]) else s
  }

  /** The code after the read loop, up to the start of `keyboard.type`. An
      odd byte total makes `infer` raise: the worker dies without resetting
      the frames. Otherwise the frames are reset, and the cleaned text, if
      there is one, starts being typed. */
  function AfterLoop(s: State, engine: seq<Int16> -> string): State
  {
    if s.phase != Processing || s.typing then s
    else
      match Infer(s.frames, engine)
      case MalformedAudio => s.(phase := Idle)
      case Ok(text) => AfterInfer(s, text)
  }

  /** The part of the post-loop code after `infer` returned `text`: the
      frames are reset, and the cleaned text, if there is one, starts being
      typed, logged with the number of the running session. */
  function AfterInfer(s: State, text: string): State
  {
    match Clean(text)
    case NothingDetected => s.(phase := Idle, keyPressed := false, frames := [])
    case Text(t) => s.(frames := [], typing := true, typed := s.typed + [t], typedIn := s.typedIn + [s.sessions])
  }

  /** The return of `keyboard.type` and the end of `listen`. */
  function AfterTyping(s: State): State
  {
    if s.typing then s.(typing := false, keyPressed := false, phase := Idle) else s
  }

  datatype Event =
    | PressKey(pressed: Key)
    | ReleaseKey(released: Key)
    | Chunk(data: seq<Byte>)
    | LoopExited
    | TypingDone

  function Step(s: State, activationKey: Key, engine: seq<Int16> -> string, e: Event): State
  {
    match e
    case PressKey(k) => Press(s, activationKey, k)
    case ReleaseKey(k) => Release(s, activationKey, k)
    case Chunk(data) => Read(s, data)
    case LoopExited => AfterLoop(s, engine)
    case TypingDone => AfterTyping(s)
  }

  /** The state after a sequence of events, applied in order. */
  function Run(s: State, activationKey: Key, engine: seq<Int16> -> string, events: seq<Event>): State
    decreases |events|
  {
    if events == [] then s
    else Run(Step(s, activationKey, engine, events[0]), activationKey, engine, events[1..])
  }

  /** The controller's invariant. The flags agree with the phase; only a
      finishing worker types, and it has reset the frames by then; between
      sessions the frames are empty unless a malformed buffer was left
      behind; every typed text is normalized; and each typed text is tagged
      with the session that typed it, the tags strictly increase, and the
      session still running before its text is typed has no tag yet. */
  ghost predicate Inv(s: State)
  {
    && (s.phase == Idle ==> !s.keyPressed && !s.typing)
    && (s.phase == Listening ==> s.keyPressed && !s.typing)
    && (s.phase == Processing ==> !s.keyPressed)
    && (s.typing ==> s.frames == [])
    && (s.phase == Idle ==> s.frames == [] || TotalBytes(s.frames) % 2 == 1)
    && (forall i :: 0 <= i < |s.typed| ==> IsNormalized(s.typed[i]))
    && |s.typed| <= s.sessions
    && (s.phase == Listening || (s.phase == Processing && !s.typing) ==> |s.typed| < s.sessions)
    && |s.typedIn| == |s.typed|
    && (forall i, j :: 0 <= i < j < |s.typedIn| ==> s.typedIn[i] < s.typedIn[j])
    && (forall i :: 0 <= i < |s.typedIn| ==> 1 <= s.typedIn[i] <= s.sessions)
    && (s.phase == Listening || (s.phase == Processing && !s.typing) ==>
          forall i :: 0 <= i < |s.typedIn| ==> s.typedIn[i] < s.sessions)
  }

  lemma InitialInv()
    ensures Inv(Initial())
  {
  }

  /** A finishing worker keeps the invariant and types at most once. */
  lemma AfterLoopInv(s: State, engine: seq<Int16> -> string)
    requires Inv(s)
    ensures Inv(AfterLoop(s, engine))
    ensures s.typed <= AfterLoop(s, engine).typed
    ensures |AfterLoop(s, engine).typed| <= |s.typed| + 1
    ensures AfterLoop(s, engine).sessions == s.sessions
    ensures AfterLoop(s, engine).frames == [] || AfterLoop(s, engine).frames == s.frames
    ensures TotalBytes(s.frames) % 2 == 1 ==>
      AfterLoop(s, engine).frames == s.frames && AfterLoop(s, engine).typed == s.typed
  {
    if s.phase == Processing && !s.typing {
      match Infer(s.frames, engine)
      case MalformedAudio =>
        assert AfterLoop(s, engine) == s.(phase := Idle);
        MalformedInv(s);
      case Ok(text) =>
        assert AfterLoop(s, engine) == AfterInfer(s, text);
        AfterInferInv(s, text);
    }
  }

  /** The worker that dies on a malformed buffer leaves a valid idle state. */
  lemma MalformedInv(s: State)
    requires Inv(s) && s.phase == Processing && !s.typing && TotalBytes(s.frames) % 2 == 1
    ensures Inv(s.(phase := Idle))
  {
  }

  /** Once `infer` has returned, the rest of the worker keeps the invariant,
      resets the frames, and types at most one text, raising the typing
      guard exactly when it does. */
  lemma AfterInferInv(s: State, text: string)
    requires Inv(s) && s.phase == Processing && !s.typing
    ensures Inv(AfterInfer(s, text))
    ensures AfterInfer(s, text).frames == []
    ensures AfterInfer(s, text).sessions == s.sessions
    ensures AfterInfer(s, text).typed == if Clean(text).Text? then s.typed + [Clean(text).text] else s.typed
    ensures AfterInfer(s, text).typing <==> Clean(text).Text?
  {
    match Clean(text)
    case NothingDetected =>
    case Text(t) =>
      CleanShape(text);
      StartTypingInv(s, t);
  }

  /** Typing a normalized text, tagged with the running session, keeps the
      invariant. */
  lemma StartTypingInv(s: State, t: string)
    requires Inv(s) && s.phase == Processing && !s.typing && IsNormalized(t)
    ensures Inv(s.(frames := [], typing := true, typed := s.typed + [t], typedIn := s.typedIn + [s.sessions]))
  {
    TypedAppend(s.typed, t);
    TagAppend(s.typedIn, s.sessions);
  }

  /** Appending a normalized text keeps every typed text normalized. */
  lemma TypedAppend(typed: seq<string>, t: string)
    requires forall i :: 0 <= i < |typed| ==> IsNormalized(typed[i])
    requires IsNormalized(t)
    ensures forall i :: 0 <= i < |typed + [t]| ==> IsNormalized((typed + [t])[i])
    ensures typed <= typed + [t]
  {
  }

  /** Tagging a new text with a session number above every earlier tag keeps
      the tags strictly increasing and within the sessions started. */
  lemma TagAppend(tags: seq<nat>, n: nat)
    requires forall i, j :: 0 <= i < j < |tags| ==> tags[i] < tags[j]
    requires forall i :: 0 <= i < |tags| ==> 1 <= tags[i] < n
    requires 1 <= n
    ensures forall i, j :: 0 <= i < j < |tags + [n]| ==> (tags + [n])[i] < (tags + [n])[j]
    ensures forall i :: 0 <= i < |tags + [n]| ==> 1 <= (tags + [n])[i] <= n
  {
  }

  /** Every event keeps the invariant, only ever appends to the typed log,
      and appends at most one text. */
  lemma StepInv(s: State, activationKey: Key, engine: seq<Int16> -> string, e: Event)
    requires Inv(s)
    ensures Inv(Step(s, activationKey, engine, e))
    ensures s.typed <= Step(s, activationKey, engine, e).typed
    ensures |Step(s, activationKey, engine, e).typed| <= |s.typed| + 1
    ensures s.sessions <= Step(s, activationKey, engine, e).sessions
  {
    match e
    case LoopExited => AfterLoopInv(s, engine);
    case Chunk(data) =>
      assert Read(s, data).phase == s.phase;
    case _ =>
  }

  /** The post-loop code raises the typing guard exactly when it passes a
      text to `keyboard.type`, and does nothing while a text is being typed. */
  lemma AfterLoopGuard(s: State, engine: seq<Int16> -> string)
    ensures AfterLoop(s, engine).typed != s.typed <==> (!s.typing && AfterLoop(s, engine).typing)
    ensures s.typing ==> AfterLoop(s, engine) == s
  {
    if s.phase == Processing && !s.typing {
      match Infer(s.frames, engine)
      case MalformedAudio =>
        assert AfterLoop(s, engine) == s.(phase := Idle);
      case Ok(text) =>
        assert AfterLoop(s, engine) == AfterInfer(s, text);
        match Clean(text)
        case NothingDetected =>
        case Text(t) =>
          assert AfterInfer(s, text).typed == s.typed + [t];
    }
  }

  /** The typing guard: `currently_typing` is raised by exactly the event
      that passes a text to `keyboard.type`, and once raised it stays raised
      through every event until `keyboard.type` returns. */
  lemma GuardExactlyDuringTyping(s: State, activationKey: Key, engine: seq<Int16> -> string, e: Event)
    ensures Step(s, activationKey, engine, e).typed != s.typed <==>
      (!s.typing && Step(s, activationKey, engine, e).typing)
    ensures s.typing ==> (Step(s, activationKey, engine, e).typing <==> !e.TypingDone?)
  {
    match e
    case PressKey(k) =>
    case ReleaseKey(k) =>
    case Chunk(data) =>
    case LoopExited =>
      assert Step(s, activationKey, engine, e) == AfterLoop(s, engine);
      AfterLoopGuard(s, engine);
    case TypingDone =>
  }

  /** Any sequence of events keeps the invariant; in particular the typed
      log only grows, every typed text is normalized, and there are never
      more typed texts than sessions started. */
  lemma {:induction false} RunInv(s: State, activationKey: Key, engine: seq<Int16> -> string, events: seq<Event>)
    requires Inv(s)
    ensures Inv(Run(s, activationKey, engine, events))
    ensures s.typed <= Run(s, activationKey, engine, events).typed
    ensures s.sessions <= Run(s, activationKey, engine, events).sessions
    decreases |events|
  {
    if events != [] {
      StepInv(s, activationKey, engine, events[0]);
      RunInv(Step(s, activationKey, engine, events[0]), activationKey, engine, events[1..]);
    }
  }

  /** From start-up, at most one text is typed per session: every typed
      text carries the number of a session already started, and no two
      typed texts carry the same number. Every typed text is cleaned text. */
  lemma AtMostOneTypingPerSession(activationKey: Key, engine: seq<Int16> -> string, events: seq<Event>)
    ensures var r := Run(Initial(), activationKey, engine, events);
      && |r.typedIn| == |r.typed| <= r.sessions
      && (forall i :: 0 <= i < |r.typedIn| ==> 1 <= r.typedIn[i] <= r.sessions)
      && (forall i, j :: 0 <= i < |r.typedIn| && 0 <= j < |r.typedIn| && i != j ==> r.typedIn[i] != r.typedIn[j])
      && (forall i :: 0 <= i < |r.typed| ==> IsNormalized(r.typed[i]))
  {
    RunInv(Initial(), activationKey, engine, events);
    var r := Run(Initial(), activationKey, engine, events);
    forall i, j | 0 <= i < |r.typedIn| && 0 <= j < |r.typedIn| && i != j
      ensures r.typedIn[i] != r.typedIn[j]
    {
      if i < j {
        assert r.typedIn[i] < r.typedIn[j];
      } else {
        assert r.typedIn[j] < r.typedIn[i];
      }
    }
  }

  /** The press guard: a press changes the state exactly when it is the
      activation key, pressed while not typing, not already held, and with
      no worker alive; it then starts one listening session and touches
      nothing else. */
  lemma PressGuard(s: State, activationKey: Key, k: Key)
    ensures Press(s, activationKey, k) != s <==>
      !s.typing && k == activationKey && !s.keyPressed && s.phase == Idle
    ensures Press(s, activationKey, k) != s ==>
      Press(s, activationKey, k) == s.(phase := Listening, keyPressed := true, sessions := s.sessions + 1)
  {
  }

  /** Under the invariant, when the frames hold no leftover malformed buffer
      a new session starts with no frames. */
  lemma SessionStartsWithNoFrames(s: State, activationKey: Key, k: Key)
    requires Inv(s) && TotalBytes(s.frames) % 2 == 0
    requires Press(s, activationKey, k) != s
    ensures Press(s, activationKey, k).frames == []
  {
  }

  /** Feedback immunity: while `currently_typing` is true no key event and no
      read changes the state. */
  lemma TypingIgnoresEvents(s: State, activationKey: Key, k: Key, chunk: seq<Byte>)
    requires Inv(s) && s.typing
    ensures Press(s, activationKey, k) == s
    ensures Release(s, activationKey, k) == s
    ensures Read(s, chunk) == s
  {
  }

  /** Releasing the activation key clears the flag and moves a listening
      session to processing; releasing another key changes nothing. */
  lemma ReleaseSpec(s: State, activationKey: Key, k: Key)
    requires Inv(s)
    ensures k != activationKey ==> Release(s, activationKey, k) == s
    ensures k == activationKey && s.phase == Listening ==>
      Release(s, activationKey, k) == s.(keyPressed := false, phase := Processing)
    ensures k == activationKey && s.phase != Listening ==> Release(s, activationKey, k) == s
  {
  }

  /** Reads append in read order while listening and are ignored otherwise;
      the decoded buffer grows by the chunk's samples, at the end. */
  lemma ReadSpec(s: State, chunk: seq<Byte>)
    requires s.phase == Listening ==> TotalBytes(s.frames) % 2 == 0 && |chunk| % 2 == 0
    ensures s.phase != Listening ==> Read(s, chunk) == s
    ensures s.phase == Listening ==>
      DecodeFrames(Read(s, chunk).frames) == Ok(DecodeFrames(s.frames).value + DecodeSamples(chunk).value)
  {
    if s.phase == Listening && |chunk| > 0 {
      DecodeFramesAppend(s.frames, chunk);
    }
    if s.phase == Listening && |chunk| == 0 {
      assert DecodeSamples(chunk).value == [];
      assert DecodeFrames(s.frames).value + [] == DecodeFrames(s.frames).value;
    }
  }

  /** The state at the end of a session, once the worker has left its read
      loop: the finishing code, followed by the end of typing if it typed. */
  function Complete(s: State, engine: seq<Int16> -> string): State
  {
    var f := AfterLoop(s, engine);
    if f.typing then AfterTyping(f) else f
  }

  /** End of session: no worker, no flag set, not typing, frames reset
      unless the buffer was malformed, and the typed log extended by the
      cleaned text exactly when decoding succeeds and cleanup finds text. */
  lemma CompleteSpec(s: State, engine: seq<Int16> -> string)
    requires Inv(s) && s.phase == Processing && !s.typing
    ensures Complete(s, engine).phase == Idle
    ensures !Complete(s, engine).keyPressed && !Complete(s, engine).typing
    ensures Complete(s, engine).frames == if TotalBytes(s.frames) % 2 == 0 then [] else s.frames
    ensures Complete(s, engine).typed ==
      match Infer(s.frames, engine)
      case Ok(text) => (if Clean(text).Text? then s.typed + [Clean(text).text] else s.typed)
      case MalformedAudio => s.typed
  {
  }

  /** Short-buffer skip: a buffer of at most 200 whole samples ends the
      session with nothing typed, whatever the engine. */
  lemma ShortBufferTypesNothing(s: State, engine: seq<Int16> -> string)
    requires Inv(s) && s.phase == Processing && !s.typing
    requires TotalBytes(s.frames) % 2 == 0 && TotalBytes(s.frames) <= 2 * MaxSkippedSamples
    ensures AfterLoop(s, engine) == s.(phase := Idle, frames := [])
  {
    assert Clean("") == NothingDetected;
  }

  /** All chunks in the events have an even length, as reads of 16-bit
      frames from the stream always do. */
  predicate EvenChunks(events: seq<Event>)
  {
    forall i :: 0 <= i < |events| ==> events[i].Chunk? ==> |events[i].data| % 2 == 0
  }

  /** The rest of a sequence of whole-sample chunks is one too. */
  lemma EvenChunksTail(events: seq<Event>)
    requires events != [] && EvenChunks(events)
    ensures EvenChunks(events[1..])
  {
    forall i | 0 <= i < |events[1..]| && events[1..][i].Chunk?
      ensures |events[1..][i].data| % 2 == 0
    {
      assert events[1..][i] == events[i + 1];
    }
  }

  /** A whole-sample chunk keeps the parity of the byte total. */
  lemma ReadParity(s: State, chunk: seq<Byte>)
    requires |chunk| % 2 == 0
    ensures TotalBytes(Read(s, chunk).frames) % 2 == TotalBytes(s.frames) % 2
    ensures Read(s, chunk).typed == s.typed
  {
    if s.phase == Listening && |chunk| > 0 {
      ConcatAppend(s.frames, chunk);
    }
  }

  /** One event with whole-sample chunks keeps the byte total's parity and,
      while it is odd, leaves the typed log alone. */
  lemma StepParity(s: State, activationKey: Key, engine: seq<Int16> -> string, e: Event)
    requires Inv(s)
    requires e.Chunk? ==> |e.data| % 2 == 0
    ensures TotalBytes(Step(s, activationKey, engine, e).frames) % 2 == TotalBytes(s.frames) % 2
    ensures TotalBytes(s.frames) % 2 == 1 ==> Step(s, activationKey, engine, e).typed == s.typed
  {
    match e
    case PressKey(k) =>
      assert Press(s, activationKey, k).frames == s.frames;
    case ReleaseKey(k) =>
      assert Release(s, activationKey, k).frames == s.frames;
    case Chunk(data) =>
      ReadParity(s, data);
    case LoopExited =>
      assert Step(s, activationKey, engine, e) == AfterLoop(s, engine);
      AfterLoopParity(s, engine);
    case TypingDone =>
      if s.typing {
        assert s.frames == [];
      }
  }

  /** The post-loop code keeps the byte total's parity: it either resets the
      frames after an even buffer or leaves an odd one, and the log, alone. */
  lemma AfterLoopParity(s: State, engine: seq<Int16> -> string)
    ensures TotalBytes(AfterLoop(s, engine).frames) % 2 == TotalBytes(s.frames) % 2
    ensures TotalBytes(s.frames) % 2 == 1 ==> AfterLoop(s, engine).typed == s.typed
  {
    if s.phase == Processing && !s.typing {
      match Infer(s.frames, engine)
      case MalformedAudio =>
        assert AfterLoop(s, engine) == s.(phase := Idle);
      case Ok(text) =>
        assert TotalBytes(s.frames) % 2 == 0;
        assert AfterLoop(s, engine) == AfterInfer(s, text);
        AfterInferResets(s, text);
    }
  }

  /** Once `infer` has returned, the frames are reset. */
  lemma AfterInferResets(s: State, text: string)
    ensures AfterInfer(s, text).frames == [] && TotalBytes(AfterInfer(s, text).frames) == 0
  {
    match Clean(text)
    case NothingDetected =>
    case Text(t) =>
  }

  /** With whole-sample chunks the frame buffer never turns malformed, so
      between sessions it is always empty. */
  lemma {:induction false} FramesEmptyBetweenSessions(s: State, activationKey: Key, engine: seq<Int16> -> string, events: seq<Event>)
    requires Inv(s) && TotalBytes(s.frames) % 2 == 0 && EvenChunks(events)
    ensures TotalBytes(Run(s, activationKey, engine, events).frames) % 2 == 0
    ensures Run(s, activationKey, engine, events).phase == Idle ==> Run(s, activationKey, engine, events).frames == []
    decreases |events|
  {
    if events != [] {
      StepInv(s, activationKey, engine, events[0]);
      StepParity(s, activationKey, engine, events[0]);
      EvenChunksTail(events);
      FramesEmptyBetweenSessions(Step(s, activationKey, engine, events[0]), activationKey, engine, events[1..]);
    }
  }

  /** A malformed buffer, once left behind, is never cleared: every later
      session appends to it, fails to decode again, and nothing is ever
      typed again. */
  lemma {:induction false} MalformedBufferPersists(s: State, activationKey: Key, engine: seq<Int16> -> string, events: seq<Event>)
    requires Inv(s) && TotalBytes(s.frames) % 2 == 1 && EvenChunks(events)
    ensures TotalBytes(Run(s, activationKey, engine, events).frames) % 2 == 1
    ensures Run(s, activationKey, engine, events).typed == s.typed
    decreases |events|
  {
    if events != [] {
      StepInv(s, activationKey, engine, events[0]);
      StepParity(s, activationKey, engine, events[0]);
      EvenChunksTail(events);
      MalformedBufferPersists(Step(s, activationKey, engine, events[0]), activationKey, engine, events[1..]);
    }
  }

  /** The controller object, with the fields of `SpeachToText` it updates. */
  class Dictation {
    const activationKey: Key
    const engine: seq<Int16> -> string
    var activationKeyPressed: bool
    var currentlyTyping: bool
    /** Idle: no `listener_thread`, or it is no longer alive. */
    var phase: Phase
    var frames: seq<seq<Byte>>
    ghost var typed: seq<string>
    ghost var typedIn: seq<nat>
    ghost var sessions: nat

    ghost function Snapshot(): State
      reads this
    {
      State(phase, activationKeyPressed, currentlyTyping, frames, typed, typedIn, sessions)
    }

    ghost predicate Valid()
      reads this
    {
      Inv(Snapshot())
    }

    constructor (key: Key, engine: seq<Int16> -> string)
      ensures Valid() && Snapshot() == Initial()
      ensures activationKey == key && this.engine == engine
    {
      activationKey := key;
      this.engine := engine;
      activationKeyPressed := false;
      currentlyTyping := false;
      phase := Idle;
      frames := [];
      typed := [];
      typedIn := [];
      sessions := 0;
    }

    method OnPress(k: Key)
      requires Valid()
      modifies this
      ensures Valid() && Snapshot() == Press(old(Snapshot()), activationKey, k)
    {
      if currentlyTyping {
        return;
      }
      if k == activationKey && !activationKeyPressed {
        if phase != Idle {
          return;
        }
        // the new worker starts `listen`, which raises the flag
        phase := Listening;
        activationKeyPressed := true;
        sessions := sessions + 1;
      }
    }

    method OnRelease(k: Key)
      requires Valid()
      modifies this
      ensures Valid() && Snapshot() == Release(old(Snapshot()), activationKey, k)
    {
      if k == activationKey {
        activationKeyPressed := false;
        // the worker's loop condition is now false
        if phase == Listening {
          phase := Processing;
        }
      }
    }

    /** One iteration of the read loop, with the bytes the stream had. */
    method ReadChunk(data: seq<Byte>)
      requires Valid() && phase == Listening
      modifies this
      ensures Valid() && Snapshot() == Read(old(Snapshot()), data)
      ensures frames == if |data| > 0 then old(frames) + [data] else old(frames)
    {
      if |data| > 0 {
        frames := frames + [data];
      }
    }

    /** The code of `listen` after its loop, up to the `keyboard.type` call. */
    method Finish()
      requires Valid() && phase == Processing && !currentlyTyping
      modifies this
      ensures Valid() && Snapshot() == AfterLoop(old(Snapshot()), engine)
    {
      ghost var s0 := Snapshot();
      var output := Infer(frames, engine);
      if output.MalformedAudio? {
        // np.frombuffer raises: the worker ends here
        phase := Idle;
        MalformedInv(s0);
        assert Snapshot() == s0.(phase := Idle) == AfterLoop(s0, engine);
        return;
      }
      Deliver(output.value);
      assert AfterInfer(s0, output.value) == AfterLoop(s0, engine);
    }

    /** The part of `listen` after `infer` returned its text: reset the
        frames, clean the text up, and start typing it if there is any. */
    method Deliver(outputText: string)
      requires Valid() && phase == Processing && !currentlyTyping
      modifies this
      ensures Valid() && Snapshot() == AfterInfer(old(Snapshot()), outputText)
    {
      ghost var s0 := Snapshot();
      AfterInferInv(s0, outputText);
      frames := [];
      var cleaned := CleanText(outputText);
      if cleaned.NothingDetected? {
        activationKeyPressed := false;
        phase := Idle;
        assert Snapshot() == s0.(phase := Idle, keyPressed := false, frames := []) == AfterInfer(s0, outputText);
        return;
      }
      currentlyTyping := true;
      typed := typed + [cleaned.text];
      typedIn := typedIn + [sessions];
      assert Snapshot() == s0.(frames := [], typing := true, typed := s0.typed + [cleaned.text], typedIn := s0.typedIn + [s0.sessions])
        == AfterInfer(s0, outputText);
    }

    /** The return from `keyboard.type` and the end of `listen`. */
    method EndTyping()
      requires Valid() && currentlyTyping
      modifies this
      ensures Valid() && Snapshot() == AfterTyping(old(Snapshot()))
    {
      currentlyTyping := false;
      activationKeyPressed := false;
      phase := Idle;
    }
  }
}
