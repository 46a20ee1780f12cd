# whisper-typer push-to-talk core in Dafny

This project models the session logic of `SpeachToText` in `main.py`. The
program types what you say while you hold one hotkey. A press of the
activation key starts a worker thread (`listen`). The worker polls the
microphone stream and appends each raw byte chunk to `frames` until the key
is released. Then it joins the chunks and decodes them as little-endian int16
PCM (`infer`). A buffer of 200 samples or fewer skips the Whisper engine. The
engine's text is cleaned up and typed through synthetic keystrokes, with
`currently_typing` raised so that the program ignores its own key events.

The project has four modules.

- `Pcm` (`pcm.dfy`) joins the chunks and decodes them into int16 samples. It
  also has an encoder as the decoder's inverse, and lemmas on arrival order,
  sample count and round trips.
- `Inference` (`inference.dfy`) is `infer`. The Whisper engine is a
  function-typed parameter `engine` from int16 samples to text. The
  200-sample gate is proved to make the result independent of the engine.
- `Cleanup` (`cleanup.dfy`) holds the text cleanup at the end of `listen`.
  `Clean` is the reference definition. `CleanText` is the source's code, with
  its trailing-period `while` loop, proved equal to `Clean`. The lemmas cover
  the "nothing detected" condition, the shape of the typed text, and
  idempotence.
- `Session` (`session.dfy`) is the controller. A `State` value holds the
  phase (the worker's liveness), `activation_key_pressed`,
  `currently_typing`, `frames`, and three ghost records. The first is a log
  of every `keyboard.type` argument. The second gives the number of the
  session that typed each logged text. The third counts the sessions
  started. The events are pure functions: press, release, one read-loop
  iteration, the code after the loop (up to the `keyboard.type` call), and
  the return from typing. `Inv` is proved to hold across any sequence of
  events. The class `Dictation` has the source's fields and one method per
  event, each proved to give the same state as the matching function. The
  post-loop method `Finish` hands the code after `infer` to a second method,
  `Deliver`.

Two consequences of the code as written are worth knowing:

- Cleanup never strips trailing whitespace. Only the last character is
  checked for a period, so `" Hi. "` becomes `"hi. "` and keeps its period.
  A string made only of blanks and periods is not always "nothing detected":
  `" . ."` types `". "`.
- When the byte total is odd, `np.frombuffer` raises inside the worker. The
  worker dies before `self.frames = []`, so the odd buffer stays behind.
  Every later session appends to it and fails in the same way, so nothing is
  typed again (`MalformedBufferPersists`). PyAudio's int16 reads always
  return whole samples. With such chunks the buffer never turns odd and is
  always empty between sessions (`FramesEmptyBetweenSessions`).

## Model

| member | source | states |
|---|---|---|
| Pcm.Concat | main.py:126 | the joined buffer is exactly as long as all chunks together |
| Pcm.ConcatAppend | main.py:153 | appending a chunk appends its bytes at the end of the joined buffer and adds its length to the total |
| Pcm.ConcatPrefix | main.py:126 | joining the first k chunks gives a prefix of the joined buffer |
| Pcm.ConcatAt | main.py:126 | byte j of chunk k sits right after the bytes of chunks 0..k-1: arrival order is kept |
| Pcm.DecodeSamples | main.py:127 | int16 decoding succeeds exactly on an even byte count and yields half as many samples |
| Pcm.DecodeSamplesAt | main.py:127 | sample i is the little-endian two's-complement value of bytes 2i and 2i+1 |
| Pcm.ToInt16 | main.py:127 | no contract of its own: the little-endian two's-complement value of a byte pair; `ToInt16OfBytes` and `BytesOfToInt16` prove it inverse to the byte split, and `DecodeSamplesAt` places it at each sample |
| Pcm.DecodeFrames | main.py:126-127 | the session buffer decodes exactly when the byte total is even, into total/2 samples |
| Pcm.DecodeFramesAt | main.py:126-127 | sample i of the session buffer is built from bytes 2i and 2i+1 of the chunks joined in order |
| Pcm.DecodeEncode | main.py:127 | decoding the little-endian encoding of any int16 samples gives them back |
| Pcm.EncodeDecode | main.py:127 | re-encoding a decoded even-length buffer gives back its bytes, so no byte is lost or reordered |
| Pcm.ToInt16OfBytes | main.py:127 | a sample's two bytes decode back to that sample |
| Pcm.BytesOfToInt16 | main.py:127 | a byte pair is the encoding of the sample it decodes to |
| Pcm.DecodeAppend | main.py:126-127 | decoding two even-length byte strings joined is the concatenation of their decodings |
| Pcm.DecodeFramesAppend | main.py:126-127 | reading one more whole-sample chunk appends its samples at the end of the decoded buffer |
| Pcm.TwoChunksInOrder | main.py:126-127 | chunks `01 00` and `02 00` decode to samples 1, 2 |
| Pcm.ThreeBytesMalformed | main.py:127 | a single three-byte chunk is malformed |
| Inference.Infer | main.py:124-138 | odd byte total: MalformedAudio; at most 200 samples: `''`; otherwise the engine's text for the decoded samples |
| Inference.ShortBufferSkipsEngine | main.py:132-133 | on at most 200 samples the result is `''` whatever the engine, so the engine is never consulted |
| Inference.MalformedSkipsEngine | main.py:127 | an odd buffer fails before the engine, whatever the engine |
| Cleanup.LStrip | main.py:167 | the result is the input with its maximal run of leading whitespace removed |
| Cleanup.IsSpace | main.py:167 | no contract of its own: the whitespace `lstrip` removes (ASCII subset of Python's `isspace`); `LStrip` and `CleanShape` state what it excludes |
| Cleanup.TrimTrailingPeriods | main.py:176-177 | the result is the input with its maximal run of trailing periods removed |
| Cleanup.AllPeriods | main.py:170 | no contract of its own: the test `output_text == '.' * len(output_text)`; `CleanNothing` and `SpacesThenPeriodsIsNothing` state its role |
| Cleanup.Lower | main.py:184 | no contract of its own: ASCII lowercasing of one character; `LowerFixes` proves it never makes a period or whitespace and is idempotent |
| Cleanup.LowerString | main.py:184 | no contract of its own: `str.lower` on ASCII; `NormalizedOfLower` and `CleanShape` state what it keeps |
| Cleanup.Clean | main.py:166-184 | no contract of its own: the reference cleanup; `CleanNothing`, `CleanShape`, `CleanIdempotent` and the concrete lemmas state it, and `CleanText` is proved equal to it |
| Cleanup.CleanNothing | main.py:169-173 | "nothing detected" exactly when the lstripped text is empty or all periods |
| Cleanup.CleanShape | main.py:175-184 | otherwise the text is the lowercase of the lstripped text minus its trailing periods; it is non-empty, has no leading whitespace, does not end in `.`, and has no upper-case ASCII letter |
| Cleanup.LowerFixes | main.py:184 | lowercasing never produces a period or whitespace and is idempotent |
| Cleanup.NormalizedOfLower | main.py:184 | lowercasing keeps a non-blank first character and a non-period last character |
| Cleanup.CleanNormalized | main.py:166-184 | cleanup returns a text in normalized form unchanged |
| Cleanup.CleanIdempotent | main.py:166-184 | cleaning the text cleanup produced gives it back |
| Cleanup.SpacesThenPeriodsIsNothing | main.py:166-173 | whitespace followed only by periods (including `""`, `"."`, `"..."`) is "nothing detected" |
| Cleanup.TrailingBlankKeepsPeriod | main.py:176 | `" Hi. "` cleans to `"hi. "`: a period before a trailing blank is kept |
| Cleanup.PeriodsAndBlanksCanBeTyped | main.py:170-177 | `" . ."` cleans to `". "`, which is typed |
| Cleanup.CleanText | main.py:166-184 | the source's loop-based cleanup equals `Clean` on every input; the emptiness check inside the loop never fires |
| Session.InitialInv | main.py:67-74 | the start-up state satisfies the controller invariant |
| Session.Initial | main.py:67-74 | no contract of its own: the fields as `__init__` sets them; `InitialInv` and `Dictation.constructor` state it |
| Session.Press | main.py:197-211 | no contract of its own: `on_press`; `PressGuard`, `TypingIgnoresEvents` and `StepInv` state it, and `Dictation.OnPress` is proved equal to it |
| Session.Release | main.py:214-217 | no contract of its own: `on_release` and the end of the read loop; `ReleaseSpec` and `StepInv` state it, and `Dictation.OnRelease` is proved equal to it |
| Session.Read | main.py:149-155 | no contract of its own: one read-loop iteration; `ReadSpec`, `ReadParity` and `TypingIgnoresEvents` state it, and `Dictation.ReadChunk` is proved equal to it |
| Session.AfterLoop | main.py:157-190 | no contract of its own: the post-loop code up to `keyboard.type`; `AfterLoopGuard` states that it raises `currently_typing` exactly when it logs a text, and `AfterLoopInv`, `AfterLoopParity`, `CompleteSpec` and `ShortBufferTypesNothing` state the rest; `Dictation.Finish` is proved equal to it |
| Session.AfterInfer | main.py:164-190 | no contract of its own: the code after `infer` returns; `AfterInferInv` states that it raises `currently_typing` exactly when cleanup finds text, which it then logs, and `AfterInferResets` states the frame reset; `Dictation.Deliver` is proved equal to it |
| Session.AfterTyping | main.py:191-194 | no contract of its own: the return from `keyboard.type`; `CompleteSpec` states the end state it gives, and `Dictation.EndTyping` is proved equal to it |
| Session.AfterLoopInv | main.py:157-190 | the post-loop code keeps the invariant, types at most one normalized text, and keeps the frames or resets them |
| Session.MalformedInv | main.py:127 | a worker that dies on an odd buffer leaves a state that satisfies the invariant |
| Session.AfterInferInv | main.py:164-190 | once `infer` has returned, the rest of the worker keeps the invariant and resets the frames; the log gains the cleaned text, and `currently_typing` is raised, exactly when cleanup finds text |
| Session.AfterInferResets | main.py:164 | once `infer` has returned, the frames are empty |
| Session.StartTypingInv | main.py:188-190 | typing a normalized text, logged with the running session's number, keeps the invariant |
| Session.TagAppend | main.py:188-190 | logging a session number above every earlier one keeps the numbers strictly increasing and within the sessions started |
| Session.TypedAppend | main.py:190 | logging a normalized text keeps the log normalized and extends it |
| Session.StepInv | main.py:141-217 | every event keeps the invariant, only appends to the typed log, and appends at most one entry |
| Session.AfterLoopGuard | main.py:188-190 | the post-loop code changes the typed log exactly when it raises `currently_typing` from false, and changes nothing while a text is being typed |
| Session.GuardExactlyDuringTyping | main.py:188-191 | an event passes a text to `keyboard.type` exactly when it raises `currently_typing` from false; while typing, the guard stays raised through every event except the return of `keyboard.type` |
| Session.RunInv | main.py:141-217 | any event sequence keeps the invariant; the typed log and session count only grow |
| Session.AtMostOneTypingPerSession | main.py:188-194 | from start-up, every typed text carries the number of a session already started, no two typed texts carry the same number (so no session types twice), there are no more texts than sessions, and every typed text is non-empty cleaned text |
| Session.PressGuard | main.py:197-211 | a press changes the state iff not typing, it is the activation key, the key is not held, and no worker is alive; it then starts exactly one listening session |
| Session.SessionStartsWithNoFrames | main.py:164 | without a leftover malformed buffer, a new session starts with no frames |
| Session.TypingIgnoresEvents | main.py:198-200 | while typing, presses, releases and reads change nothing |
| Session.ReleaseSpec | main.py:214-217 | releasing the activation key clears the flag and ends listening; other keys and other phases are unaffected |
| Session.ReadSpec | main.py:149-155 | reads are ignored outside the loop, for any chunk; while listening, a whole-sample chunk on an even buffer appends its samples at the end of the decoded buffer |
| Session.CompleteSpec | main.py:157-194 | a finished session leaves no worker, no flag, no typing; the frames are reset unless the buffer was odd; the log gains the cleaned text exactly when decoding and cleanup succeed |
| Session.ShortBufferTypesNothing | main.py:131-133 | a buffer of at most 200 whole samples ends the session with nothing typed |
| Session.EvenChunksTail | main.py:152 | the tail of a sequence with whole-sample chunks has only whole-sample chunks |
| Session.ReadParity | main.py:153 | appending a whole-sample chunk keeps the parity of the byte total |
| Session.StepParity | main.py:149-194 | with whole-sample chunks every event keeps the parity of the byte total, and adds nothing to the log while it is odd |
| Session.AfterLoopParity | main.py:161-164 | the post-loop code keeps the parity of the byte total and, on an odd buffer, leaves the log unchanged |
| Session.FramesEmptyBetweenSessions | main.py:161-164 | with whole-sample chunks the byte total stays even and the frames are empty whenever no worker runs |
| Session.MalformedBufferPersists | main.py:161-164 | with whole-sample chunks, an odd leftover buffer stays odd forever and nothing is ever typed again |
| Session.Dictation.constructor | main.py:67-74 | the fields start as `__init__` sets them |
| Session.Dictation.OnPress | main.py:197-211 | `on_press`, equal to `Press` on the fields, keeping the invariant |
| Session.Dictation.OnRelease | main.py:214-217 | `on_release`, equal to `Release`, keeping the invariant |
| Session.Dictation.ReadChunk | main.py:149-155 | one loop iteration appends the available bytes, if any, to `frames` |
| Session.Dictation.Finish | main.py:157-190 | the post-loop code, using `Infer`, equal to `AfterLoop` |
| Session.Dictation.Deliver | main.py:164-190 | the code after `infer`, using the loop-based `CleanText`, equal to `AfterInfer` |
| Session.Dictation.EndTyping | main.py:191-194 | the return from typing clears both flags and ends the worker |

## Left out

- Argument parsing, device lookup, stream opening and model loading (main.py:14-121) are start-up I/O. The check that only one activation key is configured is left out too.
- The Whisper model is left out, including its warm-up. It is the `engine` parameter, a total function. One fixed `engine` serves a whole run, so two sessions with the same samples always get the same text. Whisper's temperature fallback samples at random, which the model does not capture. Every lemma holds for all engines, and each session consults the engine at most once.
- Exceptions from `transcribe` (main.py:135) are not modelled. Such an exception would leave `infer` before `self.frames = []` (main.py:164), just as the odd-buffer case does. The stale frames would then stay behind and be transcribed again with the next session's audio. The model does not capture this, because `engine` never fails.
- The float conversion `astype(np.float32) / 32768.0` is left out. It is a bijection on int16 values, so it is folded into `engine`, and the 200-sample gate is stated on the int16 count.
- PyAudio `start_stream`, `stop_stream`, `get_read_available`, `read` and `time.sleep` are left out. A `Chunk` event or `ReadChunk` call supplies the bytes of one poll. An empty chunk stands for "no frames available".
- The pynput listener, `keyboard.type` and `HotKey.parse` are left out. The ghost `typed` log records every text passed to `keyboard.type`. Exceptions from `keyboard.type` are not modelled. pynput raises on a character it cannot type, between main.py:189 and main.py:191. Then `currently_typing` stays true, every later `on_press` returns at main.py:199-200, and no session ever starts again. In the model, typing always ends with `TypingDone`.
- Printing, `__del__` and the `KeyboardInterrupt` handler are left out.
- Threads and their interleaving are left out. A session start is atomic: the press that spawns the worker also raises `activation_key_pressed`, which the worker really does itself at main.py:142. So the race where a release arrives before the worker starts, and is lost, is not modelled.
- A release ends the read loop at once. The in-flight iteration that may still append one chunk after the release is not modelled.
- Session.Dictation.ReadChunk: requires the worker to be in its read loop. Reads after the loop are shown to be no-ops in the event model, not in the class.
- Cleanup.LStrip: removes only the ASCII characters Python counts as whitespace (9-13, 28-32). Non-ASCII whitespace is not modelled because it makes the proofs too costly for the solver. Examples are U+0085, U+00A0 and U+2000-U+200A.
- Cleanup.CleanText: lowercases ASCII letters only and leaves every other character unchanged. Python's `str.lower` also maps non-ASCII letters, sometimes to more than one character.
