/**
 `SpeachToText.infer`: decode the session buffer and, unless it is too
 short, hand the samples to the transcription engine. The engine itself is
 outside the model; it is a parameter `engine` that maps the decoded int16
 samples to the text it would produce (the division by 32768.0 that turns
 them into floats is a bijection folded into the engine).
 */
module Inference {
  import opened Pcm

  /** Buffers of at most this many samples never reach the engine. */
  const MaxSkippedSamples: nat := 200

  /** The text `infer` returns for a session buffer, or MalformedAudio when
      the byte total is odd (np.frombuffer raises). */
  function Infer(frames: seq<seq<Byte>>, engine: seq<Int16> -> string): (r: Result<string>)
    ensures r.MalformedAudio? <==> TotalBytes(frames) % 2 == 1
    ensures TotalBytes(frames) % 2 == 0 && TotalBytes(frames) <= 2 * MaxSkippedSamples ==> r == Ok("")
    ensures TotalBytes(frames) % 2 == 0 && TotalBytes(frames) > 2 * MaxSkippedSamples ==>
      |DecodeFrames(frames).value| > MaxSkippedSamples && r == Ok(engine(DecodeFrames(frames).value))
  {
    match DecodeFrames(frames)
    case MalformedAudio => MalformedAudio
    case Ok(samples) =>
      if |samples| <= MaxSkippedSamples then Ok("") else Ok(engine(samples))
  }

  /** The short-buffer skip: on a buffer of at most 200 samples the result
      does not depend on the engine at all, so the engine is not consulted. */
  lemma ShortBufferSkipsEngine(frames: seq<seq<Byte>>, e1: seq<Int16> -> string, e2: seq<Int16> -> string)
    requires DecodeFrames(frames).Ok? && |DecodeFrames(frames).value| <= MaxSkippedSamples
    ensures Infer(frames, e1) == Infer(frames, e2) == Ok("")
  {
  }

  /** Decoding failures do not depend on the engine either. */
  lemma MalformedSkipsEngine(frames: seq<seq<Byte>>, e1: seq<Int16> -> string, e2: seq<Int16> -> string)
    requires TotalBytes(frames) % 2 == 1
    ensures Infer(frames, e1) == Infer(frames, e2) == MalformedAudio
  {
  }
}
