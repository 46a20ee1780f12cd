/**
 The frame buffer of one dictation session and its reinterpretation as
 16-bit signed PCM: the chunks read from the audio stream are joined in
 arrival order (`b''.join(frames)`) and the bytes are read as little-endian
 int16 samples (`np.frombuffer(data, dtype=np.int16)`).
 */
module Pcm {

  type Byte = b: int | 0 <= b < 256

  /** A signed 16-bit sample. */
  type Int16 = x: int | -0x8000 <= x < 0x8000

  /** `np.frombuffer` with an int16 dtype refuses a buffer whose length is
      not a multiple of the sample size. */
  datatype Result<T> = Ok(value: T) | MalformedAudio

  /** The chunks joined in the order they were appended (the last chunk
      appended is the last part of the result). */
  function Concat(chunks: seq<seq<Byte>>): (r: seq<Byte>)
    ensures |r| == TotalBytes(chunks)
  {
    if chunks == [] then [] else Concat(chunks[..|chunks| - 1]) + chunks[|chunks| - 1]
  }

  /** Total number of bytes held by the chunks. */
  function TotalBytes(chunks: seq<seq<Byte>>): nat
  {
    if chunks == [] then 0 else TotalBytes(chunks[..|chunks| - 1]) + |chunks[|chunks| - 1]|
  }

  /** The little-endian two's-complement value of the byte pair (lo, hi). */
  function ToInt16(lo: Byte, hi: Byte): Int16
  {
    var u := lo + 256 * hi;
    if u < 0x8000 then u else u - 0x1_0000
  }

  /** Low byte of the two's-complement encoding of a sample. */
  function LowByte(v: Int16): Byte
  {
    (if v < 0 then v + 0x1_0000 else v) % 256
  }

  /** High byte of the two's-complement encoding of a sample. */
  function HighByte(v: Int16): Byte
  {
    (if v < 0 then v + 0x1_0000 else v) / 256
  }

  /** Reinterprets a byte stream as int16 samples; fails exactly on an odd
      length, and otherwise yields one sample per byte pair. */
  function DecodeSamples(b: seq<Byte>): (r: Result<seq<Int16>>)
    ensures r.Ok? <==> |b| % 2 == 0
    ensures r.Ok? ==> |r.value| == |b| / 2
    decreases |b|
  {
    if |b| == 0 then Ok([])
    else if |b| == 1 then MalformedAudio
    else
      match DecodeSamples(b[2..])
      case MalformedAudio => MalformedAudio
      case Ok(rest) => Ok([ToInt16(b[0], b[1])] + rest)
  }

  /** The inverse direction: int16 samples written out little-endian. */
  function EncodeSamples(s: seq<Int16>): (b: seq<Byte>)
    ensures |b| == 2 * |s|
  {
    if s == [] then [] else [LowByte(s[0]), HighByte(s[0])] + EncodeSamples(s[1..])
  }

  /** The decoded buffer of a session: it fails exactly on an odd byte
      total and otherwise holds TotalBytes / 2 samples. */
  function DecodeFrames(chunks: seq<seq<Byte>>): (r: Result<seq<Int16>>)
    ensures r.Ok? <==> TotalBytes(chunks) % 2 == 0
    ensures r.Ok? ==> |r.value| == TotalBytes(chunks) / 2
  {
    DecodeSamples(Concat(chunks))
  }

  /** Sample i of a decoded stream is the little-endian value of bytes 2i
      and 2i+1. */
  lemma {:induction false} DecodeSamplesAt(b: seq<Byte>, i: nat)
    requires |b| % 2 == 0 && i < |b| / 2
    ensures DecodeSamples(b).value[i] == ToInt16(b[2 * i], b[2 * i + 1])
    decreases |b|
  {
    if i > 0 {
      DecodeSamplesAt(b[2..], i - 1);
      assert b[2..][2 * (i - 1)] == b[2 * i] && b[2..][2 * (i - 1) + 1] == b[2 * i + 1];
    }
  }

  /** Sample i of a session buffer is the little-endian value of bytes 2i
      and 2i+1 of the chunks joined in arrival order. */
  lemma DecodeFramesAt(chunks: seq<seq<Byte>>, i: nat)
    requires TotalBytes(chunks) % 2 == 0 && i < TotalBytes(chunks) / 2
    ensures DecodeFrames(chunks).value[i] == ToInt16(Concat(chunks)[2 * i], Concat(chunks)[2 * i + 1])
  {
    DecodeSamplesAt(Concat(chunks), i);
  }

  /** The two bytes of a sample decode back to that sample. */
  lemma ToInt16OfBytes(v: Int16)
    ensures ToInt16(LowByte(v), HighByte(v)) == v
  {
  }

  /** A byte pair is the encoding of the sample it decodes to. */
  lemma BytesOfToInt16(lo: Byte, hi: Byte)
    ensures LowByte(ToInt16(lo, hi)) == lo && HighByte(ToInt16(lo, hi)) == hi
  {
  }

  /** Decoding undoes encoding. */
  lemma {:induction false} DecodeEncode(s: seq<Int16>)
    ensures DecodeSamples(EncodeSamples(s)) == Ok(s)
    decreases |s|
  {
    if s != [] {
      var b := EncodeSamples(s);
      assert b[2..] == EncodeSamples(s[1..]);
      DecodeEncode(s[1..]);
      ToInt16OfBytes(s[0]);
      assert [s[0]] + s[1..] == s;
    }
  }

  /** Encoding undoes a successful decoding: no byte is lost or reordered. */
  lemma {:induction false} EncodeDecode(b: seq<Byte>)
    requires |b| % 2 == 0
    ensures EncodeSamples(DecodeSamples(b).value) == b
    decreases |b|
  {
    if |b| > 0 {
      EncodeDecode(b[2..]);
      BytesOfToInt16(b[0], b[1]);
      var s := DecodeSamples(b).value;
      assert s[1..] == DecodeSamples(b[2..]).value;
      assert [b[0], b[1]] + b[2..] == b;
    }
  }

  /** Appending a chunk appends its bytes at the end of the joined buffer. */
  lemma ConcatAppend(chunks: seq<seq<Byte>>, c: seq<Byte>)
    ensures Concat(chunks + [c]) == Concat(chunks) + c
    ensures TotalBytes(chunks + [c]) == TotalBytes(chunks) + |c|
  {
    assert (chunks + [c])[..|chunks|] == chunks;
  }

  /** Joining a prefix of the chunks gives a prefix of the joined buffer. */
  lemma {:induction false} ConcatPrefix(chunks: seq<seq<Byte>>, k: nat)
    requires k <= |chunks|
    ensures |Concat(chunks[..k])| <= |Concat(chunks)|
    ensures Concat(chunks[..k]) == Concat(chunks)[..|Concat(chunks[..k])|]
    decreases |chunks| - k
  {
    if k < |chunks| {
      var n := |chunks|;
      ConcatPrefix(chunks[..n - 1], k);
      assert chunks[..n - 1][..k] == chunks[..k];
    } else {
      assert chunks[..k] == chunks;
    }
  }

  /** Arrival order: byte j of chunk k sits in the joined buffer right after
      the bytes of chunks 0 .. k-1. */
  lemma ConcatAt(chunks: seq<seq<Byte>>, k: nat, j: nat)
    requires k < |chunks| && j < |chunks[k]|
    ensures TotalBytes(chunks[..k]) + j < |Concat(chunks)|
    ensures Concat(chunks)[TotalBytes(chunks[..k]) + j] == chunks[k][j]
  {
    ConcatAppend(chunks[..k], chunks[k]);
    assert chunks[..k + 1] == chunks[..k] + [chunks[k]];
    ConcatPrefix(chunks, k + 1);
  }

  /** Decoding distributes over a join at an even boundary. */
  lemma {:induction false} DecodeAppend(a: seq<Byte>, b: seq<Byte>)
    requires |a| % 2 == 0 && |b| % 2 == 0
    ensures DecodeSamples(a + b) == Ok(DecodeSamples(a).value + DecodeSamples(b).value)
    decreases |a|
  {
    if |a| > 0 {
      var ab := a + b;
      assert ab[0] == a[0] && ab[1] == a[1] && ab[2..] == a[2..] + b;
      DecodeAppend(a[2..], b);
      var x := ToInt16(a[0], a[1]);
      var ra, rb := DecodeSamples(a[2..]).value, DecodeSamples(b).value;
      assert DecodeSamples(ab) == Ok([x] + (ra + rb));
      assert DecodeSamples(a) == Ok([x] + ra);
      assert [x] + (ra + rb) == ([x] + ra) + rb;
    } else {
      assert DecodeSamples(a) == Ok([]);
      assert a + b == b;
      assert [] + DecodeSamples(b).value == DecodeSamples(b).value;
    }
  }

  /** Reading one more chunk of whole samples extends the decoded buffer by
      that chunk's samples, at the end. */
  lemma DecodeFramesAppend(chunks: seq<seq<Byte>>, c: seq<Byte>)
    requires TotalBytes(chunks) % 2 == 0 && |c| % 2 == 0
    ensures DecodeFrames(chunks + [c]) == Ok(DecodeFrames(chunks).value + DecodeSamples(c).value)
  {
    ConcatAppend(chunks, c);
    DecodeAppend(Concat(chunks), c);
  }

  /** Two one-sample chunks decode to their samples in arrival order. */
  lemma TwoChunksInOrder()
    ensures DecodeFrames([[1, 0], [2, 0]]) == Ok([1, 2])
  {
    var c1: seq<Byte>, c2: seq<Byte> := [1, 0], [2, 0];
    assert [c1] + [c2] == [c1, c2];
    assert Concat([c1]) == c1 by {
      assert [c1][..0] == [];
    }
    ConcatAppend([c1], c2);
    var b := c1 + c2;
    assert |b| == 4 && b[0] == 1 && b[1] == 0;
    assert b[2..] == c2 && c2[2..] == [];
    assert DecodeSamples(c2) == Ok([ToInt16(2, 0)] + []);
    assert [ToInt16(2, 0)] + [] == [ToInt16(2, 0)];
    assert DecodeSamples(b) == Ok([ToInt16(1, 0)] + [ToInt16(2, 0)]);
    assert [ToInt16(1, 0)] + [ToInt16(2, 0)] == [1, 2];
  }

  /** A single three-byte chunk is malformed. */
  lemma ThreeBytesMalformed()
    ensures DecodeFrames([[1, 2, 3]]) == MalformedAudio
  {
    assert [[1, 2, 3]][..0] == [];
  }
}
