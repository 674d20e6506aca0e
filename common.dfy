/** Values shared by every part of the model: bytes, the failure-carrying
    wrappers that stand for JavaScript exceptions, and the byte-chunk
    concatenation that both stream operations of the crypto adapter use. */
module Common {

  /** An element of a Uint8Array. */
  newtype byte = x: int | 0 <= x < 256

  datatype Option<+T> = None | Some(value: T)

  /** The value of an expression that either produces a value or throws an
      Error whose `message` is carried here. */
  datatype Result<+T> = Success(value: T) | Failure(message: string)

  /** An async handler that either resolves or rejects with an Error message. */
  datatype Outcome = Pass | Fail(message: string)

  /** A call to react-router's `navigate(path, { state: { cid } })`. */
  datatype Navigation = Navigation(path: string, stateCid: Option<string>)

  /** `s.startsWith(prefix)` */
  predicate StartsWith(s: string, prefix: string)
  {
    |prefix| <= |s| && s[..|prefix|] == prefix
  }

  /** `chunks.reduce((acc, val) => [...acc, ...val], [])`: a left fold that
      appends each chunk to the accumulator in order. */
  function Concat(chunks: seq<seq<byte>>): seq<byte>
  {
    if chunks == [] then [] else Concat(chunks[..|chunks| - 1]) + chunks[|chunks| - 1]
  }

  /** The sum of the chunk lengths, folded in the same order. */
  function TotalLength(chunks: seq<seq<byte>>): nat
  {
    if chunks == [] then 0 else TotalLength(chunks[..|chunks| - 1]) + |chunks[|chunks| - 1]|
  }

  /** The concatenation is exactly as long as all chunks together. */
  lemma {:induction false} ConcatLength(chunks: seq<seq<byte>>)
    ensures |Concat(chunks)| == TotalLength(chunks)
  {
    if chunks != [] {
      ConcatLength(chunks[..|chunks| - 1]);
    }
  }

  /** A prefix of the chunk list never holds more bytes than the whole list. */
  lemma {:induction false} TotalLengthPrefix(chunks: seq<seq<byte>>, k: nat)
    requires k <= |chunks|
    ensures TotalLength(chunks[..k]) <= TotalLength(chunks)
  {
    if k < |chunks| {
      var init := chunks[..|chunks| - 1];
      assert chunks[..k] == init[..k];
      TotalLengthPrefix(init, k);
    } else {
      assert chunks[..k] == chunks;
    }
  }

  /** Chunk `i` sits, unchanged, right after all the chunks before it:
      the concatenation keeps the chunks in their reading order. */
  lemma {:induction false} ConcatPlacesChunk(chunks: seq<seq<byte>>, i: nat)
    requires i < |chunks|
    ensures TotalLength(chunks[..i]) + |chunks[i]| <= |Concat(chunks)|
    ensures Concat(chunks)[TotalLength(chunks[..i])..TotalLength(chunks[..i]) + |chunks[i]|] == chunks[i]
  {
    var n := |chunks|;
    var init := chunks[..n - 1];
    assert chunks[..n - 1] == init;
    ConcatLength(init);
    ConcatLength(chunks);
    if i == n - 1 {
      assert chunks[..i] == init;
    } else {
      assert chunks[..i] == init[..i];
      assert init[i] == chunks[i];
      ConcatPlacesChunk(init, i);
    }
  }
}
