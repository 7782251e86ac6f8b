/** Shared vocabulary of the model: optional values, results that carry an
    error instead of throwing, bytes, and concatenation of byte chunks. */
module Common {

  datatype Option<+T> = None | Some(value: T)

  /** A value, or the error the source would raise as an exception. */
  datatype Result<+T, +E> = Success(value: T) | Failure(error: E)

  /** An octet, as `uint8_t` in the source. */
  newtype byte = b: int | 0 <= b < 256

  type Bytes = seq<byte>

  /** The in-order concatenation of a sequence of byte chunks. */
  function Concat(chunks: seq<Bytes>): (r: Bytes)
  {
    if chunks == [] then [] else Concat(chunks[..|chunks| - 1]) + chunks[|chunks| - 1]
  }

  /** Concatenation distributes over appending lists of chunks. */
  lemma {:induction false} ConcatAppend(a: seq<Bytes>, b: seq<Bytes>)
    ensures Concat(a + b) == Concat(a) + Concat(b)
    decreases |b|
  {
    if b == [] {
      assert a + b == a;
    } else {
      var b' := b[..|b| - 1];
      assert (a + b)[..|a + b| - 1] == a + b';
      ConcatAppend(a, b');
    }
  }

  /** The length of a concatenation is the sum of the chunk lengths. */
  function TotalLength(chunks: seq<Bytes>): nat
  {
    if chunks == [] then 0 else TotalLength(chunks[..|chunks| - 1]) + |chunks[|chunks| - 1]|
  }

  lemma {:induction false} ConcatLength(chunks: seq<Bytes>)
    ensures |Concat(chunks)| == TotalLength(chunks)
  {
    if chunks != [] {
      ConcatLength(chunks[..|chunks| - 1]);
    }
  }

  /** No value occurs twice in `s`. */
  predicate Distinct<T(==)>(s: seq<T>)
  {
    forall i, j :: 0 <= i < j < |s| ==> s[i] != s[j]
  }
}
