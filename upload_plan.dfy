/** Planning of a block blob upload from a stream: which uploads are
    refused and with which exception, which bytes are sent, whether in one
    put or as blocks, and how they are cut into blocks. */
module UploadPlans {
  import opened Common

  /** The `blob_request_options` this planning consults. */
  datatype BlobRequestOptions = BlobRequestOptions(
    streamWriteSize: nat,            // block size of the block path
    singleBlobUploadThreshold: nat,  // largest upload sent as one put
    parallelismFactor: nat,
    useTransactionalMd5: bool,
    storeBlobContentMd5: bool)

  /** A source stream: the bytes from its current position on, and
      whether it can seek (and so tell its remaining length up front). */
  datatype Source = Source(remaining: Bytes, seekable: bool)

  /** `storage_exception` and `std::invalid_argument`. */
  datatype UploadError = StorageException | InvalidArgument

  /** One put of the whole body, or the blocks to stage and commit. */
  datatype UploadPlan = SingleBlob(body: Bytes) | Blocks(chunks: seq<Bytes>)

  /** The bytes a plan sends, in order. */
  function Sent(plan: UploadPlan): Bytes
  {
    match plan
    case SingleBlob(body) => body
    case Blocks(chunks) => Concat(chunks)
  }

  /** The blocks of the block path: consecutive pieces of `size` bytes,
      the last one possibly shorter. */
  function Chunks(data: Bytes, size: nat): (r: seq<Bytes>)
    requires size > 0
    ensures Concat(r) == data
    ensures forall i :: 0 <= i < |r| ==> 0 < |r[i]| <= size
    ensures forall i :: 0 <= i < |r| - 1 ==> |r[i]| == size
    decreases |data|
  {
    if data == [] then []
    else if |data| <= size then
      ConcatAppend([], [data]);
      [data]
    else
      var rest := Chunks(data[size..], size);
      ConcatAppend([data[..size]], rest);
      assert [] + [data[..size]] == [data[..size]];
      assert data[..size] + data[size..] == data;
      [data[..size]] + rest
  }

  /** There are as many blocks as the size goes into the data, rounded
      up. */
  lemma {:induction false} ChunkCount(data: Bytes, size: nat)
    requires size > 0
    ensures |Chunks(data, size)| == (|data| + size - 1) / size
    decreases |data|
  {
    if |data| > size {
      ChunkCount(data[size..], size);
      assert (|data| + size - 1) / size == (|data| - size + size - 1) / size + 1 by {
        DivShift(|data| - size + size - 1, size);
      }
    }
  }

  lemma DivShift(x: nat, size: nat)
    requires size > 0
    ensures (x + size) / size == x / size + 1
  {
    var q, m := x / size, x % size;
    assert x == q * size + m && 0 <= m < size;
    assert x + size == (q + 1) * size + m;
    var q', m' := (x + size) / size, (x + size) % size;
    assert x + size == q' * size + m' && 0 <= m' < size;
    if q' > q + 1 {
      MulMonotone(q + 2, q', size);
      assert false;
    } else if q' < q + 1 {
      MulMonotone(q', q, size);
      assert false;
    }
  }

  lemma MulMonotone(a: nat, b: nat, size: nat)
    requires a <= b
    ensures a * size <= b * size
  {
  }

  /** The planning of `upload_from_stream(source, length, ...)`, where an
      absent length means "to the end of the stream". The library's upload
      code is not part of this model; this rule is the one the expected
      request counts and exceptions of the block blob upload tests fix:
      - a seekable source shorter than the requested length is refused
        (`storage_exception`);
      - an upload whose length is known, within the single-put threshold
        and not parallel goes out as one put; there a transactional digest
        without a stored content digest is refused (`invalid_argument`);
      - a non-seekable source shorter than the requested length is refused
        (`invalid_argument`);
      - everything else succeeds and goes out as blocks of the configured
        size. */
  function PrepareUpload(source: Source, length: Option<nat>, options: BlobRequestOptions): (r: Result<UploadPlan, UploadError>)
    requires options.streamWriteSize > 0
    ensures r == Failure(StorageException) <==> source.seekable && length.Some? && length.value > |source.remaining|
    ensures !source.seekable && length.Some? && length.value > |source.remaining| ==> r == Failure(InvalidArgument)
    ensures !(length.Some? && length.value > |source.remaining|) ==>
      (r == Failure(InvalidArgument) <==> SinglePut(source, length, options) && options.useTransactionalMd5 && !options.storeBlobContentMd5)
    ensures r.Success? <==>
      !(length.Some? && length.value > |source.remaining|)
      && !(SinglePut(source, length, options) && options.useTransactionalMd5 && !options.storeBlobContentMd5)
    ensures r.Success? && length.Some? ==> Sent(r.value) == source.remaining[..length.value]
    ensures r.Success? && length.None? ==> Sent(r.value) == source.remaining
    ensures r.Success? ==> (r.value.SingleBlob? <==> SinglePut(source, length, options))
    ensures r.Success? && r.value.Blocks? ==>
      forall i :: 0 <= i < |r.value.chunks| ==> 0 < |r.value.chunks[i]| <= options.streamWriteSize
    ensures r.Success? && r.value.Blocks? ==>
      r.value.chunks == Chunks(if length.Some? then source.remaining[..length.value] else source.remaining, options.streamWriteSize)
  {
    if source.seekable && length.Some? && length.value > |source.remaining| then
      Failure(StorageException)
    else if SinglePut(source, length, options) && options.useTransactionalMd5 && !options.storeBlobContentMd5 then
      Failure(InvalidArgument)
    else if length.Some? && length.value > |source.remaining| then
      Failure(InvalidArgument)
    else
      var data := if length.Some? then source.remaining[..length.value] else source.remaining;
      if SinglePut(source, length, options) then Success(SingleBlob(data))
      else Success(Blocks(Chunks(data, options.streamWriteSize)))
  }

  /** The length an upload will have, when it is known before reading:
      the requested length, or what a seekable source has left. */
  function KnownLength(source: Source, length: Option<nat>): Option<nat>
  {
    if length.Some? then length
    else if source.seekable then Some(|source.remaining|)
    else None
  }

  /** Whether the upload goes out as one put rather than as blocks. */
  predicate SinglePut(source: Source, length: Option<nat>, options: BlobRequestOptions)
  {
    var known := KnownLength(source, length);
    known.Some? && known.value <= options.singleBlobUploadThreshold && options.parallelismFactor == 1
  }

  /** With the default options, a request for one byte more than the
      source holds fails: with `storage_exception` for a seekable source
      and `invalid_argument` for a non-seekable one, whether the source
      starts at the beginning of the buffer or 1024 bytes into it. */
  lemma InvalidSizeRejected(buffer: Bytes, offset: nat, options: BlobRequestOptions)
    requires options.streamWriteSize > 0
    requires offset <= |buffer|
    ensures PrepareUpload(Source(buffer[offset..], true), Some(|buffer| - offset + 1), options) == Failure(StorageException)
    ensures PrepareUpload(Source(buffer[offset..], false), Some(|buffer| - offset + 1), options) == Failure(InvalidArgument)
  {
  }

  /** A transactional digest without a stored content digest is refused
      for an upload that goes out as one put (an empty text, say). */
  lemma InvalidOptionsRejected(options: BlobRequestOptions)
    requires options.streamWriteSize > 0 && options.parallelismFactor == 1
    requires options.useTransactionalMd5 && !options.storeBlobContentMd5
    ensures PrepareUpload(Source([], true), None, options) == Failure(InvalidArgument)
  {
  }
}
