/** The block blob test scenarios, driven against the block store: each
    method performs the test's calls in the test's order and its contract
    states what the test checks. Block ids are a parameter: any injective
    naming of the indexes (the tests use the base64 text of the index). */
module BlockBlobScenarios {
  import opened Common
  import opened BlockBlobs

  // block_reordering: ten one-character blocks "0" .. "9".

  /** The UTF-8 text of the decimal digit `k`, the body of block `k`. */
  function Digit(k: nat): (r: Bytes)
    requires k < 10
    ensures |r| == 1 && r[0] as int == '0' as int + k
  {
    [(48 + k) as byte]
  }

  /** The text of a sequence of digits, one character per digit: the
      digits 0 to 9 give "0123456789". */
  function DigitsText(order: seq<nat>): (r: Bytes)
    requires forall k :: k in order ==> k < 10
    ensures |r| == |order| && forall j :: 0 <= j < |order| ==> r[j] as int == '0' as int + order[j]
  {
    assert forall j :: 0 <= j < |order| ==> order[j] in order;
    seq(|order|, j requires 0 <= j < |order| && order[j] < 10 => (48 + order[j]) as byte)
  }

  function IdsOf(id: nat -> BlockId, order: seq<nat>): (r: seq<BlockId>)
    ensures |r| == |order| && forall j :: 0 <= j < |order| ==> r[j] == id(order[j])
  {
    seq(|order|, j requires 0 <= j < |order| => id(order[j]))
  }

  /** Every block is the digit block its id names. */
  predicate DigitBlocks(blocks: seq<Block>, index: BlockId -> nat)
  {
    forall j :: 0 <= j < |blocks| ==> index(blocks[j].id) < 10 && blocks[j].data == Digit(index(blocks[j].id))
  }

  lemma {:induction false} ContentOfDigitBlocks(blocks: seq<Block>, index: BlockId -> nat, order: seq<nat>)
    requires DigitBlocks(blocks, index)
    requires |order| == |blocks| && forall j :: 0 <= j < |blocks| ==> order[j] == index(blocks[j].id)
    ensures ContentOf(blocks) == DigitsText(order)
    decreases |blocks|
  {
    if blocks != [] {
      var n := |blocks| - 1;
      ContentOfDigitBlocks(blocks[..n], index, order[..n]);
      assert DigitsText(order) == DigitsText(order[..n]) + Digit(order[n]);
    }
  }

  lemma InIds(blocks: seq<Block>, id: nat -> BlockId, order: seq<nat>, k: nat)
    requires Ids(blocks) == IdsOf(id, order) && k in order
    ensures id(k) in Ids(blocks)
  {
    var j :| 0 <= j < |order| && order[j] == k;
    assert Ids(blocks)[j] == id(k);
  }

  /** Committing the latest blocks of a list of digit ids, all of them
      present, commits exactly the digit blocks of that list, in order. */
  lemma CommitDigits(order: seq<nat>, committed: seq<Block>, staged: seq<Block>, id: nat -> BlockId, index: BlockId -> nat)
    requires DigitBlocks(committed, index) && DigitBlocks(staged, index)
    requires forall k :: 0 <= k < 10 ==> index(id(k)) == k
    requires forall k :: k in order ==> k < 10 && (id(k) in Ids(committed) || id(k) in Ids(staged))
    ensures ResolveAll(LatestItems(IdsOf(id, order)), committed, staged).Some?
    ensures var blocks := ResolveAll(LatestItems(IdsOf(id, order)), committed, staged).value;
      DigitBlocks(blocks, index) && Ids(blocks) == IdsOf(id, order) && ContentOf(blocks) == DigitsText(order)
  {
    var items := LatestItems(IdsOf(id, order));
    forall j | 0 <= j < |items|
      ensures Resolve(items[j], committed, staged) == Some(Digit(order[j]))
    {
      assert order[j] in order;
      var k := order[j];
      assert items[j] == LatestItem(id(k));
      var fromStaged := Find(staged, id(k));
      if fromStaged.Some? {
        var p := IndexOf(staged, id(k));
        assert staged[p].id == id(k);
      } else {
        var p := IndexOf(committed, id(k));
        assert committed[p].id == id(k);
      }
    }
    var blocks := seq(|items|, j requires 0 <= j < |items| => Block(items[j].id, Digit(order[j])));
    ResolveAllEach(items, committed, staged, blocks);
    assert Ids(blocks) == IdsOf(id, order);
    ContentOfDigitBlocks(blocks, index, order);
  }

  /** One commit of the test: the latest blocks of the listed digits are
      committed and the blob is downloaded; the download is the digits'
      text. */
  method CommitAndDownload(blob: CloudBlockBlob, order: seq<nat>, id: nat -> BlockId, index: BlockId -> nat)
    returns (data: Bytes)
    requires blob.Valid()
    requires DigitBlocks(blob.committed, index) && DigitBlocks(blob.uncommitted, index)
    requires forall k :: 0 <= k < 10 ==> index(id(k)) == k
    requires forall k :: k in order ==> k < 10 && (id(k) in Ids(blob.committed) || id(k) in Ids(blob.uncommitted))
    modifies blob
    ensures blob.Valid()
    ensures DigitBlocks(blob.committed, index) && DigitBlocks(blob.uncommitted, index)
    ensures Ids(blob.committed) == IdsOf(id, order)
    ensures data == DigitsText(order)
  {
    CommitDigits(order, blob.committed, blob.uncommitted, id, index);
    UnreferencedMembers(blob.uncommitted, ItemIds(LatestItems(IdsOf(id, order))));
    var _ := blob.UploadBlockList(LatestItems(IdsOf(id, order)));
    data := blob.DownloadContent();
  }

  /** A commit of a rearranged list: every digit of the new list is in
      the committed list, or is a digit freshly staged. */
  method Recommit(blob: CloudBlockBlob, previous: seq<nat>, staged: set<nat>, order: seq<nat>,
                  id: nat -> BlockId, index: BlockId -> nat)
    returns (data: Bytes)
    requires blob.Valid()
    requires DigitBlocks(blob.committed, index) && DigitBlocks(blob.uncommitted, index)
    requires forall k :: 0 <= k < 10 ==> index(id(k)) == k
    requires Ids(blob.committed) == IdsOf(id, previous) && forall k :: k in previous ==> k < 10
    requires forall k :: k in staged ==> k < 10 && id(k) in Ids(blob.uncommitted)
    requires forall k :: k in order ==> k in previous || k in staged
    modifies blob
    ensures blob.Valid()
    ensures DigitBlocks(blob.committed, index) && DigitBlocks(blob.uncommitted, index)
    ensures Ids(blob.committed) == IdsOf(id, order) && forall k :: k in order ==> k < 10
    ensures data == DigitsText(order)
  {
    forall k | k in order ensures k < 10 && (id(k) in Ids(blob.committed) || id(k) in Ids(blob.uncommitted)) {
      if k in previous { InIds(blob.committed, id, previous, k); }
    }
    data := CommitAndDownload(blob, order, id, index);
  }

  /** Staging the digit block `k` (no digest supplied, none computed). */
  method StageDigit(blob: CloudBlockBlob, k: nat, id: nat -> BlockId, index: BlockId -> nat, md5: Bytes -> string)
    requires k < 10 && index(id(k)) == k
    requires blob.Valid() && DigitBlocks(blob.uncommitted, index)
    modifies blob
    ensures blob.Valid() && DigitBlocks(blob.uncommitted, index)
    ensures blob.committed == old(blob.committed)
    ensures id(k) in Ids(blob.uncommitted)
    ensures forall other :: other in Ids(old(blob.uncommitted)) ==> other in Ids(blob.uncommitted)
  {
    ghost var before := blob.uncommitted;
    var _, _ := blob.UploadBlock(id(k), Digit(k), "", false, md5);
    StageProperties(before, Block(id(k), Digit(k)));
  }

  /** Staging blocks 0 to 9 in order, on a new blob. */
  method StageTenDigits(id: nat -> BlockId, index: BlockId -> nat, md5: Bytes -> string) returns (blob: CloudBlockBlob)
    requires forall k :: 0 <= k < 10 ==> index(id(k)) == k
    ensures fresh(blob) && blob.Valid()
    ensures blob.committed == [] && DigitBlocks(blob.uncommitted, index)
    ensures forall k :: 0 <= k < 10 ==> id(k) in Ids(blob.uncommitted)
  {
    blob := new CloudBlockBlob();
    var i := 0;
    while i < 10
      invariant 0 <= i <= 10
      invariant fresh(blob) && blob.Valid() && blob.committed == []
      invariant DigitBlocks(blob.uncommitted, index)
      invariant forall k :: 0 <= k < i ==> id(k) in Ids(blob.uncommitted)
    {
      StageDigit(blob, i, id, index, md5);
      i := i + 1;
    }
  }

  /** The edits of the reordering test's lists. */

  lemma ReorderingEdits()
    ensures [0, 1, 2, 3, 4, 5, 6, 7, 8, 9][1..] == [1, 2, 3, 4, 5, 6, 7, 8, 9]
    ensures var s := [1, 2, 3, 4, 5, 6, 7, 8, 9]; s[..3] + s[4..] == [1, 2, 3, 5, 6, 7, 8, 9]
  {
  }

  /** The first half of the reordering test: all ten staged blocks are
      committed, then the list loses its first entry, then its fourth. */
  method RemoveFromList(blob: CloudBlockBlob, id: nat -> BlockId, index: BlockId -> nat)
    returns (d1: Bytes, d2: Bytes, d3: Bytes)
    requires forall k :: 0 <= k < 10 ==> index(id(k)) == k
    requires blob.Valid() && blob.committed == [] && DigitBlocks(blob.uncommitted, index)
    requires forall k :: 0 <= k < 10 ==> id(k) in Ids(blob.uncommitted)
    modifies blob
    ensures blob.Valid() && DigitBlocks(blob.committed, index) && DigitBlocks(blob.uncommitted, index)
    ensures Ids(blob.committed) == IdsOf(id, [1, 2, 3, 5, 6, 7, 8, 9])
    ensures d1 == DigitsText([0, 1, 2, 3, 4, 5, 6, 7, 8, 9])
      && d2 == DigitsText([1, 2, 3, 4, 5, 6, 7, 8, 9]) && d3 == DigitsText([1, 2, 3, 5, 6, 7, 8, 9])
  {
    ReorderingEdits();
    var first: seq<nat> := [0, 1, 2, 3, 4, 5, 6, 7, 8, 9];
    d1 := Recommit(blob, [], {0, 1, 2, 3, 4, 5, 6, 7, 8, 9}, first, id, index);
    var second := first[1..];
    d2 := Recommit(blob, first, {}, second, id, index);
    var third := second[..3] + second[4..];
    d3 := Recommit(blob, second, {}, third, id, index);
  }

  /** The second half of the reordering test: block 4 is staged again and
      put at the front of the list, then appended to it once more. */
  method MoveToFront(blob: CloudBlockBlob, id: nat -> BlockId, index: BlockId -> nat, md5: Bytes -> string)
    returns (d4: Bytes, d5: Bytes)
    requires forall k :: 0 <= k < 10 ==> index(id(k)) == k
    requires blob.Valid() && DigitBlocks(blob.committed, index) && DigitBlocks(blob.uncommitted, index)
    requires Ids(blob.committed) == IdsOf(id, [1, 2, 3, 5, 6, 7, 8, 9])
    modifies blob
    ensures d4 == DigitsText([4, 1, 2, 3, 5, 6, 7, 8, 9]) && d5 == DigitsText([4, 1, 2, 3, 5, 6, 7, 8, 9, 4])
  {
    var third: seq<nat> := [1, 2, 3, 5, 6, 7, 8, 9];
    StageDigit(blob, 4, id, index, md5);
    var fourth := [4] + third;
    assert fourth == [4, 1, 2, 3, 5, 6, 7, 8, 9];
    d4 := Recommit(blob, third, {4}, fourth, id, index);
    var fifth := fourth + [4];
    assert fifth == [4, 1, 2, 3, 5, 6, 7, 8, 9, 4];
    d5 := Recommit(blob, fourth, {}, fifth, id, index);
  }

  /** The `block_reordering` test: ten digit blocks are staged and
      committed in order; then the list loses its first entry, then its
      fourth; then block 4 is staged again and put at the front; then
      appended once more. Each download is the digits of the list. */
  method BlockReordering(id: nat -> BlockId, index: BlockId -> nat, md5: Bytes -> string)
    returns (d1: Bytes, d2: Bytes, d3: Bytes, d4: Bytes, d5: Bytes)
    requires forall k :: 0 <= k < 10 ==> index(id(k)) == k
    ensures d1 == DigitsText([0, 1, 2, 3, 4, 5, 6, 7, 8, 9])
    ensures d2 == DigitsText([1, 2, 3, 4, 5, 6, 7, 8, 9])
    ensures d3 == DigitsText([1, 2, 3, 5, 6, 7, 8, 9])
    ensures d4 == DigitsText([4, 1, 2, 3, 5, 6, 7, 8, 9])
    ensures d5 == DigitsText([4, 1, 2, 3, 5, 6, 7, 8, 9, 4])
  {
    var blob := StageTenDigits(id, index, md5);
    d1, d2, d3 := RemoveFromList(blob, id, index);
    d4, d5 := MoveToFront(blob, id, index, md5);
  }

  // block_upload: nine blocks staged three at a time, each round committed
  // after the previous ones, then one upload with a wrong digest.

  /** The blocks `lo` to `hi - 1`, block `k` having id `id(k)` and content
      `bodies(k)`. */
  function BlocksOf(id: nat -> BlockId, bodies: nat -> Bytes, lo: nat, hi: nat): (r: seq<Block>)
    requires lo <= hi
    ensures |r| == hi - lo && forall j :: 0 <= j < hi - lo ==> r[j] == Block(id(lo + j), bodies(lo + j))
  {
    seq(hi - lo, j requires 0 <= j < hi - lo => Block(id(lo + j), bodies(lo + j)))
  }

  function IdRange(id: nat -> BlockId, lo: nat, hi: nat): (r: seq<BlockId>)
    requires lo <= hi
    ensures |r| == hi - lo && forall j :: 0 <= j < hi - lo ==> r[j] == id(lo + j)
  {
    seq(hi - lo, j requires 0 <= j < hi - lo => id(lo + j))
  }

  /** The digest header the test expects for block `k`: none in the first
      round (no digest supplied, none computed), the supplied digest in
      the second, the computed one in the third; both are the digest of
      the block's bytes. */
  function ExpectedHeader(md5: Bytes -> string, bodies: nat -> Bytes, k: nat): string
  {
    if k < 3 then "" else md5(bodies(k))
  }

  /** One round of three `upload_block` calls: round 0 supplies no digest
      and turns transactional digests off, round 1 supplies the digest,
      round 2 supplies none and turns them on. */
  method StageRound(blob: CloudBlockBlob, round: nat, id: nat -> BlockId, bodies: nat -> Bytes, md5: Bytes -> string)
    returns (headers: seq<string>)
    requires round < 3
    requires forall i, j :: 0 <= i < j < 9 ==> id(i) != id(j)
    requires blob.Valid() && blob.uncommitted == []
    modifies blob
    ensures blob.Valid() && blob.committed == old(blob.committed)
    ensures blob.uncommitted == BlocksOf(id, bodies, 3 * round, 3 * round + 3)
    ensures |headers| == 3 && forall j :: 0 <= j < 3 ==> headers[j] == ExpectedHeader(md5, bodies, 3 * round + j)
  {
    var base := 3 * round;
    headers := [];
    var j := 0;
    while j < 3
      invariant 0 <= j <= 3
      invariant blob.Valid() && blob.committed == old(blob.committed)
      invariant blob.uncommitted == BlocksOf(id, bodies, base, base + j)
      invariant |headers| == j && forall k :: 0 <= k < j ==> headers[k] == ExpectedHeader(md5, bodies, base + k)
    {
      var body := bodies(base + j);
      var supplied := if round == 1 then md5(body) else "";
      StageNext(id, bodies, base, base + j);
      var sent, _ := blob.UploadBlock(id(base + j), body, supplied, round == 2, md5);
      assert sent == ExpectedHeader(md5, bodies, base + j);
      headers := headers + [sent];
      j := j + 1;
    }
  }

  /** Staging block `i` after the blocks `lo` to `i - 1` appends it. */
  lemma StageNext(id: nat -> BlockId, bodies: nat -> Bytes, lo: nat, i: nat)
    requires lo <= i < 9
    requires forall i, j :: 0 <= i < j < 9 ==> id(i) != id(j)
    ensures DistinctIds(BlocksOf(id, bodies, lo, i))
    ensures Stage(BlocksOf(id, bodies, lo, i), Block(id(i), bodies(i))) == BlocksOf(id, bodies, lo, i + 1)
  {
    var before := BlocksOf(id, bodies, lo, i);
    assert id(i) !in Ids(before) by {
      forall j | 0 <= j < |before| ensures Ids(before)[j] != id(i) {
        assert before[j].id == id(lo + j);
      }
    }
    assert DistinctIds(before) by {
      forall a, b | 0 <= a < b < |before| ensures before[a].id != before[b].id {
        assert before[a].id == id(lo + a) && before[b].id == id(lo + b);
      }
    }
    assert before + [Block(id(i), bodies(i))] == BlocksOf(id, bodies, lo, i + 1);
  }

  /** The commit of a round: the earlier rounds' ids followed by this
      round's ids commit all the blocks so far, in order, and leave nothing
      staged. */
  lemma RoundCommit(base: nat, id: nat -> BlockId, bodies: nat -> Bytes)
    requires base + 3 <= 9
    requires forall i, j :: 0 <= i < j < 9 ==> id(i) != id(j)
    ensures var committed, staged := BlocksOf(id, bodies, 0, base), BlocksOf(id, bodies, base, base + 3);
      && ResolveAll(LatestItems(Ids(committed) + Ids(staged)), committed, staged) == Some(BlocksOf(id, bodies, 0, base + 3))
      && Unreferenced(staged, ItemIds(LatestItems(Ids(committed) + Ids(staged)))) == []
  {
    var committed, staged := BlocksOf(id, bodies, 0, base), BlocksOf(id, bodies, base, base + 3);
    assert DistinctIds(committed) by {
      forall i, j | 0 <= i < j < |committed| ensures committed[i].id != committed[j].id {
        assert committed[i].id == id(i) && committed[j].id == id(j);
      }
    }
    assert DistinctIds(staged) by {
      forall i, j | 0 <= i < j < |staged| ensures staged[i].id != staged[j].id {
        assert staged[i].id == id(base + i) && staged[j].id == id(base + j);
      }
    }
    forall i, j | 0 <= i < |committed| && 0 <= j < |staged| ensures committed[i].id != staged[j].id {
      assert committed[i].id == id(i) && staged[j].id == id(base + j);
    }
    CommitAllStaged(committed, staged);
    assert committed + staged == BlocksOf(id, bodies, 0, base + 3);
  }

  /** Committing the committed ids followed by the staged ids. */
  method CommitRound(blob: CloudBlockBlob, round: nat, id: nat -> BlockId, bodies: nat -> Bytes)
    requires round < 3
    requires forall i, j :: 0 <= i < j < 9 ==> id(i) != id(j)
    requires blob.Valid()
    requires blob.committed == BlocksOf(id, bodies, 0, 3 * round)
    requires blob.uncommitted == BlocksOf(id, bodies, 3 * round, 3 * round + 3)
    modifies blob
    ensures blob.Valid()
    ensures blob.committed == BlocksOf(id, bodies, 0, 3 * round + 3) && blob.uncommitted == []
  {
    RoundCommit(3 * round, id, bodies);
    var r := blob.UploadBlockList(LatestItems(Ids(blob.committed) + Ids(blob.uncommitted)));
  }

  /** The listings taken before the commit of round `r`: the committed
      listing holds the earlier rounds' ids, the uncommitted listing this
      round's, each entry marked with the list it comes from. */
  predicate ListedBeforeCommit(committedListing: seq<BlockListItem>, uncommittedListing: seq<BlockListItem>,
                               id: nat -> BlockId, r: nat)
  {
    && ItemIds(committedListing) == IdRange(id, 0, 3 * r)
    && ItemIds(uncommittedListing) == IdRange(id, 3 * r, 3 * r + 3)
    && (forall j :: 0 <= j < |committedListing| ==> committedListing[j].mode == Committed)
    && (forall j :: 0 <= j < |uncommittedListing| ==> uncommittedListing[j].mode == Uncommitted)
  }

  /** One round of the test: three uploads, both listings, the commit. */
  method UploadRound(blob: CloudBlockBlob, round: nat, id: nat -> BlockId, bodies: nat -> Bytes, md5: Bytes -> string)
    returns (headers: seq<string>, committedListing: seq<BlockListItem>, uncommittedListing: seq<BlockListItem>)
    requires round < 3
    requires forall i, j :: 0 <= i < j < 9 ==> id(i) != id(j)
    requires blob.Valid() && blob.committed == BlocksOf(id, bodies, 0, 3 * round) && blob.uncommitted == []
    modifies blob
    ensures blob.Valid() && blob.committed == BlocksOf(id, bodies, 0, 3 * round + 3) && blob.uncommitted == []
    ensures |headers| == 3 && forall j :: 0 <= j < 3 ==> headers[j] == ExpectedHeader(md5, bodies, 3 * round + j)
    ensures ListedBeforeCommit(committedListing, uncommittedListing, id, round)
  {
    headers := StageRound(blob, round, id, bodies, md5);
    committedListing := blob.DownloadBlockList(ListCommitted);
    uncommittedListing := blob.DownloadBlockList(ListUncommitted);
    assert ItemIds(committedListing) == IdRange(id, 0, 3 * round);
    assert ItemIds(uncommittedListing) == IdRange(id, 3 * round, 3 * round + 3);
    CommitRound(blob, round, id, bodies);
  }

  /** The `block_upload` test. The digest header of every accepted upload
      is the expected one; before each commit the committed listing holds
      the earlier rounds' ids and the uncommitted listing this round's; an
      upload whose supplied digest does not match is rejected, sends that
      digest as it was given, and leaves both listings as they were. */
  method BlockUpload(id: nat -> BlockId, bodies: nat -> Bytes, md5: Bytes -> string, dummyMd5: string)
    returns (headers: seq<string>, failedHeader: string, failed: Result<(), BlobError>,
             committedListings: seq<seq<BlockListItem>>, uncommittedListings: seq<seq<BlockListItem>>)
    requires forall i, j :: 0 <= i < j < 9 ==> id(i) != id(j)
    requires dummyMd5 != "" && dummyMd5 != md5(bodies(9))
    ensures |headers| == 9
    ensures forall k :: 0 <= k < 3 ==> headers[k] == ""
    ensures forall k :: 3 <= k < 9 ==> headers[k] == md5(bodies(k))
    ensures failed == Failure(Md5Mismatch) && failedHeader == dummyMd5
    ensures |committedListings| == 4 && |uncommittedListings| == 4
    ensures forall r :: 0 <= r < 3 ==> ListedBeforeCommit(committedListings[r], uncommittedListings[r], id, r)
    ensures ItemIds(committedListings[3]) == IdRange(id, 0, 9) && uncommittedListings[3] == []
    ensures forall j :: 0 <= j < |committedListings[3]| ==> committedListings[3][j].mode == Committed
  {
    var blob := new CloudBlockBlob();
    headers, committedListings, uncommittedListings := [], [], [];
    var round := 0;
    while round < 3
      invariant 0 <= round <= 3
      invariant fresh(blob) && blob.Valid()
      invariant blob.committed == BlocksOf(id, bodies, 0, 3 * round) && blob.uncommitted == []
      invariant |headers| == 3 * round && forall k :: 0 <= k < |headers| ==> headers[k] == ExpectedHeader(md5, bodies, k)
      invariant |committedListings| == round && |uncommittedListings| == round
      invariant forall r :: 0 <= r < round ==> ListedBeforeCommit(committedListings[r], uncommittedListings[r], id, r)
    {
      var h, c, u := UploadRound(blob, round, id, bodies, md5);
      assert forall k :: |headers| <= k < |headers| + 3 ==> (headers + h)[k] == h[k - |headers|];
      headers := headers + h;
      committedListings := committedListings + [c];
      uncommittedListings := uncommittedListings + [u];
      round := round + 1;
    }
    failedHeader, failed := blob.UploadBlock(id(0), bodies(9), dummyMd5, true, md5);
    committedListings := committedListings + [blob.DownloadBlockList(ListCommitted)];
    uncommittedListings := uncommittedListings + [blob.DownloadBlockList(ListUncommitted)];
    assert ItemIds(committedListings[3]) == IdRange(id, 0, 9);
  }

  // block_blob_constructor

  /** A new blob has no etag; committing an empty block list gives it one
      and leaves it empty. */
  method EmptyCommit() returns (etagBefore: nat, etagAfter: nat, content: Bytes)
    ensures etagBefore == 0 && etagAfter != 0 && content == []
  {
    var blob := new CloudBlockBlob();
    etagBefore := blob.etag;
    var r := blob.UploadBlockList([]);
    etagAfter := blob.etag;
    content := blob.DownloadContent();
  }

  // The block path of an upload: stage every chunk, then commit them.

  /** Each of the first `n` chunks whose id is not reused by a later one
      among them resolves among the staged blocks to that chunk. */
  predicate HoldsLatest(staged: seq<Block>, chunks: seq<Bytes>, id: nat -> BlockId, n: nat)
    requires n <= |chunks|
  {
    forall k :: 0 <= k < n && (forall j :: k < j < n ==> id(j) != id(k)) ==> Find(staged, id(k)) == Some(chunks[k])
  }

  lemma StageLatest(staged: seq<Block>, chunks: seq<Bytes>, id: nat -> BlockId, n: nat)
    requires n < |chunks| && DistinctIds(staged) && HoldsLatest(staged, chunks, id, n)
    ensures HoldsLatest(Stage(staged, Block(id(n), chunks[n])), chunks, id, n + 1)
  {
    StageProperties(staged, Block(id(n), chunks[n]));
  }

  /** Stages the chunks in order, chunk `k` under `id(k)`, with no
      digest: afterwards each id resolves among the staged blocks to the
      last chunk staged under it. */
  method StageChunks(blob: CloudBlockBlob, chunks: seq<Bytes>, id: nat -> BlockId, md5: Bytes -> string)
    returns (ids: seq<BlockId>)
    requires blob.Valid()
    modifies blob
    ensures blob.Valid() && blob.committed == old(blob.committed)
    ensures ids == seq(|chunks|, k requires 0 <= k < |chunks| => id(k))
    ensures forall k :: 0 <= k < |chunks| && (forall j :: k < j < |chunks| ==> id(j) != id(k)) ==>
      Find(blob.uncommitted, id(k)) == Some(chunks[k])
  {
    var i := 0;
    ids := [];
    while i < |chunks|
      invariant 0 <= i <= |chunks|
      invariant blob.Valid() && blob.committed == old(blob.committed)
      invariant ids == seq(i, k requires 0 <= k < i => id(k))
      invariant HoldsLatest(blob.uncommitted, chunks, id, i)
    {
      StageLatest(blob.uncommitted, chunks, id, i);
      var _, _ := blob.UploadBlock(id(i), chunks[i], "", false, md5);
      ids := ids + [id(i)];
      i := i + 1;
    }
  }

  /** The block path of an upload: the chunks are staged under distinct
      ids, in order, and the latest block of each id is committed in that
      order. The blob's content is then exactly the chunks concatenated,
      and none of them stays staged. */
  method UploadChunks(blob: CloudBlockBlob, chunks: seq<Bytes>, id: nat -> BlockId, md5: Bytes -> string)
    requires blob.Valid()
    requires forall i, j :: 0 <= i < j < |chunks| ==> id(i) != id(j)
    modifies blob
    ensures blob.Valid()
    ensures blob.Content() == Concat(chunks)
    ensures forall i :: 0 <= i < |chunks| ==> id(i) !in Ids(blob.uncommitted)
  {
    var ids := StageChunks(blob, chunks, id, md5);
    var items := LatestItems(ids);
    var blocks := seq(|chunks|, k requires 0 <= k < |chunks| => Block(id(k), chunks[k]));
    ResolveAllEach(items, blob.committed, blob.uncommitted, blocks);
    ghost var staged := blob.uncommitted;
    var r := blob.UploadBlockList(items);
    CommittedChunks(blocks, chunks);
    forall k | 0 <= k < |chunks| ensures id(k) !in Ids(blob.uncommitted) {
      assert ItemIds(items)[k] == id(k);
      UnreferencedExcludes(staged, ItemIds(items), id(k));
    }
  }

  lemma {:induction false} CommittedChunks(blocks: seq<Block>, chunks: seq<Bytes>)
    requires |blocks| == |chunks| && forall k :: 0 <= k < |chunks| ==> blocks[k].data == chunks[k]
    ensures ContentOf(blocks) == Concat(chunks)
    decreases |blocks|
  {
    if blocks != [] {
      var n := |blocks| - 1;
      CommittedChunks(blocks[..n], chunks[..n]);
    }
  }
}
