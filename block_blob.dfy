/** A block blob as its operations observe it: blocks are staged one by one
    with `upload_block`, an ordered list of block ids is committed with
    `upload_block_list`, and the blob's content is the committed blocks'
    contents in list order. */
module BlockBlobs {
  import opened Common

  type BlockId = string

  /** `block_list_item::block_mode`: where a block lives, and for a commit
      request, where to look the id up. */
  datatype BlockMode = Committed | Uncommitted | Latest

  /** `block_listing_filter` */
  datatype BlockListingFilter = ListCommitted | ListUncommitted | ListAll

  /** `block_list_item`: an id, the block's size and its mode. */
  datatype BlockListItem = BlockListItem(id: BlockId, size: nat, mode: BlockMode)

  /** `block_list_item(id)`: an entry of a commit request that takes the
      most recent block with that id. */
  function LatestItem(id: BlockId): BlockListItem
  {
    BlockListItem(id, 0, Latest)
  }

  /** A stored block: its id and its content. */
  datatype Block = Block(id: BlockId, data: Bytes)

  /** The rejections of the service (`storage_exception`). */
  datatype BlobError =
    | Md5Mismatch       // the block's bytes do not match the digest sent with them
    | InvalidBlockList  // an entry of a commit request names no block

  /** The ids of stored blocks, in order. */
  function Ids(blocks: seq<Block>): (r: seq<BlockId>)
    ensures |r| == |blocks| && forall i :: 0 <= i < |blocks| ==> r[i] == blocks[i].id
  {
    seq(|blocks|, i requires 0 <= i < |blocks| => blocks[i].id)
  }

  /** The ids named by commit-request entries or listing entries, in
      order. A separate projection from Ids because a `block_list_item`
      carries a mode and a size instead of the block's bytes. */
  function ItemIds(items: seq<BlockListItem>): (r: seq<BlockId>)
    ensures |r| == |items| && forall i :: 0 <= i < |items| ==> r[i] == items[i].id
  {
    seq(|items|, i requires 0 <= i < |items| => items[i].id)
  }

  predicate DistinctIds(blocks: seq<Block>)
  {
    forall i, j :: 0 <= i < j < |blocks| ==> blocks[i].id != blocks[j].id
  }

  /** The content of a list of blocks: their data, concatenated in order. */
  function ContentOf(blocks: seq<Block>): Bytes
  {
    if blocks == [] then [] else ContentOf(blocks[..|blocks| - 1]) + blocks[|blocks| - 1].data
  }

  lemma {:induction false} ContentOfAppend(a: seq<Block>, b: seq<Block>)
    ensures ContentOf(a + b) == ContentOf(a) + ContentOf(b)
    decreases |b|
  {
    if b == [] {
      assert a + b == a;
    } else {
      assert (a + b)[..|a + b| - 1] == a + b[..|b| - 1];
      ContentOfAppend(a, b[..|b| - 1]);
    }
  }

  /** The first position of `id` in `blocks`, or -1. */
  function IndexOf(blocks: seq<Block>, id: BlockId): (r: int)
    ensures -1 <= r < |blocks|
    ensures r >= 0 ==> blocks[r].id == id && forall j :: 0 <= j < r ==> blocks[j].id != id
    ensures r == -1 ==> forall j :: 0 <= j < |blocks| ==> blocks[j].id != id
  {
    if blocks == [] then -1
    else if blocks[0].id == id then 0
    else
      var k := IndexOf(blocks[1..], id);
      if k < 0 then -1 else k + 1
  }

  /** The content of the first block with this id, if any. */
  function Find(blocks: seq<Block>, id: BlockId): (r: Option<Bytes>)
    ensures r.None? <==> id !in Ids(blocks)
    ensures forall i :: 0 <= i < |blocks| && blocks[i].id == id && DistinctIds(blocks) ==> r == Some(blocks[i].data)
  {
    var k := IndexOf(blocks, id);
    if k < 0 then None else Some(blocks[k].data)
  }

  /** Staging a block: a block with a new id joins the end of the staged
      blocks; a block with an id already staged replaces that block's
      content where it stands. */
  function Stage(staged: seq<Block>, block: Block): (r: seq<Block>)
    ensures block.id in Ids(staged) ==> |r| == |staged|
    ensures block.id in Ids(staged) ==>
      forall i :: 0 <= i < |staged| ==> r[i] == if staged[i].id == block.id then block else staged[i]
    ensures block.id !in Ids(staged) ==> r == staged + [block]
  {
    if block.id in Ids(staged) then
      seq(|staged|, i requires 0 <= i < |staged| => if staged[i].id == block.id then block else staged[i])
    else staged + [block]
  }

  /** Staging keeps the staged ids distinct, lists the new id, and makes
      it resolve to the new content while every other id resolves as
      before. */
  lemma StageProperties(staged: seq<Block>, block: Block)
    requires DistinctIds(staged)
    ensures DistinctIds(Stage(staged, block))
    ensures Ids(Stage(staged, block)) == if block.id in Ids(staged) then Ids(staged) else Ids(staged) + [block.id]
    ensures Find(Stage(staged, block), block.id) == Some(block.data)
    ensures forall id :: id != block.id ==> Find(Stage(staged, block), id) == Find(staged, id)
  {
    if block.id in Ids(staged) {
      StageReplacing(staged, block);
    } else {
      StageAppending(staged, block);
    }
  }

  lemma StageReplacing(staged: seq<Block>, block: Block)
    requires DistinctIds(staged) && block.id in Ids(staged)
    ensures DistinctIds(Stage(staged, block)) && Ids(Stage(staged, block)) == Ids(staged)
    ensures Find(Stage(staged, block), block.id) == Some(block.data)
    ensures forall id :: id != block.id ==> Find(Stage(staged, block), id) == Find(staged, id)
  {
    var r := Stage(staged, block);
    assert Ids(r) == Ids(staged);
    var k :| 0 <= k < |staged| && Ids(staged)[k] == block.id;
    assert r[k] == block;
    forall id | id != block.id ensures Find(r, id) == Find(staged, id) {
      if id in Ids(staged) {
        var j :| 0 <= j < |staged| && Ids(staged)[j] == id;
        assert r[j] == staged[j];
      }
    }
  }

  lemma StageAppending(staged: seq<Block>, block: Block)
    requires DistinctIds(staged) && block.id !in Ids(staged)
    ensures DistinctIds(Stage(staged, block)) && Ids(Stage(staged, block)) == Ids(staged) + [block.id]
    ensures Find(Stage(staged, block), block.id) == Some(block.data)
    ensures forall id :: id != block.id ==> Find(Stage(staged, block), id) == Find(staged, id)
  {
    var r := Stage(staged, block);
    assert Ids(r) == Ids(staged) + [block.id];
    assert r[|staged|] == block;
    forall id | id != block.id ensures Find(r, id) == Find(staged, id) {
      if id in Ids(staged) {
        var j :| 0 <= j < |staged| && Ids(staged)[j] == id;
        assert r[j] == staged[j];
      } else {
        assert id !in Ids(r);
      }
    }
  }

  /** What a commit entry refers to: a committed entry looks among the
      committed blocks, an uncommitted one among the staged blocks, and a
      "latest" one prefers a staged block over a committed one. */
  function Resolve(item: BlockListItem, committed: seq<Block>, staged: seq<Block>): (r: Option<Bytes>)
    ensures r.None? <==> match item.mode
      case Committed => item.id !in Ids(committed)
      case Uncommitted => item.id !in Ids(staged)
      case Latest => item.id !in Ids(committed) && item.id !in Ids(staged)
    ensures item.mode == Latest && item.id in Ids(staged) ==> r == Find(staged, item.id)
  {
    match item.mode
    case Committed => Find(committed, item.id)
    case Uncommitted => Find(staged, item.id)
    case Latest => if Find(staged, item.id).Some? then Find(staged, item.id) else Find(committed, item.id)
  }

  /** The blocks a commit request stands for, entry by entry, or None when
      some entry refers to no block. */
  function ResolveAll(items: seq<BlockListItem>, committed: seq<Block>, staged: seq<Block>): Option<seq<Block>>
  {
    if forall i | 0 <= i < |items| :: Resolve(items[i], committed, staged).Some? then
      Some(seq(|items|, i requires 0 <= i < |items| && Resolve(items[i], committed, staged).Some? =>
        Block(items[i].id, Resolve(items[i], committed, staged).value)))
    else None
  }

  /** The staged blocks a commit request does not mention, in staging
      order. */
  function Unreferenced(staged: seq<Block>, referenced: seq<BlockId>): seq<Block>
  {
    if staged == [] then []
    else
      var rest := Unreferenced(staged[..|staged| - 1], referenced);
      if staged[|staged| - 1].id in referenced then rest else rest + [staged[|staged| - 1]]
  }

  /** The blocks left staged are exactly the staged blocks whose ids the
      request does not name. */
  lemma {:induction false} UnreferencedMembers(staged: seq<Block>, referenced: seq<BlockId>)
    ensures forall b :: b in Unreferenced(staged, referenced) <==> b in staged && b.id !in referenced
  {
    if staged != [] {
      var init := staged[..|staged| - 1];
      UnreferencedMembers(init, referenced);
      assert staged == init + [staged[|staged| - 1]];
    }
  }

  /** A request naming every staged block leaves nothing staged. */
  lemma {:induction false} AllReferencedLeavesNothing(staged: seq<Block>, referenced: seq<BlockId>)
    requires forall i :: 0 <= i < |staged| ==> staged[i].id in referenced
    ensures Unreferenced(staged, referenced) == []
  {
    if staged != [] {
      AllReferencedLeavesNothing(staged[..|staged| - 1], referenced);
    }
  }

  /** A staged block named by the commit request does not stay staged. */
  lemma UnreferencedExcludes(staged: seq<Block>, referenced: seq<BlockId>, id: BlockId)
    requires id in referenced
    ensures id !in Ids(Unreferenced(staged, referenced))
  {
    var r := Unreferenced(staged, referenced);
    UnreferencedMembers(staged, referenced);
    forall p | 0 <= p < |r| ensures Ids(r)[p] != id {
      assert r[p] in r;
    }
  }

  lemma {:induction false} UnreferencedDistinct(staged: seq<Block>, referenced: seq<BlockId>)
    requires DistinctIds(staged)
    ensures DistinctIds(Unreferenced(staged, referenced))
  {
    if staged != [] {
      var init := staged[..|staged| - 1];
      var last := staged[|staged| - 1];
      UnreferencedDistinct(init, referenced);
      UnreferencedMembers(init, referenced);
      var rest := Unreferenced(init, referenced);
      if last.id !in referenced {
        forall i | 0 <= i < |rest| ensures rest[i].id != last.id {
          assert rest[i] in init;
        }
      }
    }
  }

  /** The service's check and resolution of a commit request, entry by
      entry, stopping at the first entry that refers to nothing. */
  method ResolveItems(items: seq<BlockListItem>, committed: seq<Block>, staged: seq<Block>)
    returns (r: Option<seq<Block>>)
    ensures r == ResolveAll(items, committed, staged)
  {
    var resolved: seq<Block> := [];
    var i := 0;
    while i < |items|
      invariant 0 <= i <= |items|
      invariant |resolved| == i
      invariant forall j :: 0 <= j < i ==> Resolve(items[j], committed, staged).Some?
      invariant forall j :: 0 <= j < i ==> resolved[j] == Block(items[j].id, Resolve(items[j], committed, staged).value)
    {
      var content := Resolve(items[i], committed, staged);
      if content.None? {
        return None;
      }
      resolved := resolved + [Block(items[i].id, content.value)];
      i := i + 1;
    }
    r := Some(resolved);
    assert ResolveAll(items, committed, staged).Some?;
    assert ResolveAll(items, committed, staged).value == resolved;
  }

  /** The staged blocks left after a commit naming `referenced`. */
  method RemoveReferenced(staged: seq<Block>, referenced: seq<BlockId>) returns (remaining: seq<Block>)
    ensures remaining == Unreferenced(staged, referenced)
  {
    remaining := [];
    var k := 0;
    while k < |staged|
      invariant 0 <= k <= |staged|
      invariant remaining == Unreferenced(staged[..k], referenced)
    {
      assert staged[..k + 1][..k] == staged[..k];
      if staged[k].id !in referenced {
        remaining := remaining + [staged[k]];
      }
      k := k + 1;
    }
    assert staged[..k] == staged;
  }

  /** The listing of a list of blocks, every entry with the given mode. */
  function Listing(blocks: seq<Block>, mode: BlockMode): (r: seq<BlockListItem>)
    ensures |r| == |blocks|
    ensures forall i :: 0 <= i < |blocks| ==> r[i] == BlockListItem(blocks[i].id, |blocks[i].data|, mode)
  {
    seq(|blocks|, i requires 0 <= i < |blocks| => BlockListItem(blocks[i].id, |blocks[i].data|, mode))
  }

  /** The digest header a block upload sends: the caller's digest verbatim
      when there is one, else the computed digest when transactional
      digests are on, else none (the empty string). */
  function Md5Header(contentMd5: string, useTransactionalMd5: bool, computedMd5: string): (r: string)
    ensures contentMd5 != "" ==> r == contentMd5
    ensures contentMd5 == "" && useTransactionalMd5 ==> r == computedMd5
    ensures contentMd5 == "" && !useTransactionalMd5 ==> r == ""
  {
    if contentMd5 == "" && useTransactionalMd5 then computedMd5 else contentMd5
  }

  /** `cloud_block_blob`, with the committed and staged block lists the
      service keeps for it and the etag of its last commit (0: none). */
  class CloudBlockBlob {
    var committed: seq<Block>
    var uncommitted: seq<Block>
    var etag: nat

    ghost predicate Valid()
      reads this
    {
      DistinctIds(uncommitted)
    }

    /** A blob with no blocks and, until its first commit, no etag. */
    constructor ()
      ensures Valid() && committed == [] && uncommitted == [] && etag == 0
    {
      committed, uncommitted, etag := [], [], 0;
    }

    /** The blob's content: the committed blocks' data in list order. */
    function Content(): Bytes
      reads this
    {
      ContentOf(committed)
    }

    /** `upload_block`: sends the block with the digest header chosen by
        Md5Header; the service rejects it when a header is sent that does
        not match the bytes, and then nothing changes. An accepted block is
        staged; the committed list is untouched. */
    method UploadBlock(id: BlockId, body: Bytes, contentMd5: string, useTransactionalMd5: bool, md5: Bytes -> string)
      returns (sentMd5: string, r: Result<(), BlobError>)
      requires Valid()
      modifies this
      ensures Valid()
      ensures sentMd5 == Md5Header(contentMd5, useTransactionalMd5, md5(body))
      ensures r.Failure? <==> sentMd5 != "" && sentMd5 != md5(body)
      ensures r.Failure? ==> r.error == Md5Mismatch && uncommitted == old(uncommitted)
      ensures r.Success? ==> uncommitted == Stage(old(uncommitted), Block(id, body))
      ensures committed == old(committed) && etag == old(etag)
    {
      sentMd5 := Md5Header(contentMd5, useTransactionalMd5, md5(body));
      if sentMd5 != "" && sentMd5 != md5(body) {
        return sentMd5, Failure(Md5Mismatch);
      }
      StageProperties(uncommitted, Block(id, body));
      uncommitted := Stage(uncommitted, Block(id, body));
      r := Success(());
    }

    /** `upload_block_list`: every entry must refer to a block; then the
        entries' blocks, in request order and with repeats, become the
        committed list, the staged blocks the request names leave the
        staged list, and the etag changes. A request with an entry that
        refers to nothing is rejected and changes nothing. */
    method UploadBlockList(items: seq<BlockListItem>) returns (r: Result<nat, BlobError>)
      requires Valid()
      modifies this
      ensures Valid()
      ensures r.Success? <==> ResolveAll(items, old(committed), old(uncommitted)).Some?
      ensures r.Success? ==> committed == ResolveAll(items, old(committed), old(uncommitted)).value
      ensures r.Success? ==> uncommitted == Unreferenced(old(uncommitted), ItemIds(items))
      ensures r.Success? ==> etag == old(etag) + 1 && r.value == etag
      ensures r.Failure? ==> r.error == InvalidBlockList
      ensures r.Failure? ==> committed == old(committed) && uncommitted == old(uncommitted) && etag == old(etag)
    {
      var resolved := ResolveItems(items, committed, uncommitted);
      if resolved.None? {
        return Failure(InvalidBlockList);
      }
      var remaining := RemoveReferenced(uncommitted, ItemIds(items));
      UnreferencedDistinct(uncommitted, ItemIds(items));
      committed, uncommitted, etag := resolved.value, remaining, etag + 1;
      r := Success(etag);
    }

    /** `download_text` / `download_to_stream`: the committed blocks' data
        concatenated in committed-list order. */
    method DownloadContent() returns (data: Bytes)
      ensures data == ContentOf(committed)
    {
      data := [];
      var i := 0;
      while i < |committed|
        invariant 0 <= i <= |committed|
        invariant data == ContentOf(committed[..i])
      {
        assert committed[..i + 1][..i] == committed[..i];
        data := data + committed[i].data;
        i := i + 1;
      }
      assert committed[..i] == committed;
    }

    /** `download_block_list(filter)`: the committed blocks in committed
        order, the staged blocks in staging order, or both, committed
        first, each entry marked with where the block lives. */
    function DownloadBlockList(filter: BlockListingFilter): (r: seq<BlockListItem>)
      reads this
      ensures filter == ListCommitted ==> |r| == |committed|
      ensures filter == ListUncommitted ==> |r| == |uncommitted|
      ensures filter == ListAll ==> |r| == |committed| + |uncommitted|
      ensures filter != ListUncommitted ==>
        forall i :: 0 <= i < |committed| ==> r[i] == BlockListItem(committed[i].id, |committed[i].data|, Committed)
      ensures filter == ListUncommitted ==>
        forall i :: 0 <= i < |uncommitted| ==> r[i] == BlockListItem(uncommitted[i].id, |uncommitted[i].data|, Uncommitted)
      ensures filter == ListAll ==>
        forall i :: 0 <= i < |uncommitted| ==>
          r[|committed| + i] == BlockListItem(uncommitted[i].id, |uncommitted[i].data|, Uncommitted)
    {
      match filter
      case ListCommitted => Listing(committed, Committed)
      case ListUncommitted => Listing(uncommitted, Uncommitted)
      case ListAll => Listing(committed, Committed) + Listing(uncommitted, Uncommitted)
    }
  }

  /** A commit replaces the content with the referenced blocks' contents in
      request order: each entry contributes its block's whole content at
      its own position, however often the id repeats. */
  lemma {:induction false} CommittedContent(items: seq<BlockListItem>, committed: seq<Block>, staged: seq<Block>)
    requires ResolveAll(items, committed, staged).Some?
    ensures ContentOf(ResolveAll(items, committed, staged).value)
         == Concat(seq(|items|, i requires 0 <= i < |items| => Resolve(items[i], committed, staged).value))
    decreases |items|
  {
    if items != [] {
      var n := |items| - 1;
      var blocks := ResolveAll(items, committed, staged).value;
      var init := items[..n];
      assert forall i | 0 <= i < |init| :: init[i] == items[i];
      CommittedContent(init, committed, staged);
      assert ResolveAll(init, committed, staged).value == blocks[..n];
      var parts := seq(|items|, i requires 0 <= i < |items| => Resolve(items[i], committed, staged).value);
      assert parts[..n] == seq(|init|, i requires 0 <= i < |init| => Resolve(init[i], committed, staged).value);
    }
  }

  /** The commit request that takes the latest block for each id, in
      order. */
  function LatestItems(ids: seq<BlockId>): (r: seq<BlockListItem>)
    ensures |r| == |ids| && forall i :: 0 <= i < |ids| ==> r[i] == LatestItem(ids[i])
  {
    seq(|ids|, i requires 0 <= i < |ids| => LatestItem(ids[i]))
  }

  /** Committing the committed ids followed by the staged ids (the pattern
      the block upload test uses) keeps the old blocks, appends the staged
      blocks after them, and leaves nothing staged. */
  lemma CommitAllStaged(committed: seq<Block>, staged: seq<Block>)
    requires DistinctIds(committed) && DistinctIds(staged)
    requires forall i, j :: 0 <= i < |committed| && 0 <= j < |staged| ==> committed[i].id != staged[j].id
    ensures ResolveAll(LatestItems(Ids(committed) + Ids(staged)), committed, staged) == Some(committed + staged)
    ensures Unreferenced(staged, ItemIds(LatestItems(Ids(committed) + Ids(staged)))) == []
  {
    var items := LatestItems(Ids(committed) + Ids(staged));
    var all := committed + staged;
    forall i | 0 <= i < |items|
      ensures items[i].id == all[i].id && Resolve(items[i], committed, staged) == Some(all[i].data)
    {
      LatestOfEach(committed, staged, i);
    }
    ResolveAllEach(items, committed, staged, all);
    StagedAllReferenced(committed, staged);
  }

  /** A commit request whose every entry resolves to a given block's
      content stands for exactly those blocks. */
  lemma ResolveAllEach(items: seq<BlockListItem>, committed: seq<Block>, staged: seq<Block>, blocks: seq<Block>)
    requires |blocks| == |items|
    requires forall i :: 0 <= i < |items| ==>
      items[i].id == blocks[i].id && Resolve(items[i], committed, staged) == Some(blocks[i].data)
    ensures ResolveAll(items, committed, staged) == Some(blocks)
  {
    var r := ResolveAll(items, committed, staged);
    assert r.Some?;
    assert forall i :: 0 <= i < |items| ==> r.value[i] == blocks[i];
    assert r.value == blocks;
  }

  lemma LatestOfEach(committed: seq<Block>, staged: seq<Block>, i: nat)
    requires DistinctIds(committed) && DistinctIds(staged)
    requires forall i, j :: 0 <= i < |committed| && 0 <= j < |staged| ==> committed[i].id != staged[j].id
    requires i < |committed| + |staged|
    ensures Resolve(LatestItem((Ids(committed) + Ids(staged))[i]), committed, staged) == Some((committed + staged)[i].data)
  {
    if i < |committed| {
      assert (Ids(committed) + Ids(staged))[i] == committed[i].id;
      assert committed[i].id !in Ids(staged) by {
        forall j | 0 <= j < |staged| ensures Ids(staged)[j] != committed[i].id {}
      }
    } else {
      assert (Ids(committed) + Ids(staged))[i] == staged[i - |committed|].id;
    }
  }

  lemma StagedAllReferenced(committed: seq<Block>, staged: seq<Block>)
    ensures Unreferenced(staged, ItemIds(LatestItems(Ids(committed) + Ids(staged)))) == []
  {
    var referenced := ItemIds(LatestItems(Ids(committed) + Ids(staged)));
    forall j | 0 <= j < |staged| ensures staged[j].id in referenced {
      assert referenced[|committed| + j] == staged[j].id;
    }
    AllReferencedLeavesNothing(staged, referenced);
  }

  /** The "all" listing is the committed listing followed by the
      uncommitted listing. */
  lemma AllListingSplits(blob: CloudBlockBlob)
    ensures blob.DownloadBlockList(ListAll)
         == blob.DownloadBlockList(ListCommitted) + blob.DownloadBlockList(ListUncommitted)
  {
  }
}
