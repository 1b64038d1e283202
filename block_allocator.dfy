/** A reference `BlockAllocator` for one memory tier: a fixed pool of
    `numBlocks` physical slots with ids `firstId .. firstId + numBlocks - 1`,
    an array of reference counts, and a FIFO free list.

    Object invariant (`Valid`): the free list holds distinct in-range ids,
    and an in-range id is on it exactly when its reference count is 0. */
module BlockAllocators {
  import opened Wrappers
  import opened Blocks

  datatype AllocError =
    | NoFreeBlocks
    | BlockFailure(cause: BlockError)
    | NotAllocated(blockId: Option<int>)
  {
    /** `NoFreeBlocksError` is a subclass of `ValueError`; the allocator's
        other failures are not. */
    predicate IsValueError() { NoFreeBlocks? }
  }

  predicate NoDup(s: seq<int>) {
    forall i, j :: 0 <= i < j < |s| ==> s[i] != s[j]
  }

  /** `[lo, lo + 1, ..., lo + n - 1]`. */
  function IdRange(lo: int, n: nat): (r: seq<int>)
    ensures |r| == n
    ensures forall i :: 0 <= i < n ==> r[i] == lo + i
  {
    if n == 0 then [] else IdRange(lo, n - 1) + [lo + n - 1]
  }

  lemma {:induction false} DistinctCard(s: seq<int>)
    requires NoDup(s)
    ensures |set x | x in s| == |s|
  {
    if s != [] {
      DistinctCard(s[1..]);
      assert (set x | x in s) == {s[0]} + (set x | x in s[1..]);
      assert s[0] !in (set x | x in s[1..]);
    }
  }

  lemma IdRangeDistinct(lo: int, n: nat)
    ensures NoDup(IdRange(lo, n))
    ensures forall x :: x in IdRange(lo, n) <==> lo <= x < lo + n
  {
    var r := IdRange(lo, n);
    forall x | lo <= x < lo + n ensures x in r {
      assert r[x - lo] == x;
    }
  }

  /** A duplicate-free list of ids drawn from a range of n ids has at most
      n entries. */
  lemma DistinctInRangeBound(s: seq<int>, lo: int, n: nat)
    requires NoDup(s)
    requires forall i :: 0 <= i < |s| ==> lo <= s[i] < lo + n
    ensures |s| <= n
  {
    var a := set x | x in s;
    var b := set x | x in IdRange(lo, n);
    IdRangeDistinct(lo, n);
    DistinctCard(s);
    DistinctCard(IdRange(lo, n));
    assert a <= b;
    assert b == a + (b - a);
  }

  /** The result `r` of `get_common_computed_block_ids(ss)`: a prefix of every
      list in `ss` that holds only computed ids, and that cannot be extended
      by one more id shared by all lists and computed. */
  ghost predicate IsCommonComputedPrefix(ss: seq<seq<int>>, computed: set<int>, r: seq<int>) {
    && (forall s :: s in ss ==> r <= s)
    && (forall k :: 0 <= k < |r| ==> r[k] in computed)
    && (ss == [] ==> r == [])
    && (ss != [] ==> !Extendable(ss, computed, |r|))
  }

  ghost predicate Extendable(ss: seq<seq<int>>, computed: set<int>, k: nat)
    requires ss != []
  {
    k < |ss[0]| && ss[0][k] in computed && forall s :: s in ss ==> |s| > k && s[k] == ss[0][k]
  }

  /** `IsCommonComputedPrefix` determines its result: there is exactly one
      longest common computed prefix. */
  lemma CommonComputedPrefixUnique(ss: seq<seq<int>>, computed: set<int>, r1: seq<int>, r2: seq<int>)
    requires IsCommonComputedPrefix(ss, computed, r1)
    requires IsCommonComputedPrefix(ss, computed, r2)
    ensures r1 == r2
  {
    if ss != [] {
      assert ss[0] in ss;
      assert r1 <= ss[0] && r2 <= ss[0];
      if |r1| < |r2| {
        assert Extendable(ss, computed, |r1|) by {
          forall s | s in ss ensures |s| > |r1| && s[|r1|] == ss[0][|r1|] {
            assert r2 <= s;
          }
        }
      } else if |r2| < |r1| {
        assert Extendable(ss, computed, |r2|) by {
          forall s | s in ss ensures |s| > |r2| && s[|r2|] == ss[0][|r2|] {
            assert r1 <= s;
          }
        }
      }
    }
  }

  /** The common-prefix scan behind `get_common_computed_block_ids`, for a
      given set of computed ids. */
  method CommonComputedPrefix(ss: seq<seq<int>>, computed: set<int>) returns (r: seq<int>)
    ensures IsCommonComputedPrefix(ss, computed, r)
  {
    if ss == [] {
      return [];
    }
    var first := ss[0];
    var k := 0;
    while k < |first| && first[k] in computed && (forall s | s in ss :: |s| > k && s[k] == first[k])
      invariant 0 <= k <= |first|
      invariant forall s :: s in ss ==> first[..k] <= s
      invariant forall j :: 0 <= j < k ==> first[j] in computed
    {
      forall s | s in ss ensures first[..k + 1] <= s {
        assert first[..k] <= s;
      }
      k := k + 1;
    }
    r := first[..k];
  }

  /** Ids of a chain whose blocks all carry one. */
  function ChainIds(chain: seq<Block>): (ids: seq<int>)
    reads set b | b in chain
    requires forall k :: 0 <= k < |chain| ==> chain[k].blockId.Some?
    ensures |ids| == |chain|
    ensures forall k :: 0 <= k < |chain| ==> chain[k].blockId == Some(ids[k])
  {
    if chain == [] then [] else [chain[0].blockId.value] + ChainIds(chain[1..])
  }

  /** Walks the `prev` links of `last` back to the root: its chain. */
  method ChainOf(last: Block) returns (path: seq<Block>)
    requires last.Linked()
    ensures path == last.Chain()
  {
    path := [];
    var cur: Block? := last;
    while cur != null
      invariant cur != null ==> cur.Linked() && cur.Chain() + path == last.Chain()
      invariant cur == null ==> path == last.Chain()
      decreases if cur == null then 0 else |cur.ancestors| + 1
    {
      if cur.prev != null {
        assert cur.prev.Chain() == cur.ancestors;
      }
      path := [cur] + path;
      cur := cur.prev;
    }
  }

  /** Fresh blocks with the contents, ids and capacities of `path`, each
      linked to the one before it. */
  method CopyChain(path: seq<Block>) returns (out: seq<Block>)
    requires path != []
    ensures CopiesChain(out, path)
    ensures forall k :: 0 <= k < |out| ==> fresh(out[k])
  {
    out := [];
    var i := 0;
    while i < |path|
      invariant 0 <= i <= |path| && |out| == i
      invariant i > 0 ==> out[i - 1].Linked() && out[i - 1].Chain() == out
      invariant forall k :: 0 <= k < i ==> && fresh(out[k])
                                           && out[k].tokenIds == path[k].tokenIds
                                           && out[k].blockId == path[k].blockId
                                           && out[k].blockSize == path[k].blockSize
    {
      var src := path[i];
      var nb := new Block(if i == 0 then null else out[i - 1], src.tokenIds, src.blockSize, src.blockId);
      out := out + [nb];
      i := i + 1;
    }
  }

  /** `out` is a linked chain of its own, block by block with the contents,
      ids and sizes of `chain`. */
  ghost predicate CopiesChain(out: seq<Block>, chain: seq<Block>)
    reads set b | b in out, set b | b in chain
  {
    && |out| == |chain| && out != []
    && out[|out| - 1].Linked() && out[|out| - 1].Chain() == out
    && forall k :: 0 <= k < |out| ==> && out[k].tokenIds == chain[k].tokenIds
                                      && out[k].blockId == chain[k].blockId
                                      && out[k].blockSize == chain[k].blockSize
  }

  class BlockAllocator {
    const firstId: int
    const numBlocks: nat
    const blockSize: nat
    const refcounts: array<nat>
    var freeList: seq<int>
    var computed: set<int>
    var accessed: set<int>
    var copyOnWrites: map<int, seq<int>>

    predicate InRange(id: int) {
      firstId <= id < firstId + numBlocks
    }

    ghost predicate Valid()
      reads this, refcounts
    {
      && refcounts.Length == numBlocks
      && NoDup(freeList)
      && (forall i :: 0 <= i < |freeList| ==> InRange(freeList[i]))
      && (forall id :: InRange(id) ==> (refcounts[id - firstId] == 0 <==> id in freeList))
      && (forall src :: src in copyOnWrites ==> InRange(src))
    }

    /** The id names a slot of this pool that some block holds. */
    predicate Owned(id: Option<int>)
      reads this, refcounts
    {
      id.Some? && InRange(id.value) && id.value - firstId < refcounts.Length && refcounts[id.value - firstId] > 0
    }

    /** The ids whose slots are held by at least one block. */
    function AllocatedIds(): set<int>
      reads this, refcounts
      requires Valid()
    {
      set id | id in AllBlockIds() && refcounts[id - firstId] > 0
    }

    constructor (firstId: int, numBlocks: nat, blockSize: nat)
      ensures Valid() && fresh(refcounts)
      ensures this.firstId == firstId && this.numBlocks == numBlocks && this.blockSize == blockSize
      ensures freeList == IdRange(firstId, numBlocks)
      ensures forall j :: 0 <= j < numBlocks ==> refcounts[j] == 0
      ensures computed == {} && accessed == {} && copyOnWrites == map[]
    {
      this.firstId := firstId;
      this.numBlocks := numBlocks;
      this.blockSize := blockSize;
      refcounts := new nat[numBlocks](_ => 0);
      freeList := IdRange(firstId, numBlocks);
      computed, accessed, copyOnWrites := {}, {}, map[];
      new;
      forall id | InRange(id) ensures id in freeList {
        assert freeList[id - firstId] == id;
      }
    }

    /** `all_block_ids`: exactly the ids of the pool, `numBlocks` of them. */
    function AllBlockIds(): (s: set<int>)
      ensures forall id :: id in s <==> InRange(id)
      ensures |s| == numBlocks
    {
      IdRangeDistinct(firstId, numBlocks);
      DistinctCard(IdRange(firstId, numBlocks));
      set id | id in IdRange(firstId, numBlocks)
    }

    /** `get_num_free_blocks`: the number of slots with reference count 0,
        which never exceeds the size of `all_block_ids`. */
    function GetNumFreeBlocks(): (n: nat)
      reads this, refcounts
      requires Valid()
      ensures n <= |AllBlockIds()|
      ensures n == |set id | id in AllBlockIds() && refcounts[id - firstId] == 0|
    {
      DistinctInRangeBound(freeList, firstId, numBlocks);
      DistinctCard(freeList);
      assert (set x | x in freeList) == (set id | id in AllBlockIds() && refcounts[id - firstId] == 0);
      |freeList|
    }

    /** Takes the slot at the head of the free list, if any, and gives it
        reference count 1; a reused slot is neither computed nor accessed. */
    method TakeFreeSlot() returns (id: Option<int>)
      requires Valid()
      modifies this`freeList, this`computed, this`accessed, refcounts
      ensures Valid()
      ensures id.None? <==> old(freeList) == []
      ensures id.None? ==> unchanged(this, refcounts)
      ensures id.Some? ==> && id.value == old(freeList)[0] && InRange(id.value)
                           && freeList == old(freeList)[1..]
                           && refcounts[..] == old(refcounts[..])[id.value - firstId := 1]
                           && computed == old(computed) - {id.value}
                           && accessed == old(accessed) - {id.value}
    {
      if freeList == [] {
        return None;
      }
      var k := freeList[0];
      assert k !in freeList[1..];
      refcounts[k - firstId] := 1;
      freeList := freeList[1..];
      computed := computed - {k};
      accessed := accessed - {k};
      forall x | InRange(x) ensures refcounts[x - firstId] == 0 <==> x in freeList {
        if x != k {
          assert x in old(freeList) <==> x in freeList;
        }
      }
      return Some(k);
    }

    /** `allocate_mutable(prev_block)`: a fresh empty block appended to
        `prev`'s chain, holding a slot with reference count 1; with no free
        slot the call fails with `NoFreeBlocksError` and changes nothing. */
    method AllocateMutable(prev: Block?) returns (r: Result<Block, AllocError>)
      requires Valid()
      requires prev != null ==> prev.Linked()
      modifies this, refcounts
      ensures Valid()
      ensures r.Failure? <==> old(freeList) == []
      ensures r.Failure? ==> r.error == NoFreeBlocks && r.error.IsValueError() && unchanged(this, refcounts)
      ensures r.Success? ==> && fresh(r.value) && r.value.Linked()
                             && r.value.prev == prev && r.value.tokenIds == [] && r.value.blockSize == blockSize
                             && r.value.blockId == Some(old(freeList)[0])
                             && freeList == old(freeList)[1..]
                             && refcounts[..] == old(refcounts[..])[old(freeList)[0] - firstId := 1]
                             && computed == old(computed) - {old(freeList)[0]}
                             && accessed == old(accessed) - {old(freeList)[0]}
                             && copyOnWrites == old(copyOnWrites)
    {
      var id := TakeFreeSlot();
      if id.None? {
        return Failure(NoFreeBlocks);
      }
      var b := new Block(prev, [], blockSize, id);
      return Success(b);
    }

    /** `allocate_immutable(prev_block, token_ids)`: like `AllocateMutable`,
        with the block already holding `tokenIds`; contents longer than a
        block fail with `CapacityExceeded` before any slot is taken. */
    method AllocateImmutable(prev: Block?, tokenIds: seq<int>) returns (r: Result<Block, AllocError>)
      requires Valid()
      requires prev != null ==> prev.Linked()
      modifies this, refcounts
      ensures Valid()
      ensures r.Failure? <==> |tokenIds| > blockSize || old(freeList) == []
      ensures r.Failure? ==> unchanged(this, refcounts)
      ensures |tokenIds| > blockSize ==> r == Failure(BlockFailure(CapacityExceeded(|tokenIds|, blockSize)))
      ensures |tokenIds| <= blockSize && old(freeList) == [] ==> r == Failure(NoFreeBlocks)
      ensures r.Success? ==> && fresh(r.value) && r.value.Linked()
                             && r.value.prev == prev && r.value.tokenIds == tokenIds && r.value.blockSize == blockSize
                             && r.value.blockId == Some(old(freeList)[0])
                             && freeList == old(freeList)[1..]
                             && refcounts[..] == old(refcounts[..])[old(freeList)[0] - firstId := 1]
                             && computed == old(computed) - {old(freeList)[0]}
                             && accessed == old(accessed) - {old(freeList)[0]}
                             && copyOnWrites == old(copyOnWrites)
    {
      if |tokenIds| > blockSize {
        return Failure(BlockFailure(CapacityExceeded(|tokenIds|, blockSize)));
      }
      var id := TakeFreeSlot();
      if id.None? {
        return Failure(NoFreeBlocks);
      }
      var b := new Block(prev, tokenIds, blockSize, id);
      return Success(b);
    }

    /** `free(block)`: drops one reference to the block's slot and unbinds
        the block; the slot joins the free list when its count reaches 0.
        Freeing a block that holds no slot of this pool is an error. */
    method Free(block: Block) returns (r: Outcome<AllocError>)
      requires Valid()
      modifies this`freeList, refcounts, block`blockId
      ensures Valid()
      ensures r.Pass? <==> old(Owned(block.blockId))
      ensures r.Fail? ==> && r.error == NotAllocated(old(block.blockId)) && !r.error.IsValueError()
                          && unchanged(this, refcounts) && block.blockId == old(block.blockId)
      ensures r.Pass? ==> && var k := old(block.blockId).value - firstId;
                          && block.blockId == None
                          && refcounts[..] == old(refcounts[..])[k := old(refcounts[k]) - 1]
                          && freeList == old(freeList) + (if old(refcounts[k]) == 1 then [old(block.blockId).value] else [])
    {
      if !Owned(block.blockId) {
        return Fail(NotAllocated(block.blockId));
      }
      var id := block.blockId.value;
      var k := id - firstId;
      refcounts[k] := refcounts[k] - 1;
      if refcounts[k] == 0 {
        assert id !in freeList;
        freeList := freeList + [id];
      }
      block.blockId := None;
      return Pass;
    }

    /** Every block of the chain holds a slot of this pool. */
    predicate ChainOwned(chain: seq<Block>)
      reads this, refcounts, set b | b in chain
    {
      forall k :: 0 <= k < |chain| ==> Owned(chain[k].blockId)
    }

    /** Gives every listed slot one more reference per occurrence. */
    method AddReferences(ids: seq<int>)
      requires Valid()
      requires forall k :: 0 <= k < |ids| ==> Owned(Some(ids[k]))
      modifies refcounts
      ensures Valid()
      ensures RefsAdded(old(refcounts[..]), refcounts[..], ids)
    {
      var i := 0;
      while i < |ids|
        invariant 0 <= i <= |ids|
        invariant forall j :: 0 <= j < numBlocks ==> refcounts[j] == old(refcounts[j]) + multiset(ids[..i])[firstId + j]
      {
        var k := ids[i] - firstId;
        assert Owned(Some(ids[i]));
        assert ids[..i + 1] == ids[..i] + [ids[i]];
        refcounts[k] := refcounts[k] + 1;
        i := i + 1;
      }
      assert ids[..|ids|] == ids;
      forall id | InRange(id)
        ensures refcounts[id - firstId] == 0 <==> id in freeList
      {
        if multiset(ids)[id] > 0 {
          assert id in ids;
          var k :| 0 <= k < |ids| && ids[k] == id;
          assert old(Owned(Some(ids[k])));
        }
      }
    }

    /** `after` is `before` with one more reference per occurrence in `ids`. */
    ghost predicate RefsAdded(before: seq<nat>, after: seq<nat>, ids: seq<int>) {
      |before| == |after| && forall j :: 0 <= j < |after| ==> after[j] == before[j] + multiset(ids)[firstId + j]
    }

    /** `fork(last_block)`: a new chain of fresh blocks with the same
        contents and ids as `last`'s chain, each of whose slots gains one
        reference per occurrence; nothing is copied. If some block of the
        chain holds no slot of this pool, the call fails and changes nothing. */
    method Fork(last: Block) returns (r: Result<seq<Block>, AllocError>)
      requires Valid()
      requires last.Linked()
      modifies refcounts
      ensures Valid()
      ensures r.Failure? <==> !old(ChainOwned(last.Chain()))
      ensures r.Failure? ==> r.error.NotAllocated? && unchanged(refcounts)
      ensures r.Success? ==>
        && CopiesChain(r.value, last.Chain())
        && (forall k :: 0 <= k < |r.value| ==> fresh(r.value[k]))
        && RefsAdded(old(refcounts[..]), refcounts[..], old(ChainIds(last.Chain())))
    {
      var path := ChainOf(last);
      if !ChainOwned(path) {
        return Failure(NotAllocated(last.blockId));
      }

      assert old(ChainOwned(last.Chain()));
      var ids := ChainIds(path);
      assert ids == old(ChainIds(last.Chain()));
      AddReferences(ids);
      var out := CopyChain(path);
      assert RefsAdded(old(refcounts[..]), refcounts[..], ids);
      r := Success(out);
    }

    /** The reference allocator's write path: appends `ids` to `block`. A
        block whose slot is shared (reference count > 1) is first moved to a
        fresh slot: the old slot loses one reference and the move is queued
        for `clear_copy_on_writes` as source -> destination. */
    method AppendTokenIds(block: Block, ids: seq<int>) returns (r: Outcome<AllocError>)
      requires Valid()
      modifies this`freeList, this`computed, this`accessed, this`copyOnWrites, refcounts, block`tokenIds, block`blockId
      ensures Valid()
      ensures !old(Owned(block.blockId)) ==> r == Fail(NotAllocated(old(block.blockId)))
      ensures old(Owned(block.blockId)) && |ids| > old(block.NumEmptySlots()) ==>
                r == Fail(BlockFailure(CapacityExceeded(|ids|, old(block.NumEmptySlots()))))
      ensures old(Owned(block.blockId)) && |ids| <= old(block.NumEmptySlots())
              && old(refcounts[block.blockId.value - firstId]) > 1 && old(freeList) == [] ==>
                r == Fail(NoFreeBlocks)
      ensures r.Pass? <==> old(CanAppend(block, ids))
      ensures r.Fail? ==> unchanged(this, refcounts, block)
      ensures r.Pass? ==> && old(Owned(block.blockId))
                          && block.tokenIds == old(block.tokenIds) + ids
                          && var src := old(block.blockId).value;
                          && var k := src - firstId;
                          && (old(refcounts[k]) == 1 ==>
                                && block.blockId == Some(src) && freeList == old(freeList)
                                && refcounts[..] == old(refcounts[..]) && copyOnWrites == old(copyOnWrites)
                                && computed == old(computed) && accessed == old(accessed))
                          && (old(refcounts[k]) > 1 ==>
                                && var dst := old(freeList)[0];
                                && block.blockId == Some(dst) && freeList == old(freeList)[1..]
                                && refcounts[..] == old(refcounts[..])[k := old(refcounts[k]) - 1][dst - firstId := 1]
                                && copyOnWrites == old(copyOnWrites)[src := old(CowTargets(src)) + [dst]]
                                && computed == old(computed) - {dst} && accessed == old(accessed) - {dst})
    {
      if !Owned(block.blockId) {
        return Fail(NotAllocated(block.blockId));
      }
      if |ids| > block.NumEmptySlots() {
        return Fail(BlockFailure(CapacityExceeded(|ids|, block.NumEmptySlots())));
      }
      var src := block.blockId.value;
      var k := src - firstId;
      if refcounts[k] > 1 {
        if freeList == [] {
          return Fail(NoFreeBlocks);
        }
        ghost var before := refcounts[..];
        var dst := TakeFreeSlot();
        assert dst.value != src;
        refcounts[k] := refcounts[k] - 1;
        assert refcounts[..] == before[k := before[k] - 1][dst.value - firstId := 1];
        copyOnWrites := copyOnWrites[src := CowTargets(src) + [dst.value]];
        block.blockId := dst;
      }
      block.tokenIds := block.tokenIds + ids;
      return Pass;
    }

    /** Appending `ids` to `block` succeeds: the block holds a slot of this
        pool, the ids fit, and a shared slot finds a free slot to move to. */
    predicate CanAppend(block: Block, ids: seq<int>)
      reads this, refcounts, block
    {
      && Owned(block.blockId)
      && |ids| <= block.NumEmptySlots()
      && (refcounts[block.blockId.value - firstId] > 1 ==> freeList != [])
    }

    /** The destinations queued so far for source slot `src`. */
    function CowTargets(src: int): seq<int>
      reads this
    {
      if src in copyOnWrites then copyOnWrites[src] else []
    }

    /** `clear_copy_on_writes`: returns the queued source -> destinations
        map and empties the queue, so a second call returns an empty map. */
    method ClearCopyOnWrites() returns (r: map<int, seq<int>>)
      modifies this`copyOnWrites
      ensures r == old(copyOnWrites) && copyOnWrites == map[]
    {
      r := copyOnWrites;
      copyOnWrites := map[];
    }

    /** `mark_blocks_as_accessed`: takes no block list, so every allocated
        block is marked. */
    method MarkBlocksAsAccessed()
      requires Valid()
      modifies this`accessed
      ensures accessed == old(accessed) + AllocatedIds()
    {
      accessed := accessed + AllocatedIds();
    }

    /** `mark_blocks_as_computed`: takes no block list, so every allocated
        block is marked. */
    method MarkBlocksAsComputed()
      requires Valid()
      modifies this`computed
      ensures computed == old(computed) + AllocatedIds()
    {
      computed := computed + AllocatedIds();
    }

    /** `get_common_computed_block_ids`: the longest prefix of computed ids
        shared by every list. */
    method GetCommonComputedBlockIds(seqBlockIds: seq<seq<int>>) returns (r: seq<int>)
      ensures IsCommonComputedPrefix(seqBlockIds, computed, r)
    {
      r := CommonComputedPrefix(seqBlockIds, computed);
    }
  }
}
