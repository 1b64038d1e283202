/** The `Block` of the KV-cache block manager: one fixed-capacity slot of
    token ids, linked to the block before it in the same sequence.

    `prev` and `blockSize` never change once a block is built, so they are
    constants; the ghost constant `ancestors` records the blocks reachable
    through `prev`, root first, which is what makes the chain finite. */
module Blocks {
  import opened Wrappers

  datatype BlockError = CapacityExceeded(requested: nat, available: int)

  class Block {
    const prev: Block?
    const blockSize: nat
    ghost const ancestors: seq<Block>
    var tokenIds: seq<int>
    var blockId: Option<int>

    /** The `prev` links of this block form a finite chain, root first in
        `ancestors`, that ends in a block without a predecessor. */
    ghost predicate Linked()
      decreases |ancestors|
    {
      if prev == null then ancestors == []
      else ancestors == prev.ancestors + [prev] && prev.Linked()
    }

    /** The whole chain this block closes, root first. */
    ghost function Chain(): seq<Block> {
      ancestors + [this]
    }

    function NumEmptySlots(): int
      reads this
    {
      blockSize - |tokenIds|
    }

    predicate IsFull()
      reads this
    {
      NumEmptySlots() == 0
    }

    /** `Block.Factory`: a block with the given predecessor, contents and
        capacity; the block id is unset (`None`) unless one is given. */
    constructor (prev: Block?, tokenIds: seq<int>, blockSize: nat, blockId: Option<int> := None)
      requires prev != null ==> prev.Linked()
      ensures this.prev == prev && this.tokenIds == tokenIds
      ensures this.blockSize == blockSize && this.blockId == blockId
      ensures Linked()
      ensures Chain() == (if prev == null then [] else prev.Chain()) + [this]
    {
      this.prev := prev;
      this.blockSize := blockSize;
      this.ancestors := if prev == null then [] else prev.ancestors + [prev];
      this.tokenIds := tokenIds;
      this.blockId := blockId;
    }

    /** `append_token_ids`: extends the contents at the end when they fit;
        otherwise fails with `CapacityExceeded` and leaves them alone. */
    method AppendTokenIds(ids: seq<int>) returns (r: Outcome<BlockError>)
      modifies this`tokenIds
      ensures r.Pass? <==> |ids| <= old(NumEmptySlots())
      ensures r.Pass? ==> tokenIds == old(tokenIds) + ids
      ensures r.Fail? ==> tokenIds == old(tokenIds) && r.error == CapacityExceeded(|ids|, old(NumEmptySlots()))
      ensures r.Pass? && |ids| == old(NumEmptySlots()) ==> IsFull()
    {
      if |ids| > NumEmptySlots() {
        return Fail(CapacityExceeded(|ids|, NumEmptySlots()));
      }
      tokenIds := tokenIds + ids;
      return Pass;
    }
  }

  /** The chain of a linked block starts at a block without a predecessor,
      each later block points at the one before it, and the block at
      position i has exactly the first i blocks as its ancestors. */
  lemma {:induction false} ChainEndsInNone(b: Block)
    requires b.Linked()
    ensures b.Chain()[0].prev == null
    ensures forall i :: 0 < i < |b.Chain()| ==> b.Chain()[i].prev == b.Chain()[i - 1]
    ensures forall i :: 0 <= i < |b.Chain()| ==> b.Chain()[i].Linked() && b.Chain()[i].ancestors == b.Chain()[..i]
    decreases |b.ancestors|
  {
    if b.prev != null {
      var p := b.prev;
      ChainEndsInNone(p);
      assert b.Chain() == p.Chain() + [b];
      forall i | 0 <= i < |b.Chain()|
        ensures b.Chain()[i].Linked() && b.Chain()[i].ancestors == b.Chain()[..i]
      {
        if i < |p.Chain()| {
          assert b.Chain()[..i] == p.Chain()[..i];
        } else {
          assert b.Chain()[..i] == p.Chain();
        }
      }
    }
  }

  /** No block occurs twice in a chain, so following `prev` never loops. */
  lemma ChainIsAcyclic(b: Block)
    requires b.Linked()
    ensures forall i, j :: 0 <= i < j < |b.Chain()| ==> b.Chain()[i] != b.Chain()[j]
  {
    ChainEndsInNone(b);
    forall i, j | 0 <= i < j < |b.Chain()|
      ensures b.Chain()[i] != b.Chain()[j]
    {
      assert |b.Chain()[i].ancestors| == i;
      assert |b.Chain()[j].ancestors| == j;
    }
  }
}
