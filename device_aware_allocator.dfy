/** `DeviceAwareBlockAllocator`: one `BlockAllocator` per device, with
    disjoint id ranges (GPU ids first, CPU ids after them), so a block id
    names its device. Calls that take a device go to that device's
    allocator; calls that take a block go to the allocator owning its id. */
module DeviceAwareAllocators {
  import opened Wrappers
  import opened Blocks
  import opened BlockAllocators

  datatype Device = Gpu | Cpu

  /** The device that is not `device`. */
  function Other(device: Device): Device {
    if device == Gpu then Cpu else Gpu
  }

  class DeviceAwareBlockAllocator {
    const gpu: BlockAllocator
    const cpu: BlockAllocator

    ghost predicate Valid()
      reads gpu, gpu.refcounts, cpu, cpu.refcounts
    {
      && gpu.Valid() && cpu.Valid()
      && gpu != cpu && gpu.refcounts != cpu.refcounts
      && gpu.firstId == 0 && cpu.firstId == gpu.numBlocks
      && gpu.blockSize == cpu.blockSize
    }

    /** The allocator that serves `device`. */
    function AllocatorFor(device: Device): BlockAllocator {
      if device == Gpu then gpu else cpu
    }

    ghost function Footprint(device: Device): set<object> {
      {AllocatorFor(device), AllocatorFor(device).refcounts}
    }

    constructor (numGpuBlocks: nat, numCpuBlocks: nat, blockSize: nat)
      ensures Valid()
      ensures gpu.numBlocks == numGpuBlocks && cpu.numBlocks == numCpuBlocks
      ensures gpu.blockSize == blockSize
      ensures gpu.GetNumFreeBlocks() == numGpuBlocks && cpu.GetNumFreeBlocks() == numCpuBlocks
    {
      gpu := new BlockAllocator(0, numGpuBlocks, blockSize);
      cpu := new BlockAllocator(numGpuBlocks, numCpuBlocks, blockSize);
    }

    /** The device whose id range holds `id`, if any. */
    function DeviceOf(id: Option<int>): (d: Option<Device>)
      ensures d.Some? ==> id.Some? && AllocatorFor(d.value).InRange(id.value)
      ensures d.None? ==> id.None? || (!gpu.InRange(id.value) && !cpu.InRange(id.value))
    {
      if id.None? then None
      else if gpu.InRange(id.value) then Some(Gpu)
      else if cpu.InRange(id.value) then Some(Cpu)
      else None
    }

    /** `allocate_mutable(prev_block, device)`: allocates on `device` as
        `BlockAllocator.AllocateMutable` does; the other device's pool is
        untouched. */
    method AllocateMutable(prev: Block?, device: Device) returns (r: Result<Block, AllocError>)
      requires Valid()
      requires prev != null ==> prev.Linked()
      modifies Footprint(device)
      ensures Valid()
      ensures r.Failure? <==> old(AllocatorFor(device).freeList) == []
      ensures r.Failure? ==> r.error == NoFreeBlocks && unchanged(AllocatorFor(device), AllocatorFor(device).refcounts)
      ensures r.Success? ==> && var a := AllocatorFor(device);
                             && var id := old(a.freeList)[0];
                             && fresh(r.value) && r.value.Linked() && r.value.prev == prev
                             && r.value.tokenIds == [] && r.value.blockSize == a.blockSize
                             && r.value.blockId == Some(id)
                             && a.freeList == old(a.freeList)[1..]
                             && a.refcounts[..] == old(a.refcounts[..])[id - a.firstId := 1]
                             && a.computed == old(a.computed) - {id} && a.accessed == old(a.accessed) - {id}
                             && a.copyOnWrites == old(a.copyOnWrites)
      ensures unchanged(AllocatorFor(Other(device)), AllocatorFor(Other(device)).refcounts)
    {
      r := AllocatorFor(device).AllocateMutable(prev);
    }

    /** `allocate_immutable(prev_block, token_ids, device)`: as
        `BlockAllocator.AllocateImmutable` on `device`; the other device's
        pool is untouched. */
    method AllocateImmutable(prev: Block?, tokenIds: seq<int>, device: Device) returns (r: Result<Block, AllocError>)
      requires Valid()
      requires prev != null ==> prev.Linked()
      modifies Footprint(device)
      ensures Valid()
      ensures r.Failure? <==> |tokenIds| > gpu.blockSize || old(AllocatorFor(device).freeList) == []
      ensures r.Failure? ==> unchanged(AllocatorFor(device), AllocatorFor(device).refcounts)
      ensures |tokenIds| > gpu.blockSize ==> r == Failure(BlockFailure(CapacityExceeded(|tokenIds|, gpu.blockSize)))
      ensures |tokenIds| <= gpu.blockSize && old(AllocatorFor(device).freeList) == [] ==> r == Failure(NoFreeBlocks)
      ensures r.Success? ==> && var a := AllocatorFor(device);
                             && var id := old(a.freeList)[0];
                             && fresh(r.value) && r.value.Linked() && r.value.prev == prev
                             && r.value.tokenIds == tokenIds && r.value.blockSize == a.blockSize
                             && r.value.blockId == Some(id)
                             && a.freeList == old(a.freeList)[1..]
                             && a.refcounts[..] == old(a.refcounts[..])[id - a.firstId := 1]
                             && a.computed == old(a.computed) - {id} && a.accessed == old(a.accessed) - {id}
                             && a.copyOnWrites == old(a.copyOnWrites)
      ensures unchanged(AllocatorFor(Other(device)), AllocatorFor(Other(device)).refcounts)
    {
      r := AllocatorFor(device).AllocateImmutable(prev, tokenIds);
    }

    /** `get_num_free_blocks(device)`: that device's free count, bounded by
        the size of its pool. */
    function GetNumFreeBlocks(device: Device): (n: nat)
      reads gpu, gpu.refcounts, cpu, cpu.refcounts
      requires Valid()
      ensures n <= AllocatorFor(device).numBlocks
    {
      AllocatorFor(device).GetNumFreeBlocks()
    }

    /** `all_block_ids`: the ids of both pools, which do not overlap. */
    function AllBlockIds(): (s: set<int>)
      reads gpu, gpu.refcounts, cpu, cpu.refcounts
      requires Valid()
      ensures forall id :: id in s <==> DeviceOf(Some(id)).Some?
      ensures |s| == gpu.numBlocks + cpu.numBlocks
    {
      assert gpu.AllBlockIds() !! cpu.AllBlockIds();
      gpu.AllBlockIds() + cpu.AllBlockIds()
    }

    /** `free(block)`, routed to the allocator owning the block's id, which
        frees it as `BlockAllocator.Free` does; a block with no id, or an id
        outside both pools, is an error that changes nothing. */
    method Free(block: Block) returns (r: Outcome<AllocError>)
      requires Valid()
      modifies gpu`freeList, gpu.refcounts, cpu`freeList, cpu.refcounts, block`blockId
      ensures Valid()
      ensures old(DeviceOf(block.blockId)).None? ==>
                && r == Fail(NotAllocated(old(block.blockId)))
                && unchanged(block, gpu, gpu.refcounts, cpu, cpu.refcounts)
      ensures old(DeviceOf(block.blockId)).Some? ==>
                && var d := old(DeviceOf(block.blockId)).value;
                && var a := AllocatorFor(d);
                && (r.Pass? <==> old(a.Owned(block.blockId)))
                && (r.Fail? ==> && r.error == NotAllocated(old(block.blockId))
                                && unchanged(block, a, a.refcounts))
                && (r.Pass? ==> && var k := old(block.blockId).value - a.firstId;
                                && block.blockId == None
                                && a.refcounts[..] == old(a.refcounts[..])[k := old(a.refcounts[k]) - 1]
                                && a.freeList == old(a.freeList) + (if old(a.refcounts[k]) == 1 then [old(block.blockId).value] else []))
                && unchanged(AllocatorFor(Other(d)), AllocatorFor(Other(d)).refcounts)
    {
      var d := DeviceOf(block.blockId);
      if d.None? {
        return Fail(NotAllocated(block.blockId));
      }
      r := AllocatorFor(d.value).Free(block);
    }

    /** `fork(last_block)`, routed by the id of the chain's last block to the
        allocator that forks it as `BlockAllocator.Fork` does. */
    method Fork(last: Block) returns (r: Result<seq<Block>, AllocError>)
      requires Valid()
      requires last.Linked()
      modifies gpu.refcounts, cpu.refcounts
      ensures Valid()
      ensures old(DeviceOf(last.blockId)).None? ==> r == Failure(NotAllocated(old(last.blockId))) && unchanged(gpu.refcounts, cpu.refcounts)
      ensures old(DeviceOf(last.blockId)).Some? ==>
                && var d := old(DeviceOf(last.blockId)).value;
                && var a := AllocatorFor(d);
                && (r.Failure? <==> !old(a.ChainOwned(last.Chain())))
                && (r.Failure? ==> r.error.NotAllocated? && unchanged(a.refcounts))
                && (r.Success? ==> a.RefsAdded(old(a.refcounts[..]), a.refcounts[..], old(ChainIds(last.Chain()))))
                && unchanged(AllocatorFor(Other(d)).refcounts)
      ensures r.Success? ==> CopiesChain(r.value, last.Chain()) && forall k :: 0 <= k < |r.value| ==> fresh(r.value[k])
    {
      var d := DeviceOf(last.blockId);
      if d.None? {
        return Failure(NotAllocated(last.blockId));
      }
      if d.value == Gpu {
        r := gpu.Fork(last);
        assert unchanged(cpu, cpu.refcounts);
        assert cpu.Valid();
      } else {
        r := cpu.Fork(last);
        assert unchanged(gpu, gpu.refcounts);
        assert gpu.Valid();
      }
    }

    /** Appends to `block` through the allocator owning its id, as
        `BlockAllocator.AppendTokenIds` does; a block with no id, or an id
        outside both pools, is an error that changes nothing. */
    method AppendTokenIds(block: Block, ids: seq<int>) returns (r: Outcome<AllocError>)
      requires Valid()
      modifies gpu`freeList, gpu`computed, gpu`accessed, gpu`copyOnWrites, gpu.refcounts
      modifies cpu`freeList, cpu`computed, cpu`accessed, cpu`copyOnWrites, cpu.refcounts
      modifies block`tokenIds, block`blockId
      ensures Valid()
      ensures old(DeviceOf(block.blockId)).None? ==>
                r == Fail(NotAllocated(old(block.blockId))) && unchanged(block, gpu, gpu.refcounts, cpu, cpu.refcounts)
      ensures r.Fail? ==> unchanged(block, gpu, gpu.refcounts, cpu, cpu.refcounts)
      ensures old(DeviceOf(block.blockId)).Some? ==>
                && var d := old(DeviceOf(block.blockId)).value;
                && var a := AllocatorFor(d);
                && (r.Pass? <==> old(a.CanAppend(block, ids)))
                && (!old(a.Owned(block.blockId)) ==> r == Fail(NotAllocated(old(block.blockId))))
                && (old(a.Owned(block.blockId)) && |ids| > old(block.NumEmptySlots()) ==>
                      r == Fail(BlockFailure(CapacityExceeded(|ids|, old(block.NumEmptySlots())))))
                && (old(a.Owned(block.blockId)) && |ids| <= old(block.NumEmptySlots())
                    && old(a.refcounts[block.blockId.value - a.firstId]) > 1 && old(a.freeList) == [] ==>
                      r == Fail(NoFreeBlocks))
                && (r.Pass? ==> && block.tokenIds == old(block.tokenIds) + ids
                                && var src := old(block.blockId).value;
                                && var k := src - a.firstId;
                                && (old(a.refcounts[k]) == 1 ==>
                                      && block.blockId == Some(src) && a.freeList == old(a.freeList)
                                      && a.refcounts[..] == old(a.refcounts[..]) && a.copyOnWrites == old(a.copyOnWrites)
                                      && a.computed == old(a.computed) && a.accessed == old(a.accessed))
                                && (old(a.refcounts[k]) > 1 ==>
                                      && var dst := old(a.freeList)[0];
                                      && block.blockId == Some(dst) && a.freeList == old(a.freeList)[1..]
                                      && a.refcounts[..] == old(a.refcounts[..])[k := old(a.refcounts[k]) - 1][dst - a.firstId := 1]
                                      && a.copyOnWrites == old(a.copyOnWrites)[src := old(a.CowTargets(src)) + [dst]]
                                      && a.computed == old(a.computed) - {dst} && a.accessed == old(a.accessed) - {dst}))
                && unchanged(AllocatorFor(Other(d)), AllocatorFor(Other(d)).refcounts)
    {
      var d := DeviceOf(block.blockId);
      if d.None? {
        return Fail(NotAllocated(block.blockId));
      }
      r := AllocatorFor(d.value).AppendTokenIds(block, ids);
    }

    /** `clear_copy_on_writes`: the queued copies of both pools, after which
        both queues are empty. The source ids lie in the two pools' disjoint
        ranges, so no queued copy is lost in the merge. */
    method ClearCopyOnWrites() returns (r: map<int, seq<int>>)
      requires Valid()
      modifies gpu`copyOnWrites, cpu`copyOnWrites
      ensures r == old(gpu.copyOnWrites) + old(cpu.copyOnWrites)
      ensures old(gpu.copyOnWrites.Keys) !! old(cpu.copyOnWrites.Keys)
      ensures r.Keys == old(gpu.copyOnWrites.Keys) + old(cpu.copyOnWrites.Keys)
      ensures forall src :: src in old(gpu.copyOnWrites) ==> r[src] == old(gpu.copyOnWrites[src])
      ensures gpu.copyOnWrites == map[] && cpu.copyOnWrites == map[]
      ensures Valid()
    {
      assert forall src :: src in gpu.copyOnWrites ==> src < cpu.firstId;
      assert forall src :: src in cpu.copyOnWrites ==> src >= cpu.firstId;
      var g := gpu.ClearCopyOnWrites();
      var c := cpu.ClearCopyOnWrites();
      r := g + c;
    }

    method MarkBlocksAsAccessed()
      requires Valid()
      modifies gpu`accessed, cpu`accessed
      ensures gpu.accessed == old(gpu.accessed) + gpu.AllocatedIds()
      ensures cpu.accessed == old(cpu.accessed) + cpu.AllocatedIds()
    {
      gpu.MarkBlocksAsAccessed();
      cpu.MarkBlocksAsAccessed();
    }

    method MarkBlocksAsComputed()
      requires Valid()
      modifies gpu`computed, cpu`computed
      ensures gpu.computed == old(gpu.computed) + gpu.AllocatedIds()
      ensures cpu.computed == old(cpu.computed) + cpu.AllocatedIds()
    {
      gpu.MarkBlocksAsComputed();
      cpu.MarkBlocksAsComputed();
    }

    /** `get_common_computed_block_ids`, over the computed ids of both pools. */
    method GetCommonComputedBlockIds(seqBlockIds: seq<seq<int>>) returns (r: seq<int>)
      ensures IsCommonComputedPrefix(seqBlockIds, gpu.computed + cpu.computed, r)
    {
      r := CommonComputedPrefix(seqBlockIds, gpu.computed + cpu.computed);
    }
  }
}
