# Aphrodite engine core, modelled in Dafny

This project models five pieces of the Aphrodite inference engine and
proves properties about them:

- **KV-cache block management** (`aphrodite/processing/block/interfaces.py`).
  - A `Block` is a slot of token ids with a fixed capacity. It links to the
    block before it in the same sequence. Its block id may be unset.
  - The interface declares a `BlockAllocator` and a
    `DeviceAwareBlockAllocator`. The model writes a reference allocator for
    them: an array of reference counts, a FIFO free list, and the computed,
    accessed and copy-on-write bookkeeping.
  - The device-aware allocator holds one pool per device. The GPU ids come
    first and the CPU ids after them.
- **The OpenAI-compatible serving base** (`serving_engine.py`).
  - The LoRA registry: its initial list, `add_lora` and `remove_lora`.
  - Resolving a requested model name.
  - Checking a prompt against the context length.
  - The token and text-offset part of logprobs.
  - The tokenizer is a value holding three uninterpreted functions.
- **The CPU executor's config checks** (`cpu_executor.py`).
  - They rewrite unsupported settings of the config object in place.
  - They turn the `APHRODITE_CPU_KVCACHE_SPACE` GiB count into bytes.
- **FP8 linear quantisation** (`fp8.py`), tracked by shapes, flags and
  which parameters exist:
  - the config and its checks;
  - parameter creation;
  - the q/k/v shard indexer;
  - the row ranges of the post-load requantisation and which scales
    survive it;
  - batch padding and narrowing.
- **The build script's helpers** (`setup.py`):
  - `remove_prefix`;
  - the compile-job arithmetic;
  - the once-per-directory CMake guard;
  - the kernel gates on device capability;
  - the version label;
  - reading and rewriting the requirement files.

  Environment variables, subprocess results, `torch` queries and file
  contents are passed in as parameters.

| file | module | models |
|---|---|---|
| wrappers.dfy | `Wrappers` | `Option`, `Result` (returns or raises), `Outcome` (returns `None` or raises) |
| strings.dfy | `Strings` | Python's `in` on strings, `replace`, `split`, `strip` and `int()` on decimal text |
| blocks.dfy | `Blocks` | `Block` |
| block_allocator.dfy | `BlockAllocators` | `BlockAllocator`, `NoFreeBlocksError` |
| device_aware_allocator.dfy | `DeviceAwareAllocators` | `DeviceAwareBlockAllocator` |
| serving_engine.dfy | `ServingEngine` | `OpenAIServing` |
| cpu_executor.dfy | `CpuExecutor` | the three `_verify_and_get_*` functions |
| fp8.dfy | `Fp8` | `Fp8Config`, `Fp8LinearMethod`, `scaled_fp8_quant` |
| setup.dfy | `Setup` | `remove_prefix`, `cmake_build_ext`, gates, version, requirements |

The interface declares `mark_blocks_as_accessed` and
`mark_blocks_as_computed` without parameters. The model follows the declared
signatures: each call marks every block currently allocated in the pool.

## Model

| member | source | states |
|---|---|---|
| Blocks.Block.constructor | aphrodite/processing/block/interfaces.py:33-44 | `Factory`: the block has the given predecessor, contents and capacity. Its id is `None` unless one is given. Its chain is the predecessor's chain plus itself. |
| Blocks.Block.AppendTokenIds | aphrodite/processing/block/interfaces.py:9-27 | Appending succeeds iff the ids fit in `num_empty_slots` (= capacity − length). Success extends `token_ids` at the end. Failure changes nothing. Filling the last slot makes `is_full` hold. |
| Blocks.ChainEndsInNone | aphrodite/processing/block/interfaces.py:29-31 | Following `prev_block` from any linked block ends at a block whose `prev_block` is `None`. Each link points at the block before it. |
| Blocks.ChainIsAcyclic | aphrodite/processing/block/interfaces.py:29-31 | No block occurs twice in a `prev_block` chain. |
| BlockAllocators.IdRange | aphrodite/processing/block/interfaces.py:70-72 | The pool's ids in order: entry i is `lo + i`, and there are n of them. |
| BlockAllocators.DistinctInRangeBound | aphrodite/processing/block/interfaces.py:66-72 | A duplicate-free list of ids from a range of n ids has at most n entries, which bounds the free count. |
| BlockAllocators.BlockAllocator.constructor | aphrodite/processing/block/interfaces.py:66-72 | A pool of `numBlocks` ids from `firstId`, all free with reference count 0, in id order on the free list. Nothing is computed, accessed or queued. |
| BlockAllocators.CommonComputedPrefix | aphrodite/processing/block/interfaces.py:86-89 | The result is a prefix of every input list. It holds only computed ids, and it cannot be extended by one more shared computed id. |
| BlockAllocators.CommonComputedPrefixUnique | aphrodite/processing/block/interfaces.py:86-89 | That characterisation has exactly one solution, so `get_common_computed_block_ids` is determined by its contract. |
| BlockAllocators.ChainOf | aphrodite/processing/block/interfaces.py:62-64 | Walking `prev_block` links from the last block yields exactly its chain, root first. |
| BlockAllocators.CopyChain | aphrodite/processing/block/interfaces.py:62-64 | Builds fresh blocks linked to each other, with the contents, ids and capacities of the given chain. |
| BlockAllocators.BlockAllocator.AllBlockIds | aphrodite/processing/block/interfaces.py:70-72 | `all_block_ids` is exactly the pool's id range, with `numBlocks` elements. |
| BlockAllocators.BlockAllocator.GetNumFreeBlocks | aphrodite/processing/block/interfaces.py:66-72 | The free count is the number of ids with reference count 0. It never exceeds the size of `all_block_ids`. |
| BlockAllocators.BlockAllocator.TakeFreeSlot | aphrodite/processing/block/interfaces.py:49-56 | Returns the head of the free list with reference count 1, or nothing when the list is empty (and then changes nothing). Keeps the pool invariant. |
| BlockAllocators.BlockAllocator.AllocateMutable | aphrodite/processing/block/interfaces.py:49-51 | Fails iff no slot is free, with `NoFreeBlocks`, which is a `ValueError`, and changes nothing. Otherwise returns a fresh empty block after `prev` that holds the head of the free list with reference count 1. That slot leaves the free list and the computed and accessed sets; the copy-on-write queue is kept. |
| BlockAllocators.BlockAllocator.AllocateImmutable | aphrodite/processing/block/interfaces.py:53-56 | Contents longer than a block fail first. An empty free list gives `NoFreeBlocks`. Otherwise the fresh block holds `token_ids` and the taken slot, with the same bookkeeping as `AllocateMutable`. Failure changes nothing. |
| BlockAllocators.BlockAllocator.Free | aphrodite/processing/block/interfaces.py:58-60 | Succeeds iff the block holds a slot of this pool. It drops one reference and unsets the block's id. The slot rejoins the free list exactly when its count reaches 0. |
| BlockAllocators.BlockAllocator.AddReferences | aphrodite/processing/block/interfaces.py:62-64 | Each listed slot gains one reference per occurrence in the list. |
| BlockAllocators.BlockAllocator.Fork | aphrodite/processing/block/interfaces.py:62-64 | Fails iff some block of the chain holds no slot, and then changes nothing. Otherwise returns fresh blocks copying the chain, and every shared slot gains one reference. |
| BlockAllocators.BlockAllocator.AppendTokenIds | aphrodite/processing/block/interfaces.py:9-11 | The write path. A shared slot is moved to a fresh one first: the move is queued as source → destination for `clear_copy_on_writes`, and the old slot loses one reference. The new slot leaves the computed and accessed sets; an unshared slot stays where it is and no bookkeeping changes. Succeeds iff `CanAppend`: the block is owned, the ids fit, and a shared slot finds a free one. Every error case gives its own error and leaves everything unchanged. |
| BlockAllocators.BlockAllocator.ClearCopyOnWrites | aphrodite/processing/block/interfaces.py:74-76 | Returns the queued source → destinations map and empties it, so a second call returns an empty map. |
| BlockAllocators.BlockAllocator.MarkBlocksAsAccessed | aphrodite/processing/block/interfaces.py:78-80 | Every allocated id is added to the accessed set. |
| BlockAllocators.BlockAllocator.MarkBlocksAsComputed | aphrodite/processing/block/interfaces.py:82-84 | Every allocated id is added to the computed set. |
| BlockAllocators.BlockAllocator.GetCommonComputedBlockIds | aphrodite/processing/block/interfaces.py:86-89 | The longest common prefix of computed ids, in the sense of `CommonComputedPrefix`. |
| DeviceAwareAllocators.DeviceAwareBlockAllocator.constructor | aphrodite/processing/block/interfaces.py:95-109 | Two pools with disjoint id ranges, all slots free. |
| DeviceAwareAllocators.DeviceAwareBlockAllocator.DeviceOf | aphrodite/processing/block/interfaces.py:95 | A block id names the device whose range holds it, or no device. |
| DeviceAwareAllocators.DeviceAwareBlockAllocator.AllocateMutable | aphrodite/processing/block/interfaces.py:97-100 | Allocates on the given device exactly as `BlockAllocator.AllocateMutable`: same failure, block, free list, reference counts and computed/accessed/copy-on-write bookkeeping. The other device's pool is unchanged. |
| DeviceAwareAllocators.DeviceAwareBlockAllocator.AllocateImmutable | aphrodite/processing/block/interfaces.py:102-105 | The same as `BlockAllocator.AllocateImmutable` on the given device, including both error cases. The other device's pool is unchanged. |
| DeviceAwareAllocators.DeviceAwareBlockAllocator.GetNumFreeBlocks | aphrodite/processing/block/interfaces.py:107-109 | One free count per device, bounded by that device's pool size. |
| DeviceAwareAllocators.DeviceAwareBlockAllocator.AllBlockIds | aphrodite/processing/block/interfaces.py:70-72 | The union of both pools' ids, which do not overlap: exactly the ids that name a device. |
| DeviceAwareAllocators.DeviceAwareBlockAllocator.Free | aphrodite/processing/block/interfaces.py:58-60 | Routed by block id. An id outside both pools is an error and changes nothing. Otherwise the owning pool frees it as `BlockAllocator.Free` does: success iff owned, the block's id unset, one reference dropped, and the slot back on the free list iff its count reaches 0. Failure changes nothing, and the other device is untouched. |
| DeviceAwareAllocators.DeviceAwareBlockAllocator.Fork | aphrodite/processing/block/interfaces.py:62-64 | Routed by the last block's id. Fails iff the chain is not owned by that device, changing nothing. Success copies the chain and adds one reference per occurrence to the device's slots. The other device's counts are unchanged. |
| DeviceAwareAllocators.DeviceAwareBlockAllocator.AppendTokenIds | aphrodite/processing/block/interfaces.py:9-11 | Routed by block id, then exactly as `BlockAllocator.AppendTokenIds` on the owning pool: success iff `CanAppend`, the three error cases, and both success paths with their free-list, reference-count, copy-on-write and computed/accessed updates. Failure changes nothing, and the other device is untouched. |
| DeviceAwareAllocators.DeviceAwareBlockAllocator.ClearCopyOnWrites | aphrodite/processing/block/interfaces.py:74-76 | Both queues merged and both emptied. The pools queue only their own ids as sources, so the two key sets are disjoint and the merged map keeps every queued copy. |
| DeviceAwareAllocators.DeviceAwareBlockAllocator.MarkBlocksAsAccessed | aphrodite/processing/block/interfaces.py:78-80 | Every allocated id of both pools is marked accessed. |
| DeviceAwareAllocators.DeviceAwareBlockAllocator.MarkBlocksAsComputed | aphrodite/processing/block/interfaces.py:82-84 | Every allocated id of both pools is marked computed. |
| DeviceAwareAllocators.DeviceAwareBlockAllocator.GetCommonComputedBlockIds | aphrodite/processing/block/interfaces.py:86-89 | The common computed prefix over the computed ids of both pools. |
| ServingEngine.Enumerate | aphrodite/endpoints/openai/serving_engine.py:36-42 | `enumerate(mods, start)`: entry i has the i-th module's name and path and id `start + i`. |
| ServingEngine.InitialLoraRequests | aphrodite/endpoints/openai/serving_engine.py:33-42 | No modules give an empty registry. Otherwise there is one request per module, in order, with ids 1..n. |
| ServingEngine.InitialIdsUnique | aphrodite/endpoints/openai/serving_engine.py:33-42 | The initial ids are dense (1..n) and pairwise distinct. |
| ServingEngine.InitialLoraRequestsAsWritten | aphrodite/endpoints/openai/serving_engine.py:27-42 | As written: an explicitly passed list (or `None`) builds the registry; an omitted argument does not. |
| ServingEngine.InitialLoraRequestsCorrected | aphrodite/endpoints/openai/serving_engine.py:27-42 | With the default `None`: omitting the argument gives an empty registry. |
| ServingEngine.OmittedLoraModulesRaises | aphrodite/endpoints/openai/serving_engine.py:30 | Omitting `lora_modules` raises as written and gives `[]` when corrected. |
| ServingEngine.MaxId | aphrodite/endpoints/openai/serving_engine.py:190-195 | The largest registered id, 0 when the registry is empty. It is attained when ids are positive. |
| ServingEngine.AddedAsWritten | aphrodite/endpoints/openai/serving_engine.py:184-195 | As written: a taken name is a no-op. Otherwise one entry is appended with id = old length + 1. |
| ServingEngine.Added | aphrodite/endpoints/openai/serving_engine.py:184-195 | Corrected rule: a taken name is a no-op. Otherwise one entry is appended with an id above every id in use, and the old entries stay as they were. |
| ServingEngine.AddedKeepsIdsUnique | aphrodite/endpoints/openai/serving_engine.py:184-195 | The corrected rule keeps the ids pairwise distinct. |
| ServingEngine.AddedAgreesWhileDense | aphrodite/endpoints/openai/serving_engine.py:193 | While the ids are 1..n, the corrected rule is exactly the source's rule and keeps the ids dense. |
| ServingEngine.AddedAsWrittenReusesIds | aphrodite/endpoints/openai/serving_engine.py:193 | Add "a", add "b", remove "a", add "c": as written, two live entries carry id 2. |
| ServingEngine.Removed | aphrodite/endpoints/openai/serving_engine.py:197-200 | `remove_lora`'s comprehension, entry by entry; the result is never longer. |
| ServingEngine.RemovedMembers | aphrodite/endpoints/openai/serving_engine.py:197-200 | An entry survives iff it was registered and has another name. |
| ServingEngine.RemovedDistributes | aphrodite/endpoints/openai/serving_engine.py:197-200 | Removing from a concatenation concatenates the removals, so the survivors keep their relative order. |
| ServingEngine.RemovedAbsentName | aphrodite/endpoints/openai/serving_engine.py:197-200 | Removing an unused name changes nothing. |
| ServingEngine.RemovedNameAbsent | aphrodite/endpoints/openai/serving_engine.py:197-200 | After removal no entry has that name. |
| ServingEngine.RemovedKeepsIdsUnique | aphrodite/endpoints/openai/serving_engine.py:197-200 | Removal keeps the ids pairwise distinct. |
| ServingEngine.RemovedKeepsIdsPositive | aphrodite/endpoints/openai/serving_engine.py:197-200 | Removal keeps the ids positive. |
| ServingEngine.FirstNamed | aphrodite/endpoints/openai/serving_engine.py:205-207 | The index of the first entry with that name, or none iff no entry has it. |
| ServingEngine.MaxIdOfDense | aphrodite/endpoints/openai/serving_engine.py:193 | With ids 1..n, the largest id is n. |
| ServingEngine.SliceFrom | aphrodite/endpoints/openai/serving_engine.py:232 | Python's `s[start:]`, agreeing with Dafny's slice for a non-negative start. |
| ServingEngine.TokenizedInput | aphrodite/endpoints/openai/serving_engine.py:219-237 | `ValueError` iff `prompt` and `prompt_ids` are both truthy or both falsy. |
| ServingEngine.Validated | aphrodite/endpoints/openai/serving_engine.py:219-262 | Success returns exactly the tokenized input. Every failure is a `ValueError`. |
| ServingEngine.ExactlyOnePromptRequired | aphrodite/endpoints/openai/serving_engine.py:219-223 | Validation fails unless exactly one of the two is non-empty, and then `max_tokens` is untouched. |
| ServingEngine.TruncationKeepsLastIds | aphrodite/endpoints/openai/serving_engine.py:231-232 | With `prompt_ids` and a truncation k ≥ 1, the input is the last min(k, len) ids. |
| ServingEngine.LengthBudget | aphrodite/endpoints/openai/serving_engine.py:238-262 | An embedding request succeeds iff its token count ≤ `max_model_len`. Any other request with `max_tokens` succeeds iff tokens + `max_tokens` ≤ `max_model_len`. A missing `max_tokens` becomes `max_model_len` − tokens. |
| ServingEngine.MissingMaxTokensAlwaysFits | aphrodite/endpoints/openai/serving_engine.py:250-253 | A non-embedding request without `max_tokens` always passes the length check. Its filled-in `max_tokens` is negative when the prompt alone is too long. |
| ServingEngine.PromptIgnoredBesideEmptyIds | aphrodite/endpoints/openai/serving_engine.py:219-237 | A non-empty prompt next to an empty `prompt_ids` passes. The ids win, so the input is empty. |
| ServingEngine.OffsetsClosedForm | aphrodite/endpoints/openai/serving_engine.py:144-149 | Offsets built step by step equal the initial offset plus the total length of all earlier tokens. |
| ServingEngine.Cards | aphrodite/endpoints/openai/serving_engine.py:74-85 | One card per id, in order, with the given root. |
| ServingEngine.LoraNames | aphrodite/endpoints/openai/serving_engine.py:80-85 | The registered names, in order. |
| ServingEngine.CardsAppend | aphrodite/endpoints/openai/serving_engine.py:86 | `extend` keeps both parts in place and their common root. |
| ServingEngine.OpenAIServing.constructor | aphrodite/endpoints/openai/serving_engine.py:27-45 | The registry is `InitialLoraRequests` of the modules, and its ids are positive and distinct. |
| ServingEngine.OpenAIServing.AddLora | aphrodite/endpoints/openai/serving_engine.py:184-195 | The registry becomes `Added(old, lora)`, which keeps the ids positive and distinct. |
| ServingEngine.OpenAIServing.RemoveLora | aphrodite/endpoints/openai/serving_engine.py:197-200 | The registry becomes `Removed(old, name)`, which no longer has the name and keeps the ids valid. |
| ServingEngine.OpenAIServing.CheckModel | aphrodite/endpoints/openai/serving_engine.py:174-182 | No error iff the model is a served name or a LoRA name. Otherwise a `NotFoundError` with code 404 naming the model. |
| ServingEngine.OpenAIServing.MaybeGetLora | aphrodite/endpoints/openai/serving_engine.py:202-209 | `None` for a served name. Otherwise the first LoRA with that name, or `ValueError` iff there is none. |
| ServingEngine.OpenAIServing.CheckModelAgreesWithLookup | aphrodite/endpoints/openai/serving_engine.py:174-209 | `_check_model` lets a model through exactly when `_maybe_get_lora` does not raise, so the raise is unreachable after the check. |
| ServingEngine.OpenAIServing.ShowAvailableModels | aphrodite/endpoints/openai/serving_engine.py:72-87 | One card per served name, then one per LoRA, all rooted at the first served name. `IndexError` iff there are LoRAs but no served name. |
| ServingEngine.OpenAIServing.ValidatePromptAndTokenize | aphrodite/endpoints/openai/serving_engine.py:211-262 | The result is `Validated`. `request.max_tokens` is filled in exactly as described by `RequestMaxTokensAfter`. The truncation count is at least 1, as the parameter's `conint(ge=1)` type requires. |
| ServingEngine.OpenAIServing.CreateLogprobs | aphrodite/endpoints/openai/serving_engine.py:101-150 | One token and one offset per id; the offsets follow the token lengths from the initial offset. No ids give an empty result whatever `top_logprobs` is. Otherwise the call fails iff some step lacks an entry (`IndexError` or `KeyError` at the first such step, `TypeError` when `top_logprobs` is `None`). |
| ServingEngine.Request.constructor | aphrodite/endpoints/openai/serving_engine.py:211-218 | The request's kind and `max_tokens`. |
| CpuExecutor.CpuDType | aphrodite/executor/cpu_executor.py:110-112 | float16 becomes bfloat16. Other dtypes are unchanged. |
| CpuExecutor.CpuDTypeIdempotent | aphrodite/executor/cpu_executor.py:110-112 | The dtype rewrite is idempotent. |
| CpuExecutor.VerifyAndGetModelConfig | aphrodite/executor/cpu_executor.py:109-118 | Returns the same config with the dtype rewritten and `enforce_eager` true, changing nothing if it was already accepted (so it is idempotent). |
| CpuExecutor.VerifyAndGetSchedulerConfig | aphrodite/executor/cpu_executor.py:121-127 | Returns the same config with chunked prefill off and nothing else changed. |
| CpuExecutor.KvCacheBytes | aphrodite/executor/cpu_executor.py:131-146 | 0 GiB gives 4·2^30 bytes. n > 0 gives n·2^30. |
| CpuExecutor.KvCacheBytesWholeGiB | aphrodite/executor/cpu_executor.py:139-146 | The size is a positive whole number of GiB. |
| CpuExecutor.VerifyAndGetCacheConfig | aphrodite/executor/cpu_executor.py:130-152 | Prefix caching is off in every outcome. Unparsable text gives `ValueError` and a negative value gives `RuntimeError`, both leaving the size. Otherwise the size is `KvCacheBytes` and the same config is returned. |
| CpuExecutor.UnsetVariableGivesDefault | aphrodite/executor/cpu_executor.py:136-141 | With the variable unset the cache is 4 GiB. |
| Fp8.NewFp8Config | aphrodite/quantization/fp8.py:60-72 | Accepted iff the scheme is "static" or "dynamic", else `ValueError`. The fields are as given. |
| Fp8.DefaultFp8Config | aphrodite/quantization/fp8.py:60-64 | Not serialized, dynamic scheme. |
| Fp8.FromConfig | aphrodite/quantization/fp8.py:90-96 | Serialized iff "fp8" occurs in `quant_method`. The scheme is validated as in `Fp8Config`, and a missing key fails. |
| Fp8.NewFp8LinearMethod | aphrodite/quantization/fp8.py:124-127 | `ImportError` iff the quantisation kernels are missing. |
| Fp8.SumAppend | aphrodite/quantization/fp8.py:158 | `sum` extends over one more element. |
| Fp8.ScaleTensor | aphrodite/quantization/fp8.py:136-138 | One float32 entry per partition. |
| Fp8.CreateScaleParam | aphrodite/quantization/fp8.py:129-145 | Sets exactly the named scale to `ScaleTensor` and leaves the other one. |
| Fp8.CreateWeights | aphrodite/quantization/fp8.py:147-194 | The weight has Σ(partition sizes) rows and is FP8 iff the checkpoint is serialized. `weight_scale` exists only for serialized checkpoints, and `act_scale` only when the checkpoint is serialized and the scheme is static. |
| Fp8.PyIndex | aphrodite/quantization/fp8.py:210 | Python indexing of a tensor of n entries: negative indices count from the end, and anything else is an `IndexError`. |
| Fp8.ShardIndexAsWritten | aphrodite/quantization/fp8.py:196-210 | As written: agrees with `ShardIndex` on ints and strings; any other id is passed through unchecked. |
| Fp8.ShardIndex | aphrodite/quantization/fp8.py:196-210 | "q", "k", "v" select 0, 1, 2. Any other string or type is a `ValueError`. An int passes through Python indexing. The index is always in range. |
| Fp8.OtherShardIdNotRejected | aphrodite/quantization/fp8.py:207-208 | An id that is neither int nor str passes the source's indexer, while the corrected one refuses it. |
| Fp8.QkvShardNames | aphrodite/quantization/fp8.py:199-206 | For a fused QKV layer, q/k/v select 0/1/2 and every other string is refused. |
| Fp8.RequantizedRowRanges | aphrodite/quantization/fp8.py:232-240 | The loop with a running `start` visits, for logical weight i, the rows `RowRange(widths, i)`. |
| Fp8.RowRangeFollows | aphrodite/quantization/fp8.py:234-240 | Each range starts where the one before ended. |
| Fp8.RowRangesContiguous | aphrodite/quantization/fp8.py:232-240 | The ranges start at 0, are contiguous and end at Σ widths. |
| Fp8.PrefixSumMonotone | aphrodite/quantization/fp8.py:232-240 | `start` never decreases. |
| Fp8.RowRangesCover | aphrodite/quantization/fp8.py:232-240 | Every row below Σ widths lies in some range. |
| Fp8.RowRangesDisjoint | aphrodite/quantization/fp8.py:232-240 | Ranges of different logical weights do not overlap. |
| Fp8.Transposed | aphrodite/quantization/fp8.py:246 | `.t()` swaps a 2-D shape, keeps a 0-D or 1-D one and refuses more dimensions. |
| Fp8.TransposedTwice | aphrodite/quantization/fp8.py:246 | Transposing twice restores the tensor. |
| Fp8.MaxError | aphrodite/quantization/fp8.py:231 | `weight_scale.max()` succeeds iff the attribute holds a tensor with at least one entry. |
| Fp8.ScaleLoopError | aphrodite/quantization/fp8.py:233-240 | The loop over the logical weights fails iff there is one and the weight is not a tensor of at least 2 dimensions or the scale has no entry for some logical weight. |
| Fp8.ScaleStageError | aphrodite/quantization/fp8.py:231-241 | The weight-scale stage passes only when the scale has a maximum, the widths can be enumerated and the loop passes. |
| Fp8.TransposeError | aphrodite/quantization/fp8.py:245-246 | `layer.weight.t()` succeeds iff the weight is a tensor of at most 2 dimensions. |
| Fp8.AllCloseOneD | aphrodite/quantization/fp8.py:291-293 | `all_close_1d` fails unless given a 1-D tensor (`AssertionError`; `AttributeError` when missing or `None`). An empty tensor is vacuously all close. |
| Fp8.ActScaleStage | aphrodite/quantization/fp8.py:251-262 | Dynamic gives `None`. Static succeeds iff the scale is a non-empty 1-D tensor whose entries are all close, and gives its maximum. Any other scheme is a `ValueError`. |
| Fp8.SerializedError | aphrodite/quantization/fp8.py:228-262 | The serialized branch fails iff one of its three stages fails, and the first failing stage's error is the one raised. |
| Fp8.QuantizeError | aphrodite/quantization/fp8.py:219-220 | Quantising a non-serialized weight succeeds iff it is a tensor of at most 2 dimensions. A missing one is an `AttributeError` and `None` a `TypeError`. |
| Fp8.ProcessWeightsAfterLoading | aphrodite/quantization/fp8.py:212-262 | A no-op unless `process_after_load` is set and true. A non-serialized checkpoint gets an FP8 transposed weight, a one-entry scale, and `logical_widths` and `act_scale` set to `None`; its errors come before any write and leave the layer unchanged. A serialized one runs the stages of `RequantizeSerialized`. On success the weight scale is the maximum, and `act_scale` is `None` (dynamic) or the maximum (static). Unequal static scales fail. |
| Fp8.RequantizeSerialized | aphrodite/quantization/fp8.py:228-262 | The serialized branch, stage by stage: it fails with the first stage's error. The weight scale becomes its maximum once that stage passes, and the weight its transpose once the transpose passes too. `act_scale` is replaced only when all stages pass. Nothing is rolled back: a later error leaves the earlier writes in place. |
| Fp8.MismatchAfterRewrite | aphrodite/quantization/fp8.py:228-262 | Unequal static scales on a `[4, 3]` weight with two logical widths give `ValueError` only after the weight-scale and transpose stages have passed. So the weight and weight scale are already rewritten when it is raised. |
| Fp8.CreatedLayerRequantizes | aphrodite/quantization/fp8.py:147-262 | A serialized layer as `create_weights` leaves it processes without error iff it has a partition and the scheme is dynamic or the static scales are all close. With no partition, the empty weight scale makes `max()` raise. |
| Fp8.QuantOutputShape | aphrodite/quantization/fp8.py:42-48 | With a non-zero padding p the first dimension is max(p, rows); otherwise the shape is the input's. |
| Fp8.ScaledFp8Quant | aphrodite/quantization/fp8.py:21-54 | The output is FP8 with `QuantOutputShape`. The scale is the given one, or a fresh one-entry tensor. |
| Fp8.Narrow | aphrodite/quantization/fp8.py:288 | `torch.narrow(t, 0, 0, n)` keeps the first n rows iff there are that many. |
| Fp8.NarrowUndoesPadding | aphrodite/quantization/fp8.py:271-288 | Padding never loses rows, so narrowing back to the input's rows succeeds and restores the shape. |
| Fp8.Apply | aphrodite/quantization/fp8.py:264-288 | Errors in the order Python meets them: a missing `act_scale` is an AttributeError, then a 0-D input an IndexError from the quantisation, then a missing `weight` or `weight_scale` an AttributeError, then a `None` one a TypeError. Succeeds iff both are tensors, the input and weight are 2-D and the input width matches the weight's rows; the output then has one row per input row and one column per weight column, in the input's dtype. |
| Fp8.ApplyAfterProcessing | aphrodite/quantization/fp8.py:264-288 | A processed layer can be applied to any input whose width matches. |
| Setup.RemovePrefix | setup.py:40-43 | The prefix is stripped once when the text starts with it. Otherwise the text is returned unchanged. |
| Setup.RemovePrefixOnce | setup.py:40-43 | Only one copy of the prefix is removed. |
| Setup.ExtensionTargetName | setup.py:187 | `aphrodite._C` builds the target `_C`. |
| Setup.PyFloorDiv | setup.py:88 | Python's `//` rounds towards negative infinity. |
| Setup.ComputeNumJobs | setup.py:60-90 | The job count comes from `MAX_JOBS`, else the affinity set, else `cpu_count()`. On the nvcc path it becomes max(1, jobs // nvcc_threads) ≥ 1, with nvcc_threads defaulting to 1, and it never exceeds a requested count of at least 1 when there is at least one thread. Each raising case gives its exception. |
| Setup.NvccThreadsBoundJobs | setup.py:79-88 | With at least one job and at least one nvcc thread, max(1, jobs // threads) lies between 1 and jobs, so dividing by the threads never raises the job count. One thread keeps it. |
| Setup.DistinctCountsOnce | setup.py:98-101 | A list without repeats holds each directory at most once. |
| Setup.ConfigTable.constructor | setup.py:53-55 | The class-level `did_config` starts empty. |
| Setup.CMakeBuildExt.constructor | setup.py:53-55 | An instance refers to the shared class-level table and has no table of its own. |
| Setup.CMakeBuildExt.Configure | setup.py:95-101 | A directory already in the shared `did_config` is skipped; any other is recorded and configured. So every configured directory was configured exactly once, whichever instance asked. |
| Setup.ConfigureFromTwoInstances | setup.py:53-101 | Two instances configuring the same directory run CMake once, because they share `did_config`. |
| Setup.UnsetFlagIsOn | setup.py:224-225 | An unset kernel variable reads as on. |
| Setup.AllMajorsAtLeast | setup.py:226-231 | The early-exit scan is true iff every device's major capability is ≥ the minimum. |
| Setup.InstallQuants | setup.py:223-232 | Fails iff the flag is unparsable. Otherwise true iff the flag is on and no device has major < 6. |
| Setup.InstallPunica | setup.py:235-244 | The same with major < 8. |
| Setup.InstallHadamard | setup.py:247-256 | The same with major ≤ 6. |
| Setup.GatesNested | setup.py:223-256 | Devices fit for punica are fit for hadamard, which are fit for the quantisation kernels. |
| Setup.DefaultGatesOn | setup.py:223-256 | With all variables unset and no device, every kernel family is built. |
| Setup.VersionTagShape | setup.py:333-349 | The label is empty iff the version is "12.1". Otherwise it is `+<kind>` followed by at most three characters, none of them a dot. |
| Setup.VersionTagCuda118 | setup.py:333-337 | "12.1" gives no label and "11.8" gives "+cu118". |
| Setup.AphroditeVersion | setup.py:330-356 | The version is always a prefix of the result. CUDA, ROCm and Neuron add their label and CPU adds "+cpu". Any other runtime raises `RuntimeError`. On ROCm an unreadable hipcc version raises `AttributeError`. |
| Setup.IncludeTarget | setup.py:377 | `line.split()[1]` of a "-r " line: the first word after "-r ", or `IndexError` iff there is none. |
| Setup.JoinedAssociative | setup.py:374-380 | Joining results (first failure wins) is associative. |
| Setup.ResolvedLinesAppend | setup.py:374-380 | Resolving a concatenation resolves each part in turn. |
| Setup.SingleLine | setup.py:375-379 | One line resolves to its own contribution. |
| Setup.IncludeSplicedInPlace | setup.py:371-380 | Each "-r file" line is replaced where it stands by that file's lines. The lines around it stay in order. |
| Setup.NoIncludesKept | setup.py:374-380 | A file without includes resolves to its own lines in order. |
| Setup.PrefixFailure | setup.py:375-379 | Once a line fails, the whole file fails the same way. |
| Setup.ResolvedStep | setup.py:375-379 | Reading one more line appends its contribution or fails with its error. |
| Setup.ReadRequirements | setup.py:371-380 | `_read_requirements` returns the resolved lines of the file, or the file's first error. |
| Setup.ResolveRequirementLines | setup.py:374-380 | The loop builds exactly the resolved lines. |
| Setup.CudaMajorMinor | setup.py:384 | Unpacking `split(".")` succeeds iff there are exactly two parts, neither containing a dot. |
| Setup.Rewritten | setup.py:385-395 | `modified_requirements` is never longer than `requirements`. |
| Setup.RewriteCudaRequirements | setup.py:385-395 | The loop builds exactly `Rewritten`. |
| Setup.ReplaceBySelf | setup.py:388-389 | Replacing a package name by itself changes nothing. |
| Setup.NcclRenameOnMainVersion | setup.py:388-389 | On CUDA major version 12 the nccl package is renamed to itself. |
| Setup.RewrittenOnMainVersion | setup.py:385-395 | On CUDA 12.1 the rewrite keeps every requirement. |
| Setup.RewrittenDropsFlashAttn | setup.py:390-394 | Off CUDA 12.1, when no requirement names the nccl package, no flash-attn requirement survives and every survivor was a requirement. |
| Setup.RewrittenAppend | setup.py:386-395 | The loop handles each requirement on its own: rewriting a concatenation is the concatenation of the rewrites, so order is kept. |
| Setup.RewrittenSingle | setup.py:386-395 | One requirement is rewritten by the per-line rule: rename when it names the nccl package, drop flash-attn off 12.1, else keep. |
| Setup.NcclRenamedInPlace | setup.py:387-389 | A line naming `vllm-nccl-cu12` is replaced where it stands by `req.replace("vllm-nccl-cu12", "vllm-nccl-cu" + major)`. |
| Setup.RewrittenKeepsOtherLines | setup.py:386-395 | Requirements naming neither package are all kept, in order. |
| Setup.PlatformRequirements | setup.py:396-404 | Checked in the order ROCm, Neuron, CPU: each reads its own requirements file. Any other platform raises `ValueError`. |
| Setup.GetRequirementsAsWritten | setup.py:368-405 | As written: on CUDA the unmodified `requirements` are returned. |
| Setup.GetRequirements | setup.py:368-405 | Corrected: on CUDA the rewritten list is returned. Elsewhere it agrees with the source. |
| Setup.AsWrittenAgreesOnMainVersion | setup.py:382-405 | The two agree off CUDA and on CUDA 12.1. |
| Setup.AsWrittenKeepsFlashAttnOnCuda118 | setup.py:382-405 | A CUDA 11.8 build whose requirements name flash-attn: the script returns `[vllm-flash-attn]`, and the corrected function returns `[]`. |
| Strings.Find | setup.py:387-391 | The left-to-right search decides Python's `in` on strings. |
| Strings.Split | setup.py:373 | `split(sep)` gives at least one piece, none holding the separator, and joining the pieces with `sep` gives the text back. |
| Strings.SplitJoin | setup.py:373 | Splitting the join of separator-free pieces gives those pieces, so `split` is the only decomposition with both properties. |
| Strings.ReplaceNoOccurrence | setup.py:388 | A text without the pattern is returned unchanged. |
| Strings.ReplaceFront | setup.py:388 | An occurrence at the front is replaced and the scan resumes after it. |
| Strings.ReplaceSkip | setup.py:388 | Without an occurrence at the front, the first character is kept. |
| Strings.ReplaceLeftmost | setup.py:388 | The left-most occurrence is replaced and the rest is replaced after it, so occurrences never overlap. |
| Strings.ReplaceKeepsPrefix | setup.py:388 | Characters before the first occurrence of the pattern are copied unchanged. |
| Strings.TrimLeft | setup.py:373 | `lstrip()` is a suffix of the text, everything it dropped is whitespace, and it does not start with whitespace. |
| Strings.TrimRight | setup.py:373 | `rstrip()` is a prefix of the text, everything it dropped is whitespace, and it does not end with whitespace. |
| Strings.Strip | setup.py:373 | `strip()` neither starts nor ends with whitespace. Whitespace is Python's `str.isspace()`. |
| Strings.StripKeepsSlice | setup.py:373 | `strip()` is the contiguous slice of the text that starts after the leading whitespace, with only whitespace around it. |
| Strings.DecimalStringValue | aphrodite/executor/cpu_executor.py:137 | The decimal text of n reads back as n. |
| Strings.ParseUnsignedDigits | aphrodite/executor/cpu_executor.py:137 | `int()` of a non-empty run of ASCII digits is its decimal value. |
| Strings.ParseNegativeDigits | aphrodite/executor/cpu_executor.py:137 | `int()` of a minus sign and a non-empty run of ASCII digits is the negated decimal value. |
| Strings.ParseIntRoundTrip | aphrodite/executor/cpu_executor.py:137 | `int(str(n))` round-trips, with or without a minus sign. |

## Left out

- Concrete allocators: the naive, prefix-caching, CPU and GPU allocators are not part of this model. The FIFO free list and the copy-on-write bookkeeping in `BlockAllocators.BlockAllocator.AppendTokenIds` are the reference allocator's own choices. Content hashing, eviction, the recency timestamp and KV tensor storage are not modelled.
- `Block.Factory`'s `allocator` argument: not modelled, because no shown code uses it.
- `OpenAIServing.__init__` / `_post_init`: the event loop and the engine query are not modelled. `max_model_len` and the tokenizer are constructor arguments.
- `tokenize` and `detokenize`: not modelled; they are only tokenizer calls.
- `create_error_response` / `create_streaming_error_response`: not modelled; `CheckModel` builds the response fields directly.
- The tokenizer: three uninterpreted functions. The model does not say how truncation by `max_length` works inside the tokenizer.
- ServingEngine.OpenAIServing.CreateLogprobs: models tokens and text offsets only. Not modelled:
  - the float `token_logprobs` and `top_logprobs` values;
  - `num_output_top_logprobs`;
  - the −9999 and −1000 clamps;
  - `top_logprobs.append(None)` on a step without candidates. What it does depends on the default of `LogProbs`, which is defined in `protocol.py`; that file is not part of this model.
- ServingEngine.OpenAIServing.ShowAvailableModels: the `permission` field and the `ModelList` wrapper are not modelled.
- A request is modelled by its kind and `max_tokens` only.
- CpuExecutor: `CPUExecutor` itself is not modelled. That covers worker construction, distributed init, `execute_model` and the LoRA delegation.
- The logger warnings in every module: not modelled.
- Strings.ParseInt: Python's `int()` also accepts `_` between digits and non-ASCII decimal digits. The model accepts surrounding whitespace (Python's `str.isspace()` set), one optional sign and ASCII digits only. `CpuExecutor.VerifyAndGetCacheConfig`, `Setup.ComputeNumJobs` and the kernel gates inherit this.
- Fp8: the quantisation kernels are not modelled:
  - `ops.*_scaled_fp8_quant`;
  - `per_tensor_quantize` / `per_tensor_dequantize`;
  - `torch._scaled_mm`;
  - the maximum of the scales.

  Tensors are shapes and dtypes. Whether the entries of `act_scale` are all close is the boolean parameter `actScalesAllClose`; `Fp8.AllCloseOneD` models the rest of `all_close_1d`.
- Fp8.RequantizeSerialized: the row ranges are computed, but the values written into those rows are not modelled, so a later error does not show that they were already rewritten. A scale of more than one dimension is assumed to broadcast against the weight rows.
- Fp8.Apply: `torch._scaled_mm` is not part of this model. It is taken to reject a `None` weight or weight scale with a TypeError, and to reject mismatched shapes with a RuntimeError.
- Fp8.FromConfig: `get_from_keys` is defined in `base_config.py`, which is not part of this model. A missing key is the error `MissingKey`. `quant_method` is taken to be a string, so `in` is a substring test.
- Fp8 constant queries: `get_name`, `get_supported_act_dtypes`, `get_min_capability`, `get_config_filenames`, `get_quant_method` and `get_scaled_act_names` are not modelled.
- Setup: these are not modelled:
  - the subprocess calls (cmake, nvcc, hipcc, neuron-ls);
  - the CMake argument list and `build_extensions`;
  - `find_version`;
  - `read_readme`;
  - the extension list;
  - the `setup()` call.

  Tool versions, `torch` results and environment variables are parameters. File contents are a map from names to text.
- Setup.ComputeNumJobs: `useNvccThreads` stands for "the target is CUDA and nvcc ≥ 11.2". `Setup.UsesNvccThreads` states that condition on the version pair.
- Setup.ReadRequirements: Python's recursion limit is the `depth` parameter. An include cycle therefore ends with `RecursionError`.
- Setup.AphroditeVersion: the hipcc and neuronxcc version strings are parameters, not parsed from tool output.

## Findings

| source | as written | input that shows it | evidently intended | confidence | as-written member | corrected member |
|---|---|---|---|---|---|---|
| aphrodite/endpoints/openai/serving_engine.py:193 | a new LoRA gets id `len(lora_requests) + 1` | add "a" (id 1), add "b" (id 2), remove "a", add "c": "c" also gets id 2 while "b" is alive | an id that no live LoRA carries | not executed | ServingEngine.AddedAsWrittenReusesIds | ServingEngine.Added |
| aphrodite/endpoints/openai/serving_engine.py:30 | `lora_modules=Optional[List[LoRA]]`, so the default is a typing object, not `None` | construct `OpenAIServing` without `lora_modules`: `enumerate` is applied to the typing object and raises | `lora_modules: Optional[List[LoRA]] = None`, giving an empty registry | not executed | ServingEngine.OmittedLoraModulesRaises | ServingEngine.InitialLoraRequestsCorrected |
| aphrodite/quantization/fp8.py:207-208 | `ValueError(...)` is built but not raised | a shard id that is neither int nor str (say a float) reaches `param[shard_id]` unchecked | `raise ValueError(...)` | not executed | Fp8.OtherShardIdNotRejected | Fp8.ShardIndex |
| setup.py:382-405 | the CUDA branch builds `modified_requirements` and then returns `requirements` | CUDA 11.8 with `requirements-cuda.txt` listing `vllm-flash-attn`: the package is still required | return `modified_requirements` on CUDA | not executed | Setup.AsWrittenKeepsFlashAttnOnCuda118 | Setup.GetRequirements |
