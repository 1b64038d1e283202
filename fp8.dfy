/** FP8 quantisation of linear layers: the configuration and its checks,
    which parameters a layer gets and with which shapes, the shard-name
    indexer for the per-shard scales, the bookkeeping of the post-load
    requantisation (row ranges per logical weight, which scales survive),
    and the padding and narrowing of the batch dimension around the FP8
    matrix multiply.

    Tensors are modelled by their shape and element type only; the
    quantisation arithmetic itself is not part of the model. */
module Fp8 {
  import opened Wrappers
  import opened Strings

  datatype QuantError =
    ValueError | ImportError | IndexError | AttributeError | RuntimeError | TypeError | AssertionError | MissingKey

  datatype DType = Float8E4M3 | Float16 | BFloat16 | Float32

  datatype Tensor = Tensor(shape: seq<nat>, dtype: DType)

  /** A layer attribute: never set, set to `None`, or holding a value. */
  datatype Slot<T> = Missing | NoneSet | Holds(value: T)

  /** The two activation schemes the FP8 method supports. */
  const ActivationSchemes: seq<string> := ["static", "dynamic"]

  /** The batch padding `apply` asks for. */
  const BatchDimPadding: nat := 17

  datatype Fp8Config = Fp8Config(isCheckpointFp8Serialized: bool, activationScheme: string) {
    ghost predicate Valid() {
      activationScheme in ActivationSchemes
    }
  }

  datatype Fp8LinearMethod = Fp8LinearMethod(quantConfig: Fp8Config)

  // ---------------------------------------------------------------------
  // Configuration

  /** `Fp8Config(is_checkpoint_fp8_serialized, activation_scheme)`: only the
      schemes "static" and "dynamic" are accepted. */
  function NewFp8Config(isCheckpointFp8Serialized: bool, activationScheme: string): (r: Result<Fp8Config, QuantError>)
    ensures r.Success? <==> activationScheme == "static" || activationScheme == "dynamic"
    ensures r.Failure? ==> r.error == ValueError
    ensures r.Success? ==> && r.value.Valid()
                           && r.value.isCheckpointFp8Serialized == isCheckpointFp8Serialized
                           && r.value.activationScheme == activationScheme
  {
    if activationScheme !in ActivationSchemes then Failure(ValueError)
    else Success(Fp8Config(isCheckpointFp8Serialized, activationScheme))
  }

  /** The defaults of `Fp8Config()`: not serialized, dynamic scheme. */
  function DefaultFp8Config(): (r: Fp8Config)
    ensures r.Valid() && !r.isCheckpointFp8Serialized && r.activationScheme == "dynamic"
  {
    NewFp8Config(false, "dynamic").value
  }

  /** `Fp8Config.from_config`: reads `quant_method`, then
      `activation_scheme`; a checkpoint counts as serialized FP8 exactly
      when "fp8" occurs in `quant_method`. */
  function FromConfig(config: map<string, string>): (r: Result<Fp8Config, QuantError>)
    ensures "quant_method" !in config || "activation_scheme" !in config ==> r == Failure(MissingKey)
    ensures "quant_method" in config && "activation_scheme" in config ==>
              && (r.Success? <==> config["activation_scheme"] in ActivationSchemes)
              && (r.Success? ==> && r.value.isCheckpointFp8Serialized == Contains(config["quant_method"], "fp8")
                                 && r.value.activationScheme == config["activation_scheme"])
  {
    if "quant_method" !in config then Failure(MissingKey)
    else
      var quantMethod := config["quant_method"];
      var isSerialized := Find(quantMethod, "fp8");
      if "activation_scheme" !in config then Failure(MissingKey)
      else NewFp8Config(isSerialized, config["activation_scheme"])
  }

  /** `Fp8LinearMethod(quant_config)`: needs the quantisation kernels. */
  function NewFp8LinearMethod(quantConfig: Fp8Config, hasQuants: bool): (r: Result<Fp8LinearMethod, QuantError>)
    ensures r.Success? <==> hasQuants
    ensures r.Failure? ==> r.error == ImportError
    ensures r.Success? ==> r.value.quantConfig == quantConfig
  {
    if !hasQuants then Failure(ImportError) else Success(Fp8LinearMethod(quantConfig))
  }

  // ---------------------------------------------------------------------
  // Weight creation

  function Sum(s: seq<nat>): nat {
    if s == [] then 0 else Sum(s[..|s| - 1]) + s[|s| - 1]
  }

  lemma {:induction false} SumAppend(s: seq<nat>, x: nat)
    ensures Sum(s + [x]) == Sum(s) + x
  {
    assert (s + [x])[..|s + [x]| - 1] == s;
  }

  /** The tensor of one scale parameter: one float32 entry per partition. */
  function ScaleTensor(outputPartitionSizes: seq<nat>): (t: Tensor)
    ensures t.shape == [|outputPartitionSizes|] && t.dtype == Float32
  {
    Tensor([|outputPartitionSizes|], Float32)
  }

  datatype ScaleName = WeightScale | ActScale

  /** The layer attributes the FP8 method reads and writes. */
  class Layer {
    var processAfterLoad: Option<bool>
    var logicalWidths: Slot<seq<nat>>
    var weight: Slot<Tensor>
    var weightScale: Slot<Tensor>
    var actScale: Slot<Tensor>

    /** A layer none of whose FP8 attributes is set yet. */
    constructor ()
      ensures processAfterLoad == None && logicalWidths == Missing
      ensures weight == Missing && weightScale == Missing && actScale == Missing
    {
      processAfterLoad := None;
      logicalWidths := Missing;
      weight := Missing;
      weightScale := Missing;
      actScale := Missing;
    }
  }

  /** `_create_scale_param`: registers the named scale with one entry per
      partition. */
  method CreateScaleParam(scaleName: ScaleName, layer: Layer, outputPartitionSizes: seq<nat>)
    modifies layer`weightScale, layer`actScale
    ensures scaleName == WeightScale ==> layer.weightScale == Holds(ScaleTensor(outputPartitionSizes)) && layer.actScale == old(layer.actScale)
    ensures scaleName == ActScale ==> layer.actScale == Holds(ScaleTensor(outputPartitionSizes)) && layer.weightScale == old(layer.weightScale)
  {
    var scale := Tensor([|outputPartitionSizes|], Float32);
    if scaleName == WeightScale {
      layer.weightScale := Holds(scale);
    } else {
      layer.actScale := Holds(scale);
    }
  }

  /** `create_weights`: a weight with one row per output row of all
      partitions, FP8 when the checkpoint already is; the weight scale only
      for a serialized checkpoint, the activation scale only when it is
      also static. */
  method CreateWeights(m: Fp8LinearMethod, layer: Layer, inputSizePerPartition: nat,
                       outputPartitionSizes: seq<nat>, paramsDtype: DType)
    modifies layer
    ensures layer.processAfterLoad == Some(true)
    ensures layer.logicalWidths == Holds(outputPartitionSizes)
    ensures layer.weight == Holds(Tensor([Sum(outputPartitionSizes), inputSizePerPartition],
                                         if m.quantConfig.isCheckpointFp8Serialized then Float8E4M3 else paramsDtype))
    ensures layer.weightScale == if m.quantConfig.isCheckpointFp8Serialized then Holds(ScaleTensor(outputPartitionSizes))
                                 else old(layer.weightScale)
    ensures layer.actScale == if m.quantConfig.isCheckpointFp8Serialized && m.quantConfig.activationScheme == "static"
                              then Holds(ScaleTensor(outputPartitionSizes))
                              else old(layer.actScale)
  {
    var outputSizePerPartition := Sum(outputPartitionSizes);
    layer.processAfterLoad := Some(true);
    layer.logicalWidths := Holds(outputPartitionSizes);
    var weightDtype := if m.quantConfig.isCheckpointFp8Serialized then Float8E4M3 else paramsDtype;
    layer.weight := Holds(Tensor([outputSizePerPartition, inputSizePerPartition], weightDtype));
    if m.quantConfig.isCheckpointFp8Serialized {
      CreateScaleParam(WeightScale, layer, outputPartitionSizes);
      if m.quantConfig.activationScheme == "static" {
        CreateScaleParam(ActScale, layer, outputPartitionSizes);
      }
    }
  }

  // ---------------------------------------------------------------------
  // The shard indexer

  datatype ShardId = IntId(i: int) | StrId(s: string) | OtherId

  const QkvIdxs: map<string, nat> := map["q" := 0, "k" := 1, "v" := 2]

  /** Python's `param[i]` on a tensor of `n` entries: a negative index
      counts from the end. */
  function PyIndex(n: nat, i: int): (r: Result<nat, QuantError>)
    ensures r.Success? <==> -(n as int) <= i < n
    ensures r.Success? ==> r.value < n && (r.value == i || r.value == i + n)
    ensures r.Failure? ==> r.error == IndexError
  {
    if 0 <= i < n then Success(i)
    else if -(n as int) <= i < 0 then Success(i + n)
    else Failure(IndexError)
  }

  /** Which scale a shard id selects: an entry, or (for an id that is
      neither an int nor a string) the id handed to the tensor unchecked. */
  datatype Selection = Entry(index: nat) | Unchecked(shardId: ShardId)

  /** `scales_shard_indexer` as written: the `ValueError` for an id that is
      neither an int nor a string is built but never raised, so such an id
      reaches the tensor index unchecked. */
  function ShardIndexAsWritten(numShards: nat, shardId: ShardId): (r: Result<Selection, QuantError>)
    ensures shardId.OtherId? ==> r == Success(Unchecked(OtherId))
    ensures !shardId.OtherId? ==>
              (r.Success? <==> ShardIndex(numShards, shardId).Success?)
              && (r.Success? ==> r.value == Entry(ShardIndex(numShards, shardId).value))
  {
    match shardId
    case IntId(i) =>
      var k :- PyIndex(numShards, i);
      Success(Entry(k))
    case StrId(s) =>
      if s !in QkvIdxs then Failure(ValueError)
      else
        var k :- PyIndex(numShards, QkvIdxs[s]);
        Success(Entry(k))
    case OtherId => Success(Unchecked(OtherId))
  }

  /** `scales_shard_indexer` with the error raised: "q", "k" and "v" select
      scales 0, 1 and 2, an int selects itself, and anything else is a
      `ValueError`. */
  function ShardIndex(numShards: nat, shardId: ShardId): (r: Result<nat, QuantError>)
    ensures r.Success? ==> r.value < numShards
    ensures shardId.OtherId? ==> r == Failure(ValueError)
    ensures shardId.StrId? ==> (r.Success? <==> shardId.s in QkvIdxs && QkvIdxs[shardId.s] < numShards)
    ensures shardId.StrId? && r.Success? ==> r.value == QkvIdxs[shardId.s]
    ensures shardId.IntId? ==> r == PyIndex(numShards, shardId.i)
  {
    match shardId
    case IntId(i) => PyIndex(numShards, i)
    case StrId(s) =>
      if s !in QkvIdxs then Failure(ValueError)
      else PyIndex(numShards, QkvIdxs[s])
    case OtherId => Failure(ValueError)
  }

  /** An id of another type passes the source's indexer, while the
      corrected indexer refuses it. */
  lemma OtherShardIdNotRejected(numShards: nat)
    ensures ShardIndexAsWritten(numShards, OtherId).Success?
    ensures ShardIndex(numShards, OtherId) == Failure(ValueError)
  {
  }

  /** The q/k/v names of a fused QKV layer (three scales) select scales 0,
      1 and 2, and no other string is accepted. */
  lemma QkvShardNames(s: string)
    ensures ShardIndex(3, StrId("q")) == Success(0)
    ensures ShardIndex(3, StrId("k")) == Success(1)
    ensures ShardIndex(3, StrId("v")) == Success(2)
    ensures s != "q" && s != "k" && s != "v" ==> ShardIndex(3, StrId(s)) == Failure(ValueError)
  {
  }

  // ---------------------------------------------------------------------
  // Post-load processing

  /** The rows `[start, end)` of logical weight `i`: it starts after the
      widths of all earlier logical weights. */
  function RowRange(widths: seq<nat>, i: nat): (nat, nat)
    requires i < |widths|
  {
    (Sum(widths[..i]), Sum(widths[..i]) + widths[i])
  }

  /** The loop over logical widths with its running `start`: the row range
      of each logical weight, in order. */
  method RequantizedRowRanges(logicalWidths: seq<nat>) returns (ranges: seq<(nat, nat)>)
    ensures |ranges| == |logicalWidths|
    ensures forall i :: 0 <= i < |ranges| ==> ranges[i] == RowRange(logicalWidths, i)
  {
    ranges := [];
    var start: nat := 0;
    var idx := 0;
    while idx < |logicalWidths|
      invariant 0 <= idx <= |logicalWidths|
      invariant |ranges| == idx
      invariant start == Sum(logicalWidths[..idx])
      invariant forall i :: 0 <= i < idx ==> ranges[i] == RowRange(logicalWidths, i)
    {
      var end := start + logicalWidths[idx];
      ranges := ranges + [(start, end)];
      assert logicalWidths[..idx + 1] == logicalWidths[..idx] + [logicalWidths[idx]];
      SumAppend(logicalWidths[..idx], logicalWidths[idx]);
      start := end;
      idx := idx + 1;
    }
  }

  lemma RowRangeFollows(widths: seq<nat>, i: nat)
    requires 0 < i < |widths|
    ensures RowRange(widths, i).0 == RowRange(widths, i - 1).1
  {
    assert widths[..i] == widths[..i - 1] + [widths[i - 1]];
    SumAppend(widths[..i - 1], widths[i - 1]);
  }

  /** The ranges are contiguous: the first starts at row 0, each later one
      where the one before ended, and the last ends at the total width. */
  lemma RowRangesContiguous(widths: seq<nat>)
    ensures |widths| > 0 ==> RowRange(widths, 0).0 == 0
    ensures forall i :: 0 < i < |widths| ==> RowRange(widths, i).0 == RowRange(widths, i - 1).1
    ensures |widths| > 0 ==> RowRange(widths, |widths| - 1).1 == Sum(widths)
  {
    if |widths| > 0 {
      var n := |widths| - 1;
      assert widths[..0] == [];
      assert widths[..n] + [widths[n]] == widths;
      SumAppend(widths[..n], widths[n]);
    }
    forall i | 0 < i < |widths| ensures RowRange(widths, i).0 == RowRange(widths, i - 1).1 {
      RowRangeFollows(widths, i);
    }
  }

  /** Prefix sums of non-negative widths never decrease. */
  lemma {:induction false} PrefixSumMonotone(widths: seq<nat>, i: nat, j: nat)
    requires i <= j <= |widths|
    ensures Sum(widths[..i]) <= Sum(widths[..j])
    decreases j - i
  {
    if i < j {
      PrefixSumMonotone(widths, i, j - 1);
      assert widths[..j] == widths[..j - 1] + [widths[j - 1]];
      SumAppend(widths[..j - 1], widths[j - 1]);
    }
  }

  /** Every row below the total width lies in the row range of some
      logical weight. */
  lemma {:induction false} RowRangesCover(widths: seq<nat>, row: nat)
    requires row < Sum(widths)
    ensures exists i :: 0 <= i < |widths| && RowRange(widths, i).0 <= row < RowRange(widths, i).1
  {
    var n := |widths| - 1;
    assert widths == widths[..n] + [widths[n]];
    if row >= Sum(widths[..n]) {
      assert RowRange(widths, n).0 <= row < RowRange(widths, n).1;
    } else {
      RowRangesCover(widths[..n], row);
      var i :| 0 <= i < n && RowRange(widths[..n], i).0 <= row < RowRange(widths[..n], i).1;
      assert widths[..n][..i] == widths[..i];
      assert RowRange(widths, i) == RowRange(widths[..n], i);
    }
  }

  /** The row ranges of two different logical weights do not overlap. */
  lemma RowRangesDisjoint(widths: seq<nat>, i: nat, j: nat)
    requires i < j < |widths|
    ensures RowRange(widths, i).1 <= RowRange(widths, j).0
  {
    assert widths[..i + 1] == widths[..i] + [widths[i]];
    SumAppend(widths[..i], widths[i]);
    PrefixSumMonotone(widths, i + 1, j);
  }

  /** `.t()`: a 2-D tensor swaps its dimensions, a 0-D or 1-D one is
      returned as it is, and anything else is an error. */
  function Transposed(t: Tensor): (r: Result<Tensor, QuantError>)
    ensures r.Success? <==> |t.shape| <= 2
    ensures r.Success? ==> r.value.dtype == t.dtype && |r.value.shape| == |t.shape|
    ensures |t.shape| == 2 ==> r.Success? && r.value.shape == [t.shape[1], t.shape[0]]
  {
    if |t.shape| < 2 then Success(t)
    else if |t.shape| == 2 then Success(Tensor([t.shape[1], t.shape[0]], t.dtype))
    else Failure(RuntimeError)
  }

  lemma TransposedTwice(t: Tensor)
    requires |t.shape| <= 2
    ensures Transposed(Transposed(t).value) == Success(t)
  {
    if |t.shape| == 2 {
      assert t.shape == [t.shape[0], t.shape[1]];
    }
  }

  /** `t.max()`: a 0-D tensor of the same element type. */
  function MaxOf(t: Tensor): Tensor {
    Tensor([], t.dtype)
  }

  /** The error `s.max()` raises on a layer attribute: the attribute must
      hold a tensor (`None.max()` is an `AttributeError` as well), and a
      tensor without entries has no maximum. */
  function MaxError(s: Slot<Tensor>): (r: Option<QuantError>)
    ensures r.None? <==> s.Holds? && 0 !in s.value.shape
  {
    match s
    case Holds(t) => if 0 in t.shape then Some(RuntimeError) else None
    case _ => Some(AttributeError)
  }

  /** The error the loop over the logical weights raises, if any: every
      iteration slices `weight[start:end, :]`, which needs a tensor of at
      least two dimensions, and reads `weight_scale[idx]`, which needs a
      1-D or wider scale with an entry per logical weight. With no logical
      weight the loop body never runs. */
  function ScaleLoopError(w: Slot<Tensor>, scales: Tensor, widths: seq<nat>): (r: Option<QuantError>)
    ensures r.None? <==> widths == [] || (w.Holds? && |w.value.shape| >= 2 && |scales.shape| > 0 && |widths| <= scales.shape[0])
  {
    if widths == [] then None
    else
      match w
      case Missing => Some(AttributeError)
      case NoneSet => Some(TypeError)
      case Holds(t) =>
        if |t.shape| < 2 || |scales.shape| == 0 || scales.shape[0] < |widths| then Some(IndexError) else None
  }

  /** The first error of the weight-scale stage: the maximum of the weight
      scales, the enumeration of the logical widths (`None` cannot be
      enumerated), then the loop. */
  function ScaleStageError(w: Slot<Tensor>, ws: Slot<Tensor>, lw: Slot<seq<nat>>): (r: Option<QuantError>)
    ensures r.None? ==> ws.Holds? && lw.Holds? && MaxError(ws).None? && ScaleLoopError(w, ws.value, lw.value).None?
  {
    if MaxError(ws).Some? then MaxError(ws)
    else
      match lw
      case Missing => Some(AttributeError)
      case NoneSet => Some(TypeError)
      case Holds(widths) => ScaleLoopError(w, ws.value, widths)
  }

  /** The error `layer.weight.t()` raises, if any (`None.t()` is an
      `AttributeError` as well). */
  function TransposeError(w: Slot<Tensor>): (r: Option<QuantError>)
    ensures r.None? <==> w.Holds? && Transposed(w.value).Success?
  {
    match w
    case Holds(t) => if Transposed(t).Failure? then Some(RuntimeError) else None
    case _ => Some(AttributeError)
  }

  /** `all_close_1d(x)`: `x` must be a 1-D tensor; whether its entries are
      all close to the first one is the value of the parameter
      `entriesClose`, and an empty tensor is vacuously all close. */
  function AllCloseOneD(x: Slot<Tensor>, entriesClose: bool): (r: Result<bool, QuantError>)
    ensures r.Success? <==> x.Holds? && |x.value.shape| == 1
    ensures r.Failure? ==> r.error == (if x.Holds? then AssertionError else AttributeError)
    ensures r.Success? ==> (r.value <==> x.value.shape[0] == 0 || entriesClose)
  {
    match x
    case Holds(t) => if |t.shape| != 1 then Failure(AssertionError) else Success(t.shape[0] == 0 || entriesClose)
    case _ => Failure(AttributeError)
  }

  /** The activation-scale stage: `None` for the dynamic scheme; for the
      static one the scales must be all close and then become their
      maximum; any other scheme is a `ValueError`. */
  function ActScaleStage(scheme: string, a: Slot<Tensor>, entriesClose: bool): (r: Result<Slot<Tensor>, QuantError>)
    ensures scheme == "dynamic" ==> r == Success(NoneSet)
    ensures scheme != "dynamic" && scheme != "static" ==> r == Failure(ValueError)
    ensures scheme == "static" ==>
              (r.Success? <==> a.Holds? && |a.value.shape| == 1 && a.value.shape[0] > 0 && entriesClose)
    ensures scheme == "static" && r.Success? ==> r.value == Holds(MaxOf(a.value))
  {
    if scheme == "dynamic" then Success(NoneSet)
    else if scheme == "static" then
      var close :- AllCloseOneD(a, entriesClose);
      if !close then Failure(ValueError)
      else if MaxError(a).Some? then Failure(MaxError(a).value)
      else Success(Holds(MaxOf(a.value)))
    else Failure(ValueError)
  }

  /** The first error of the serialized branch, stage by stage: weight
      scale, transpose, activation scale. */
  function SerializedError(scheme: string, w: Slot<Tensor>, ws: Slot<Tensor>, lw: Slot<seq<nat>>,
                           a: Slot<Tensor>, entriesClose: bool): (r: Option<QuantError>)
    ensures r.None? <==> ScaleStageError(w, ws, lw).None? && TransposeError(w).None?
                         && ActScaleStage(scheme, a, entriesClose).Success?
  {
    var err := ScaleStageError(w, ws, lw);
    if err.Some? then err
    else if TransposeError(w).Some? then TransposeError(w)
    else
      match ActScaleStage(scheme, a, entriesClose)
      case Failure(e) => Some(e)
      case Success(_) => None
  }

  /** What the serialized branch leaves behind, stage by stage: it fails
      with the first error of `SerializedError`; the weight scale is the
      maximum once the weight-scale stage passes, the weight its transpose
      once the transpose passes too, and the activation scale is replaced
      only when everything passes. The stages run in order and nothing is
      rolled back, so an error in a later stage leaves the earlier stages'
      writes in place. The other attributes never change. */
  twostate predicate RequantizedAs(layer: Layer, scheme: string, entriesClose: bool, new r: Outcome<QuantError>)
    reads layer
  {
    var scaleErr := old(ScaleStageError(layer.weight, layer.weightScale, layer.logicalWidths));
    var weightOk := scaleErr.None? && old(TransposeError(layer.weight)).None?;
    var err := old(SerializedError(scheme, layer.weight, layer.weightScale, layer.logicalWidths, layer.actScale, entriesClose));
    && r == (if err.Some? then Fail(err.value) else Pass)
    && layer.weightScale == (if scaleErr.None? then Holds(MaxOf(old(layer.weightScale).value)) else old(layer.weightScale))
    && layer.weight == (if weightOk then Holds(Transposed(old(layer.weight).value).value) else old(layer.weight))
    && layer.actScale == (if err.None? then ActScaleStage(scheme, old(layer.actScale), entriesClose).value
                         else old(layer.actScale))
    && layer.logicalWidths == old(layer.logicalWidths)
    && layer.processAfterLoad == old(layer.processAfterLoad)
  }

  /** The error quantising the weight of a non-serialized checkpoint
      raises: `scaled_fp8_quant` needs a tensor (`None` is a `TypeError`)
      and `.t()` at most two dimensions. */
  function QuantizeError(w: Slot<Tensor>): (r: Option<QuantError>)
    ensures r.None? <==> w.Holds? && |w.value.shape| <= 2
  {
    match w
    case Missing => Some(AttributeError)
    case NoneSet => Some(TypeError)
    case Holds(t) => if |t.shape| > 2 then Some(RuntimeError) else None
  }

  /** `process_weights_after_loading`. Nothing happens unless the layer is
      marked for processing. A non-serialized checkpoint gets an FP8
      transposed weight, a one-entry scale, and neither logical widths nor
      an activation scale; its errors all come before the first write. A
      serialized one is requantised row range by row range to one scalar
      weight scale; its activation scale becomes `None` (dynamic) or one
      scalar (static, when all the per-partition activation scales are
      close, which `actScalesAllClose` reports). */
  method ProcessWeightsAfterLoading(m: Fp8LinearMethod, layer: Layer, actScalesAllClose: bool)
    returns (r: Outcome<QuantError>)
    modifies layer
    ensures old(layer.processAfterLoad) != Some(true) ==> r == Pass && unchanged(layer)
    ensures old(layer.processAfterLoad) == Some(true) && !m.quantConfig.isCheckpointFp8Serialized ==>
              if old(QuantizeError(layer.weight)).Some? then
                r == Fail(old(QuantizeError(layer.weight)).value) && unchanged(layer)
              else
                && r == Pass
                && layer.weight == Holds(Tensor(Transposed(old(layer.weight).value).value.shape, Float8E4M3))
                && layer.weightScale == Holds(Tensor([1], Float32))
                && layer.logicalWidths == NoneSet && layer.actScale == NoneSet
                && layer.processAfterLoad == old(layer.processAfterLoad)
    ensures old(layer.processAfterLoad) == Some(true) && m.quantConfig.isCheckpointFp8Serialized ==>
              RequantizedAs(layer, m.quantConfig.activationScheme, actScalesAllClose, r)
    ensures r.Pass? && old(layer.processAfterLoad) == Some(true) ==>
              && layer.weight.Holds? && old(layer.weight).Holds?
              && Transposed(old(layer.weight).value).Success?
              && layer.weight.value.shape == Transposed(old(layer.weight).value).value.shape
    ensures r.Pass? && old(layer.processAfterLoad) == Some(true) && !m.quantConfig.isCheckpointFp8Serialized ==>
              layer.weight.value.dtype == Float8E4M3
    ensures r.Pass? && old(layer.processAfterLoad) == Some(true) && m.quantConfig.isCheckpointFp8Serialized ==>
              && layer.weight.value.dtype == old(layer.weight).value.dtype
              && old(layer.weightScale).Holds? && layer.weightScale == Holds(MaxOf(old(layer.weightScale).value))
              && layer.logicalWidths == old(layer.logicalWidths)
              && (m.quantConfig.activationScheme == "dynamic" ==> layer.actScale == NoneSet)
              && (m.quantConfig.activationScheme == "static" ==>
                    old(layer.actScale).Holds? && layer.actScale == Holds(MaxOf(old(layer.actScale).value)))
    ensures m.quantConfig.isCheckpointFp8Serialized && m.quantConfig.activationScheme == "static"
            && old(layer.processAfterLoad) == Some(true) && !actScalesAllClose && old(layer.actScale).Holds? ==>
              r.Fail?
    ensures m.quantConfig.Valid() && old(layer.processAfterLoad) == Some(true) && r.Fail? ==> r.error != ValueError || !actScalesAllClose
  {
    if layer.processAfterLoad != Some(true) {
      return Pass;
    }
    if !m.quantConfig.isCheckpointFp8Serialized {
      // `scaled_fp8_quant(layer.weight, scale=None)`
      if layer.weight.Missing? {
        return Fail(AttributeError);
      } else if layer.weight.NoneSet? {
        return Fail(TypeError);
      }
      var q := ScaledFp8Quant(layer.weight.value, None, None);
      var t := Transposed(q.value.0);
      if t.Failure? {
        return Fail(t.error);
      }
      layer.weight := Holds(t.value);
      layer.weightScale := Holds(q.value.1);
      layer.logicalWidths := NoneSet;
      layer.actScale := NoneSet;
      return Pass;
    }
    r := RequantizeSerialized(m, layer, actScalesAllClose);
  }

  /** The serialized-checkpoint branch of `process_weights_after_loading`,
      in the source's order: the maximum weight scale, the loop over the
      logical weights, the new weight scale, the transpose, the activation
      scale. */
  method RequantizeSerialized(m: Fp8LinearMethod, layer: Layer, actScalesAllClose: bool)
    returns (r: Outcome<QuantError>)
    modifies layer`weight, layer`weightScale, layer`actScale
    ensures RequantizedAs(layer, m.quantConfig.activationScheme, actScalesAllClose, r)
    ensures m.quantConfig.activationScheme == "static" && !actScalesAllClose && old(layer.actScale).Holds? ==> r.Fail?
    ensures m.quantConfig.Valid() && r.Fail? ==> r.error != ValueError || !actScalesAllClose
  {
    // `max_w_scale = layer.weight_scale.max()`
    var maxErr := MaxError(layer.weightScale);
    if maxErr.Some? {
      return Fail(maxErr.value);
    }
    var scales := layer.weightScale.value;
    // `enumerate(layer.logical_widths)`
    if layer.logicalWidths.Missing? {
      return Fail(AttributeError);
    } else if layer.logicalWidths.NoneSet? {
      return Fail(TypeError);
    }
    var ranges := RequantizedRowRanges(layer.logicalWidths.value);
    for idx := 0 to |ranges|
      invariant idx > 0 ==> layer.weight.Holds? && |layer.weight.value.shape| >= 2
      invariant idx > 0 ==> |scales.shape| > 0 && idx <= scales.shape[0]
    {
      // `layer.weight[start:end, :]`, whose values are rewritten in place
      if layer.weight.Missing? {
        return Fail(AttributeError);
      } else if layer.weight.NoneSet? {
        return Fail(TypeError);
      } else if |layer.weight.value.shape| < 2 {
        return Fail(IndexError);
      }
      // `layer.weight_scale[idx]`
      if |scales.shape| == 0 || idx >= scales.shape[0] {
        return Fail(IndexError);
      }
    }
    layer.weightScale := Holds(MaxOf(scales));
    // `weight.t()`
    if !layer.weight.Holds? {
      return Fail(AttributeError);
    }
    var t := Transposed(layer.weight.value);
    if t.Failure? {
      return Fail(t.error);
    }
    layer.weight := Holds(t.value);
    var act := ActScaleStage(m.quantConfig.activationScheme, layer.actScale, actScalesAllClose);
    if act.Failure? {
      return Fail(act.error);
    }
    layer.actScale := act.value;
    return Pass;
  }

  /** Unequal static activation scales are only noticed after the weight
      scale and the weight have been rewritten, so the `ValueError` leaves
      a requantised, transposed weight behind. */
  lemma MismatchAfterRewrite()
    ensures var w: Slot<Tensor> := Holds(Tensor([4, 3], Float8E4M3));
            var ws: Slot<Tensor> := Holds(Tensor([2], Float32));
            var lw: Slot<seq<nat>> := Holds([2, 2]);
            && SerializedError("static", w, ws, lw, ws, false) == Some(ValueError)
            && ScaleStageError(w, ws, lw).None? && TransposeError(w).None?
  {
  }

  /** A layer as `CreateWeights` leaves it for a serialized checkpoint is
      requantised without error exactly when it has a partition and the
      scheme is dynamic or the static scales are all close; with no
      partition the weight scale is empty and has no maximum. */
  lemma CreatedLayerRequantizes(outputPartitionSizes: seq<nat>, inputSize: nat, scheme: string, entriesClose: bool)
    requires scheme in ActivationSchemes
    ensures var w := Holds(Tensor([Sum(outputPartitionSizes), inputSize], Float8E4M3));
            var ws := Holds(ScaleTensor(outputPartitionSizes));
            var lw := Holds(outputPartitionSizes);
            var a := if scheme == "static" then ws else Missing;
            var err := SerializedError(scheme, w, ws, lw, a, entriesClose);
            && (outputPartitionSizes == [] ==> err == Some(RuntimeError))
            && (outputPartitionSizes != [] ==> (err.None? <==> scheme == "dynamic" || entriesClose))
            && (outputPartitionSizes != [] && scheme == "static" && !entriesClose ==> err == Some(ValueError))
  {
  }

  // ---------------------------------------------------------------------
  // Padding and narrowing

  /** The output shape of `scaled_fp8_quant`: with a non-zero padding p the
      first dimension becomes max(p, rows), otherwise the input's shape. */
  function QuantOutputShape(inputShape: seq<nat>, batchDimPadding: Option<int>): (r: Result<seq<nat>, QuantError>)
    ensures r.Success? <==> !(batchDimPadding.Some? && batchDimPadding.value != 0) || |inputShape| > 0
    ensures r.Success? ==> |r.value| == |inputShape| && (inputShape != [] ==> r.value[1..] == inputShape[1..])
    ensures r.Success? && batchDimPadding.Some? && batchDimPadding.value != 0 ==>
              r.value[0] >= inputShape[0] && r.value[0] >= batchDimPadding.value
              && (r.value[0] == inputShape[0] || r.value[0] == batchDimPadding.value)
    ensures !(batchDimPadding.Some? && batchDimPadding.value != 0) ==> r == Success(inputShape)
  {
    if batchDimPadding.Some? && batchDimPadding.value != 0 then
      if inputShape == [] then Failure(IndexError)
      else
        var p := batchDimPadding.value;
        var rows: nat := if p > inputShape[0] then p else inputShape[0];
        Success([rows] + inputShape[1..])
    else Success(inputShape)
  }

  /** `scaled_fp8_quant`, by shapes: the FP8 output and the scale, which is
      the given one or a fresh one-entry float32 tensor. */
  function ScaledFp8Quant(input: Tensor, scale: Option<Tensor>, batchDimPadding: Option<int>): (r: Result<(Tensor, Tensor), QuantError>)
    ensures r.Success? ==> r.value.0.dtype == Float8E4M3 && QuantOutputShape(input.shape, batchDimPadding) == Success(r.value.0.shape)
    ensures r.Success? ==> r.value.1 == scale.GetOr(Tensor([1], Float32))
    ensures r.Success? <==> QuantOutputShape(input.shape, batchDimPadding).Success?
  {
    var shape :- QuantOutputShape(input.shape, batchDimPadding);
    Success((Tensor(shape, Float8E4M3), scale.GetOr(Tensor([1], Float32))))
  }

  /** `apply`, by shapes: the input is padded to at least 17 rows, multiplied
      by the transposed weight, and narrowed back to the input's rows, so
      the result has one row per input row and one column per weight
      column, in the input's element type. The errors come in the order
      Python meets them: reading `act_scale`, quantising the input, reading
      `weight` and `weight_scale` as arguments, then the matrix product. */
  function Apply(layer: Layer, x: Tensor): (r: Result<Tensor, QuantError>)
    reads layer
    ensures layer.actScale.Missing? ==> r == Failure(AttributeError)
    ensures !layer.actScale.Missing? && x.shape == [] ==> r == Failure(IndexError)
    ensures !layer.actScale.Missing? && x.shape != [] && (layer.weight.Missing? || layer.weightScale.Missing?) ==>
              r == Failure(AttributeError)
    ensures (&& !layer.actScale.Missing? && x.shape != [] && !layer.weight.Missing? && !layer.weightScale.Missing?
             && (layer.weight.NoneSet? || layer.weightScale.NoneSet?)) ==> r == Failure(TypeError)
    ensures r.Success? <==> && !layer.actScale.Missing? && layer.weight.Holds? && layer.weightScale.Holds?
                            && |x.shape| == 2 && |layer.weight.value.shape| == 2
                            && x.shape[1] == layer.weight.value.shape[0]
    ensures r.Success? ==> r.value.shape == [x.shape[0], layer.weight.value.shape[1]] && r.value.dtype == x.dtype
  {
    if layer.actScale.Missing? then Failure(AttributeError)
    else
      var actScale := if layer.actScale.Holds? then Some(layer.actScale.value) else None;
      var q :- ScaledFp8Quant(x, actScale, Some(BatchDimPadding));
      var qinput := q.0;
      if layer.weight.Missing? || layer.weightScale.Missing? then Failure(AttributeError)
      else if layer.weight.NoneSet? || layer.weightScale.NoneSet? then Failure(TypeError)
      else
        var w := layer.weight.value;
        if |qinput.shape| != 2 || |w.shape| != 2 || qinput.shape[1] != w.shape[0] then Failure(RuntimeError)
        else
          NarrowUndoesPadding(x.shape[0], x.shape[1..], x.dtype);
          assert x.shape == [x.shape[0]] + x.shape[1..];
          var output := Tensor([qinput.shape[0], w.shape[1]], x.dtype);
          Narrow(output, x.shape[0])
  }

  /** `torch.narrow(t, 0, 0, length)`. */
  function Narrow(t: Tensor, length: nat): (r: Result<Tensor, QuantError>)
    ensures r.Success? <==> |t.shape| > 0 && length <= t.shape[0]
    ensures r.Success? ==> r.value.shape == [length] + t.shape[1..] && r.value.dtype == t.dtype
  {
    if |t.shape| == 0 || length > t.shape[0] then Failure(RuntimeError)
    else Success(Tensor([length] + t.shape[1..], t.dtype))
  }

  /** Padding never loses rows, so narrowing back to the input's rows
      always succeeds and restores the shape. */
  lemma NarrowUndoesPadding(rows: nat, cols: seq<nat>, dtype: DType)
    ensures var padded := QuantOutputShape([rows] + cols, Some(BatchDimPadding));
            && padded.Success?
            && padded.value[0] == (if rows < BatchDimPadding then BatchDimPadding else rows)
            && Narrow(Tensor(padded.value, dtype), rows) == Success(Tensor([rows] + cols, dtype))
  {
    assert ([rows] + cols)[1..] == cols;
  }

  /** A layer created for a serialized static checkpoint and then
      processed with equal activation scales can be applied to any input
      whose width matches the layer's input width. */
  lemma ApplyAfterProcessing(layer: Layer, inputSize: nat, outputRows: nat, x: Tensor)
    requires layer.weight == Holds(Tensor([inputSize, outputRows], Float8E4M3))
    requires layer.weightScale.Holds?
    requires layer.actScale.NoneSet? || layer.actScale.Holds?
    requires |x.shape| == 2 && x.shape[1] == inputSize
    ensures Apply(layer, x).Success?
    ensures Apply(layer, x).value.shape == [x.shape[0], outputRows]
  {
    NarrowUndoesPadding(x.shape[0], [inputSize], Float8E4M3);
    assert x.shape == [x.shape[0]] + [inputSize];
  }
}
