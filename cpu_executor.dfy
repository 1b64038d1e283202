/** The configuration checks of the CPU executor: each takes a config
    object, rewrites in place the fields the CPU backend cannot honour, and
    hands back the same object. The KV-cache size comes from the
    environment variable `APHRODITE_CPU_KVCACHE_SPACE` (in GiB), whose
    value, or its absence, is a parameter. */
module CpuExecutor {
  import opened Wrappers
  import opened Strings

  datatype DType = Float16 | BFloat16 | Float32

  datatype ConfigError = ValueError | RuntimeError

  /** `1 << 30`. */
  const GiB: nat := 0x4000_0000

  /** The KV-cache size used when the variable is unset or 0, in GiB. */
  const DefaultKvCacheGiB: nat := 4

  class ModelConfig {
    var dtype: DType
    var enforceEager: bool

    constructor (dtype: DType, enforceEager: bool)
      ensures this.dtype == dtype && this.enforceEager == enforceEager
    {
      this.dtype := dtype;
      this.enforceEager := enforceEager;
    }

    /** What the CPU backend accepts: no float16, eager mode. */
    predicate CpuReady()
      reads this
    {
      dtype != Float16 && enforceEager
    }
  }

  class SchedulerConfig {
    var chunkedPrefillEnabled: bool
    const maxNumBatchedTokens: int
    const maxNumSeqs: int

    constructor (chunkedPrefillEnabled: bool, maxNumBatchedTokens: int, maxNumSeqs: int)
      ensures this.chunkedPrefillEnabled == chunkedPrefillEnabled
      ensures this.maxNumBatchedTokens == maxNumBatchedTokens && this.maxNumSeqs == maxNumSeqs
    {
      this.chunkedPrefillEnabled := chunkedPrefillEnabled;
      this.maxNumBatchedTokens := maxNumBatchedTokens;
      this.maxNumSeqs := maxNumSeqs;
    }
  }

  class CacheConfig {
    var enablePrefixCaching: bool
    var cpuKvcacheSpaceBytes: Option<int>
    const blockSize: nat

    constructor (enablePrefixCaching: bool, blockSize: nat)
      ensures this.enablePrefixCaching == enablePrefixCaching && this.blockSize == blockSize
      ensures cpuKvcacheSpaceBytes == None
    {
      this.enablePrefixCaching := enablePrefixCaching;
      this.blockSize := blockSize;
      this.cpuKvcacheSpaceBytes := None;
    }
  }

  /** The dtype the CPU backend runs: float16 becomes bfloat16. */
  function CpuDType(d: DType): (r: DType)
    ensures r != Float16
    ensures d != Float16 ==> r == d
  {
    if d == Float16 then BFloat16 else d
  }

  lemma CpuDTypeIdempotent(d: DType)
    ensures CpuDType(CpuDType(d)) == CpuDType(d)
  {
  }

  /** `_verify_and_get_model_config`. Applied to a config it already
      accepts, it changes nothing, so applying it twice is applying it once. */
  method VerifyAndGetModelConfig(config: ModelConfig) returns (r: ModelConfig)
    modifies config`dtype, config`enforceEager
    ensures r == config
    ensures config.dtype == CpuDType(old(config.dtype)) && config.enforceEager
    ensures config.CpuReady()
    ensures old(config.CpuReady()) ==> unchanged(config)
  {
    if config.dtype == Float16 {
      config.dtype := BFloat16;
    }
    if !config.enforceEager {
      config.enforceEager := true;
    }
    return config;
  }

  /** `_verify_and_get_scheduler_config`: chunked prefill off, every other
      field as it was. */
  method VerifyAndGetSchedulerConfig(config: SchedulerConfig) returns (r: SchedulerConfig)
    modifies config`chunkedPrefillEnabled
    ensures r == config
    ensures !config.chunkedPrefillEnabled
    ensures !old(config.chunkedPrefillEnabled) ==> unchanged(config)
  {
    if config.chunkedPrefillEnabled {
      config.chunkedPrefillEnabled := false;
    }
    return config;
  }

  /** The cache size in bytes for a non-negative GiB count: 0 means the
      default of 4 GiB. */
  function KvCacheBytes(spaceGiB: nat): (b: nat)
    ensures spaceGiB == 0 ==> b == 4 * 0x4000_0000
    ensures spaceGiB > 0 ==> b == spaceGiB * 0x4000_0000
  {
    (if spaceGiB == 0 then DefaultKvCacheGiB else spaceGiB) * GiB
  }

  /** The size is always a positive whole number of GiB. */
  lemma KvCacheBytesWholeGiB(spaceGiB: nat)
    ensures KvCacheBytes(spaceGiB) > 0 && KvCacheBytes(spaceGiB) % GiB == 0
    ensures KvCacheBytes(spaceGiB) / GiB == if spaceGiB == 0 then DefaultKvCacheGiB else spaceGiB
  {
  }

  /** `_verify_and_get_cache_config`. Prefix caching is off afterwards
      whatever happens next, because it is switched off before the
      variable is read. The new size depends on the variable only, so a
      second call with the same environment leaves the same state. */
  method VerifyAndGetCacheConfig(config: CacheConfig, env: Option<string>) returns (r: Result<CacheConfig, ConfigError>)
    modifies config`enablePrefixCaching, config`cpuKvcacheSpaceBytes
    ensures !config.enablePrefixCaching
    ensures var space := ParseInt(env.GetOr("0"));
            && (space.None? ==> r == Failure(ValueError) && config.cpuKvcacheSpaceBytes == old(config.cpuKvcacheSpaceBytes))
            && (space.Some? && space.value < 0 ==>
                  r == Failure(RuntimeError) && config.cpuKvcacheSpaceBytes == old(config.cpuKvcacheSpaceBytes))
            && (space.Some? && space.value >= 0 ==>
                  r == Success(config) && config.cpuKvcacheSpaceBytes == Some(KvCacheBytes(space.value)))
  {
    if config.enablePrefixCaching {
      config.enablePrefixCaching := false;
    }
    var kvCacheSpaceStr := env.GetOr("0");
    var kvCacheSpace := ParseInt(kvCacheSpaceStr);
    if kvCacheSpace.None? {
      return Failure(ValueError);
    }
    var space := kvCacheSpace.value;
    if space >= 0 {
      if space == 0 {
        config.cpuKvcacheSpaceBytes := Some(DefaultKvCacheGiB * GiB);
      } else {
        config.cpuKvcacheSpaceBytes := Some(space * GiB);
      }
    } else {
      return Failure(RuntimeError);
    }
    return Success(config);
  }

  /** With the variable unset the cache is 4 GiB. */
  lemma UnsetVariableGivesDefault()
    ensures ParseInt("0") == Some(0) && KvCacheBytes(0) == 4 * GiB
  {
    ParseIntRoundTrip(0);
  }
}
