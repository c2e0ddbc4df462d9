/**
 * The WriteFiles transform's settings, its builder methods, and the
 * validation and choice of write path made when the transform is expanded.
 * The sink, the compute-shards transform and the side inputs are only
 * present or absent here; the number-of-shards provider carries its value.
 */
module WriteFilesConfig {

  datatype Option<T> = None | Some(value: T)

  datatype Result<T, E> = Success(value: T) | Failure(error: E)

  const DEFAULT_MAX_NUM_WRITERS_PER_BUNDLE: int := 20
  const SPILLED_RECORD_SHARDING_FACTOR: int := 10
  const UNKNOWN_SHARDNUM: int := -1
  const DUMMY_SHARDNUM: int := 0

  datatype Settings = Settings(
    hasComputeNumShards: bool,
    numShardsProvider: Option<int>,
    windowedWrites: bool,
    maxNumWritersPerBundle: int,
    promoteWindowsToKeys: bool)

  /** Sharding is fixed when a compute-shards transform or a shard-count provider is set. */
  predicate FixedSharding(s: Settings) {
    s.hasComputeNumShards || s.numShardsProvider.Some?
  }

  /** `to(sink)`: runner-determined sharding, unwindowed, up to 20 writers per bundle. */
  function To(): (s: Settings)
    ensures !FixedSharding(s) && !s.windowedWrites && !s.promoteWindowsToKeys
    ensures s.maxNumWritersPerBundle == DEFAULT_MAX_NUM_WRITERS_PER_BUNDLE
  {
    Settings(false, None, false, DEFAULT_MAX_NUM_WRITERS_PER_BUNDLE, false)
  }

  /** `withRunnerDeterminedSharding`: drops both the compute-shards transform and the provider. */
  function WithRunnerDeterminedSharding(s: Settings): (r: Settings)
    ensures !FixedSharding(r)
    ensures r.windowedWrites == s.windowedWrites && r.maxNumWritersPerBundle == s.maxNumWritersPerBundle
    ensures r.promoteWindowsToKeys == s.promoteWindowsToKeys
  {
    s.(hasComputeNumShards := false, numShardsProvider := None)
  }

  /** `withNumShards(int)`: a positive count becomes a static provider, any other count means runner-determined sharding. */
  function WithNumShards(s: Settings, numShards: int): (r: Settings)
    ensures numShards > 0 ==> FixedSharding(r) && r.numShardsProvider == Some(numShards)
    ensures numShards > 0 ==> r.hasComputeNumShards == s.hasComputeNumShards
    ensures numShards <= 0 ==> !FixedSharding(r)
    ensures r.windowedWrites == s.windowedWrites && r.maxNumWritersPerBundle == s.maxNumWritersPerBundle
    ensures r.promoteWindowsToKeys == s.promoteWindowsToKeys
  {
    if numShards > 0 then s.(numShardsProvider := Some(numShards)) else WithRunnerDeterminedSharding(s)
  }

  /** `withNoSpilling`: no cap on the writers of a bundle. */
  function WithNoSpilling(s: Settings): (r: Settings)
    ensures r.maxNumWritersPerBundle < 0
    ensures r.(maxNumWritersPerBundle := s.maxNumWritersPerBundle) == s
  {
    s.(maxNumWritersPerBundle := -1)
  }

  /** `withNumShards(n)` with n <= 0 and `withRunnerDeterminedSharding` give the same transform. */
  lemma NonPositiveNumShardsIsRunnerDetermined(s: Settings, numShards: int)
    requires numShards <= 0
    ensures WithNumShards(s, numShards) == WithRunnerDeterminedSharding(s)
  {
  }

  /** Whether the input is bounded and what its windowing strategy is. */
  datatype Input = Input(bounded: bool, needsMerge: bool, fixedWindows: bool)

  datatype ExpandError =
    | UnboundedWithoutWindowedWrites
    | MergingWindowsWithoutFixedSharding
    | PromoteWindowsWithoutFixedWindows

  /** The write path `expand` builds. */
  datatype WritePath =
    | ShardedPath(hasNumShardsView: bool, windowingForSharding: bool)
    | UnshardedPath(spills: bool)
    | AutoShardedPath

  /**
   * Without windowed writes `expand` re-windows the input into the global
   * window before it looks at the window function; the boundedness stays.
   */
  function Rewindowed(s: Settings, input: Input): (r: Input)
    ensures r.bounded == input.bounded
    ensures r.fixedWindows <==> s.windowedWrites && input.fixedWindows
    ensures r.needsMerge <==> s.windowedWrites && input.needsMerge
  {
    if s.windowedWrites then input else Input(input.bounded, false, false)
  }

  /**
   * `expand`: an unbounded input needs windowed writes and, with merging
   * windows, fixed sharding; fixed sharding takes the sharded path (promoting
   * windows to keys needs fixed windows after the re-windowing above),
   * otherwise a bounded input is written unsharded (spilling unless the
   * writer cap is negative) and an unbounded one auto-sharded.
   */
  function Expand(s: Settings, input: Input): (r: Result<WritePath, ExpandError>)
    ensures !input.bounded && !s.windowedWrites ==> r == Failure(UnboundedWithoutWindowedWrites)
    ensures !input.bounded && s.windowedWrites && input.needsMerge && !FixedSharding(s) ==>
      r == Failure(MergingWindowsWithoutFixedSharding)
    ensures r.Success? <==>
      && (input.bounded || (s.windowedWrites && (input.needsMerge ==> FixedSharding(s))))
      && (FixedSharding(s) && s.promoteWindowsToKeys ==> s.windowedWrites && input.fixedWindows)
    ensures r.Success? ==>
      && (r.value.ShardedPath? <==> FixedSharding(s))
      && (r.value.UnshardedPath? <==> !FixedSharding(s) && input.bounded)
      && (r.value.AutoShardedPath? <==> !FixedSharding(s) && !input.bounded)
    ensures r.Success? && r.value.ShardedPath? ==>
      r.value.hasNumShardsView == s.hasComputeNumShards && r.value.windowingForSharding == s.promoteWindowsToKeys
    ensures r.Success? && r.value.UnshardedPath? ==> (r.value.spills <==> s.maxNumWritersPerBundle >= 0)
  {
    if !input.bounded && !s.windowedWrites then Failure(UnboundedWithoutWindowedWrites)
    else if !input.bounded && input.needsMerge && !FixedSharding(s) then Failure(MergingWindowsWithoutFixedSharding)
    else if FixedSharding(s) then
      if s.promoteWindowsToKeys && !Rewindowed(s, input).fixedWindows then Failure(PromoteWindowsWithoutFixedWindows)
      else Success(ShardedPath(s.hasComputeNumShards, s.promoteWindowsToKeys))
    else if input.bounded then Success(UnshardedPath(s.maxNumWritersPerBundle >= 0))
    else Success(AutoShardedPath)
  }

  /**
   * Promoting windows to keys without windowed writes always fails: the
   * input has been re-windowed into the global window by then.
   */
  lemma PromoteWithoutWindowedWritesFails(s: Settings, input: Input)
    requires FixedSharding(s) && s.promoteWindowsToKeys && !s.windowedWrites && input.bounded
    ensures Expand(s, input) == Failure(PromoteWindowsWithoutFixedWindows)
  {
  }
}
