/**
 * Shard assignment for fixed sharding: the default RandomShardingFunction
 * picks a random first shard and then goes round robin, and
 * ApplyShardingFunctionFn resolves the shard count and keys each element.
 * The destination hash (murmur3 over the encoded destination) is an input.
 */
module WriteFilesSharding {
  import opened WindowedValues
  import opened WriteFilesConfig

  /** The key elements are grouped by before they are written: a destination hash and a shard. */
  datatype ShardedKey = ShardedKey(key: int, shardNumber: int)

  /** One round-robin step after the first pick: `(previous + 1) % count` on non-negative Java ints. */
  function NextShard(previous: int, shardCount: int): (n: int)
    requires previous >= 0 && shardCount > 0
    ensures 0 <= n < shardCount
    ensures previous < shardCount ==> n == if previous + 1 == shardCount then 0 else previous + 1
  {
    (previous + 1) % shardCount
  }

  /** The shard of the (k+1)-th call with a fixed count, when the first call picked `first`. */
  function RoundRobin(first: int, shardCount: int, k: nat): (s: int)
    requires 0 <= first < shardCount
    ensures 0 <= s < shardCount
  {
    if k == 0 then first else NextShard(RoundRobin(first, shardCount, k - 1), shardCount)
  }

  /** Within one cycle the round robin counts up from the first pick and wraps once to zero. */
  lemma {:induction false} RoundRobinWithinCycle(first: int, shardCount: int, k: nat)
    requires 0 <= first < shardCount && k < shardCount
    ensures RoundRobin(first, shardCount, k) ==
      if first + k < shardCount then first + k else first + k - shardCount
  {
    if k > 0 {
      RoundRobinWithinCycle(first, shardCount, k - 1);
    }
  }

  /** Any `shardCount` consecutive calls with a fixed count hit every shard exactly once. */
  lemma RoundRobinBalanced(first: int, shardCount: int, i: nat, j: nat)
    requires 0 <= first < shardCount && i < j < shardCount
    ensures RoundRobin(first, shardCount, i) != RoundRobin(first, shardCount, j)
  {
    RoundRobinWithinCycle(first, shardCount, i);
    RoundRobinWithinCycle(first, shardCount, j);
  }

  /** The default sharding function; it remembers the last shard it assigned. */
  class RandomShardingFunction {
    var shardNumber: int

    ghost predicate Valid()
      reads this
    {
      shardNumber == UNKNOWN_SHARDNUM || shardNumber >= 0
    }

    constructor ()
      ensures Valid() && shardNumber == UNKNOWN_SHARDNUM
    {
      shardNumber := UNKNOWN_SHARDNUM;
    }

    /**
     * The first call picks any shard below the count (the source draws it at
     * random); every later call moves one shard on, wrapping at the count.
     */
    method AssignShardKey(destinationHash: int, shardCount: int) returns (key: ShardedKey)
      requires Valid() && shardCount > 0
      modifies this
      ensures Valid()
      ensures key == ShardedKey(destinationHash, shardNumber)
      ensures 0 <= key.shardNumber < shardCount
      ensures old(shardNumber) != UNKNOWN_SHARDNUM ==> shardNumber == NextShard(old(shardNumber), shardCount)
    {
      if shardNumber == UNKNOWN_SHARDNUM {
        var first :| 0 <= first < shardCount;
        shardNumber := first;
      } else {
        shardNumber := NextShard(shardNumber, shardCount);
      }
      key := ShardedKey(destinationHash, shardNumber);
    }
  }

  datatype ShardingError = MissingNumShardsProvider | NonPositiveShardCount(shardCount: int)

  /**
   * The shard count: the view's value when there is a view, else the
   * provider's; a missing provider and a count that is not positive are
   * rejected.
   */
  function ResolveShardCount(numShardsView: Option<int>, numShardsProvider: Option<int>): (r: Result<int, ShardingError>)
    ensures numShardsView.Some? ==>
      r == if numShardsView.value > 0 then Success(numShardsView.value) else Failure(NonPositiveShardCount(numShardsView.value))
    ensures numShardsView.None? && numShardsProvider.None? ==> r == Failure(MissingNumShardsProvider)
    ensures numShardsView.None? && numShardsProvider.Some? ==>
      r == if numShardsProvider.value > 0 then Success(numShardsProvider.value)
           else Failure(NonPositiveShardCount(numShardsProvider.value))
  {
    var count :=
      if numShardsView.Some? then Success(numShardsView.value)
      else if numShardsProvider.Some? then Success(numShardsProvider.value)
      else Failure(MissingNumShardsProvider);
    if count.Success? && count.value <= 0 then Failure(NonPositiveShardCount(count.value)) else count
  }

  /** Keys each element by its destination hash and a shard from the sharding function. */
  class ApplyShardingFunctionFn {
    const shardingFn: RandomShardingFunction
    const numShardsProvider: Option<int>

    constructor (shardingFn: RandomShardingFunction, numShardsProvider: Option<int>)
      ensures this.shardingFn == shardingFn && this.numShardsProvider == numShardsProvider
    {
      this.shardingFn := shardingFn;
      this.numShardsProvider := numShardsProvider;
    }

    /** `numShardsView` is the value of the shard-count view for the element's window, when there is a view. */
    method ProcessElement(element: WindowedValue, destinationHash: int, numShardsView: Option<int>)
      returns (r: Result<(ShardedKey, WindowedValue), ShardingError>)
      requires shardingFn.Valid()
      modifies shardingFn
      ensures shardingFn.Valid()
      ensures var count := ResolveShardCount(numShardsView, numShardsProvider);
        && (r.Success? <==> count.Success?)
        && (r.Failure? ==> r.error == count.error && shardingFn.shardNumber == old(shardingFn.shardNumber))
        && (r.Success? ==>
              && r.value.1 == element && r.value.0 == ShardedKey(destinationHash, shardingFn.shardNumber)
              && 0 <= r.value.0.shardNumber < count.value
              && (old(shardingFn.shardNumber) != UNKNOWN_SHARDNUM ==>
                    shardingFn.shardNumber == NextShard(old(shardingFn.shardNumber), count.value)))
    {
      var count := ResolveShardCount(numShardsView, numShardsProvider);
      if count.Failure? {
        return Failure(count.error);
      }
      var shardKey := shardingFn.AssignShardKey(destinationHash, count.value);
      r := Success((shardKey, element));
    }
  }
}
