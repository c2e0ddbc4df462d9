/**
 * The DoFns that write elements into temporary files. A writer is modelled
 * by the elements written to it; its temporary file is that sequence.
 * Destinations come from the dynamic-destinations function and their hashes
 * from hashing the encoded destination, both inputs here.
 */
module WriteFilesWriters {
  import opened WindowedValues
  import opened WriteFilesConfig
  import opened WriteFilesSharding
  import opened Multimaps

  datatype Destination = Destination(id: int)

  /** What a writer produced: its temporary file, the shard (or UNKNOWN_SHARDNUM), window, pane and destination. */
  datatype FileResult = FileResult(tempFile: seq<WindowedValue>, shard: int, window: Window, pane: Pane, destination: Destination)

  /** Unsharded writes keep separate files per window, pane and destination. */
  datatype WriterKey = WriterKey(window: Window, pane: Pane, destination: Destination)

  /** An element sent to the unwritten-records output, keyed by destination hash and spill shard. */
  datatype SpilledRecord = SpilledRecord(key: ShardedKey, element: WindowedValue)

  /** A new writer opens when the cap is negative or no more than the cap are open. */
  predicate MayOpenWriter(maxNumWritersPerBundle: int, openWriters: nat) {
    maxNumWritersPerBundle < 0 || openWriters <= maxNumWritersPerBundle
  }

  /** With `withNoSpilling` a writer can always be opened, so no element is ever spilled. */
  lemma NoSpillingNeverSpills(s: Settings, openWriters: nat)
    ensures MayOpenWriter(WithNoSpilling(s).maxNumWritersPerBundle, openWriters)
  {
  }

  /** The result finishBundle reports for one open writer. */
  function UnshardedResult(key: WriterKey, written: seq<WindowedValue>): FileResult {
    FileResult(written, UNKNOWN_SHARDNUM, key.window, key.pane, key.destination)
  }

  /** Writes each bundle's elements with one writer per window, pane and destination, spilling past the cap. */
  class WriteUnshardedTempFilesFn {
    const maxNumWritersPerBundle: int
    /** The writers of the bundle, in the order they were opened; its length is `writers.size()`. */
    var openOrder: seq<WriterKey>
    /** What each open writer has written. */
    var writers: map<WriterKey, seq<WindowedValue>>
    var spilledShardNum: int
    /** The unwritten-records output. */
    var unwritten: seq<SpilledRecord>

    ghost predicate Valid()
      reads this
    {
      && Distinct(openOrder)
      && (forall k :: k in writers <==> k in openOrder)
      && (maxNumWritersPerBundle >= 0 ==> |openOrder| <= maxNumWritersPerBundle + 1)
      && (spilledShardNum == UNKNOWN_SHARDNUM || 0 <= spilledShardNum < SPILLED_RECORD_SHARDING_FACTOR)
    }

    constructor (maxNumWritersPerBundle: int)
      ensures Valid() && this.maxNumWritersPerBundle == maxNumWritersPerBundle
      ensures openOrder == [] && writers == map[] && spilledShardNum == UNKNOWN_SHARDNUM && unwritten == []
    {
      this.maxNumWritersPerBundle := maxNumWritersPerBundle;
      openOrder := [];
      writers := map[];
      spilledShardNum := UNKNOWN_SHARDNUM;
      unwritten := [];
    }

    /** Each bundle gets its own writers. */
    method StartBundle()
      requires Valid()
      modifies this`openOrder, this`writers
      ensures Valid() && openOrder == [] && writers == map[]
    {
      openOrder := [];
      writers := map[];
    }

    /**
     * Writes the element with the writer of its window, pane and destination,
     * opening one while the cap allows; otherwise the element goes to the
     * unwritten output under the next spill shard.
     */
    method ProcessElement(e: WindowedValue, destination: Destination, destinationHash: int)
      requires Valid()
      modifies this`openOrder, this`writers, this`spilledShardNum, this`unwritten
      ensures Valid()
      ensures var key := WriterKey(e.window, e.pane, destination);
        key in old(writers) ==>
          && writers == old(writers)[key := old(writers)[key] + [e]] && openOrder == old(openOrder)
          && unwritten == old(unwritten) && spilledShardNum == old(spilledShardNum)
      ensures var key := WriterKey(e.window, e.pane, destination);
        key !in old(writers) && MayOpenWriter(maxNumWritersPerBundle, |old(openOrder)|) ==>
          && writers == old(writers)[key := [e]] && openOrder == old(openOrder) + [key]
          && unwritten == old(unwritten) && spilledShardNum == old(spilledShardNum)
      ensures var key := WriterKey(e.window, e.pane, destination);
        key !in old(writers) && !MayOpenWriter(maxNumWritersPerBundle, |old(openOrder)|) ==>
          && writers == old(writers) && openOrder == old(openOrder)
          && 0 <= spilledShardNum < SPILLED_RECORD_SHARDING_FACTOR
          && (old(spilledShardNum) != UNKNOWN_SHARDNUM ==>
                spilledShardNum == NextShard(old(spilledShardNum), SPILLED_RECORD_SHARDING_FACTOR))
          && unwritten == old(unwritten) + [SpilledRecord(ShardedKey(destinationHash, spilledShardNum), e)]
    {
      var key := WriterKey(e.window, e.pane, destination);
      if key in writers {
        writers := writers[key := writers[key] + [e]];
      } else if MayOpenWriter(maxNumWritersPerBundle, |openOrder|) {
        // a new writer, then the element written with it
        assert key !in openOrder;
        openOrder := openOrder + [key];
        writers := writers[key := [e]];
      } else {
        if spilledShardNum == UNKNOWN_SHARDNUM {
          var first :| 0 <= first < SPILLED_RECORD_SHARDING_FACTOR;
          spilledShardNum := first;
        } else {
          spilledShardNum := NextShard(spilledShardNum, SPILLED_RECORD_SHARDING_FACTOR);
        }
        unwritten := unwritten + [SpilledRecord(ShardedKey(destinationHash, spilledShardNum), e)];
      }
    }

    /** Closes every writer and reports one result per writer, with no shard assigned. */
    method FinishBundle() returns (results: seq<FileResult>)
      requires Valid()
      ensures |results| == |openOrder|
      ensures forall i :: 0 <= i < |results| ==> results[i] == UnshardedResult(openOrder[i], writers[openOrder[i]])
    {
      results := [];
      for i := 0 to |openOrder|
        invariant |results| == i
        invariant forall j :: 0 <= j < i ==> results[j] == UnshardedResult(openOrder[j], writers[openOrder[j]])
      {
        results := results + [UnshardedResult(openOrder[i], writers[openOrder[i]])];
      }
    }
  }

  /** The results of one bundle name distinct writers, and every writer of the bundle. */
  lemma UnshardedResultsPerWriter(openOrder: seq<WriterKey>, writers: map<WriterKey, seq<WindowedValue>>,
                                  results: seq<FileResult>)
    requires Distinct(openOrder) && forall k :: k in writers <==> k in openOrder
    requires |results| == |openOrder|
    requires forall i :: 0 <= i < |results| ==> results[i] == UnshardedResult(openOrder[i], writers[openOrder[i]])
    ensures forall i :: 0 <= i < |results| ==> results[i].shard == UNKNOWN_SHARDNUM
    ensures forall i, j :: 0 <= i < j < |results| ==>
      WriterKey(results[i].window, results[i].pane, results[i].destination)
      != WriterKey(results[j].window, results[j].pane, results[j].destination)
    ensures forall k :: k in writers ==>
      exists i :: 0 <= i < |results| && results[i] == UnshardedResult(k, writers[k])
  {
    forall k | k in writers
      ensures exists i :: 0 <= i < |results| && results[i] == UnshardedResult(k, writers[k])
    {
      var i :| 0 <= i < |openOrder| && openOrder[i] == k;
      assert results[i] == UnshardedResult(k, writers[k]);
    }
  }

  datatype WriteError = UnsetShard

  /** The result for one destination's writer in a group. */
  function ShardResult(kvs: seq<(Destination, WindowedValue)>, d: Destination, shard: int, window: Window, pane: Pane)
    : FileResult
  {
    FileResult(ValuesOf(kvs, d), shard, window, pane, d)
  }

  /** Writes each group of elements sharing a sharded key, one writer per destination in the group. */
  class WriteShardsIntoTempFilesFn {
    /** The results held back until the writers' close calls complete at finishBundle. */
    var deferredOutput: seq<FileResult>

    constructor ()
      ensures deferredOutput == []
    {
      deferredOutput := [];
    }

    method StartBundle()
      modifies this
      ensures deferredOutput == []
    {
      deferredOutput := [];
    }

    /**
     * `inputs` are the group's elements with their destinations, in order.
     * Every destination gets one writer holding exactly its elements; one
     * result per writer is deferred, carrying the group's shard, which must
     * be set.
     */
    method ProcessElement(shardedKey: ShardedKey, inputs: seq<(Destination, WindowedValue)>, window: Window, pane: Pane)
      returns (r: Result<seq<FileResult>, WriteError>)
      modifies this
      ensures r.Failure? <==> shardedKey.shardNumber == UNKNOWN_SHARDNUM && inputs != []
      ensures r.Failure? ==> deferredOutput == old(deferredOutput)
      ensures r.Success? ==>
        && deferredOutput == old(deferredOutput) + r.value
        && |r.value| == |KeysOf(inputs)|
        && forall i :: 0 <= i < |r.value| ==>
             r.value[i] == ShardResult(inputs, KeysOf(inputs)[i], shardedKey.shardNumber, window, pane)
    {
      // one writer per destination, each element written with its destination's writer
      var writers := PutAll(inputs);
      KeysOfEmpty(inputs);
      // the shard is checked as each writer is closed, so only a group with a writer fails
      if shardedKey.shardNumber == UNKNOWN_SHARDNUM && writers.keys != [] {
        return Failure(UnsetShard);
      }
      var closed := CloseWriters(writers, shardedKey.shardNumber, window, pane);
      deferredOutput := deferredOutput + closed;
      r := Success(closed);
    }

    /** Once every writer is closed, the deferred results are output in order. */
    method FinishBundle() returns (out: seq<FileResult>)
      ensures out == deferredOutput
    {
      out := deferredOutput;
    }
  }

  /** Closes the writers in key order, one result per writer carrying the group's shard, window and pane. */
  method CloseWriters(writers: ListMultimap<Destination, WindowedValue>, shard: int, window: Window, pane: Pane)
    returns (closed: seq<FileResult>)
    requires writers.Valid()
    ensures |closed| == |writers.keys|
    ensures forall j :: 0 <= j < |closed| ==>
      closed[j] == ShardResult(writers.puts, writers.keys[j], shard, window, pane)
  {
    closed := [];
    for i := 0 to |writers.keys|
      invariant |closed| == i
      invariant forall j :: 0 <= j < i ==> closed[j] == ShardResult(writers.puts, writers.keys[j], shard, window, pane)
    {
      var d := writers.keys[i];
      closed := closed + [FileResult(writers.Get(d), shard, window, pane, d)];
    }
  }

  /** A group's results name each destination of the group once and hold exactly its elements, in order. */
  lemma ShardResultsPerDestination(inputs: seq<(Destination, WindowedValue)>, results: seq<FileResult>,
                                   shard: int, window: Window, pane: Pane)
    requires |results| == |KeysOf(inputs)|
    requires forall i :: 0 <= i < |results| ==> results[i] == ShardResult(inputs, KeysOf(inputs)[i], shard, window, pane)
    ensures forall i, j :: 0 <= i < j < |results| ==> results[i].destination != results[j].destination
    ensures forall i :: 0 <= i < |results| ==> results[i].shard == shard
    ensures forall d, e :: (d, e) in inputs ==>
      exists i :: 0 <= i < |results| && results[i].destination == d && e in results[i].tempFile
    ensures forall i, e :: 0 <= i < |results| && e in results[i].tempFile ==> (results[i].destination, e) in inputs
  {
    KeysOfDistinct(inputs);
    forall d, e | (d, e) in inputs
      ensures exists i :: 0 <= i < |results| && results[i].destination == d && e in results[i].tempFile
    {
      var n :| 0 <= n < |inputs| && inputs[n] == (d, e);
      KeysOfMembership(inputs, d);
      var i :| 0 <= i < |KeysOf(inputs)| && KeysOf(inputs)[i] == d;
      ValuesOfMembership(inputs, d, e);
      assert results[i].destination == d && e in results[i].tempFile;
    }
    forall i, e | 0 <= i < |results| && e in results[i].tempFile
      ensures (results[i].destination, e) in inputs
    {
      ValuesOfMembership(inputs, KeysOf(inputs)[i], e);
    }
  }
}
