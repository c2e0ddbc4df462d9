/**
 * Finalization of the temporary files: the results of a write are grouped
 * by destination and window and each group is handed to the write
 * operation's finalizeDestination, which is modelled by the request it
 * receives. Renaming the files and reporting their names are left to that
 * operation.
 */
module WriteFilesFinalize {
  import opened WindowedValues
  import opened WriteFilesConfig
  import opened WriteFilesWriters
  import opened Multimaps

  /** One call of finalizeDestination: a destination, a window, the fixed shard count if any, and its results. */
  datatype FinalizeRequest = FinalizeRequest(destination: Destination, window: Window, numShards: Option<int>,
                                             results: seq<FileResult>)

  /** The shard count finalization uses: the view's value when there is a view, else the provider's, else none. */
  function FixedNumShards(numShardsView: Option<int>, numShardsProvider: Option<int>): (n: Option<int>)
    ensures n.Some? <==> numShardsView.Some? || numShardsProvider.Some?
    ensures numShardsView.Some? ==> n == numShardsView
  {
    if numShardsView.Some? then numShardsView else numShardsProvider
  }

  /** The results keyed by their destination and window. */
  function ByDestinationWindow(results: seq<FileResult>): (kvs: seq<((Destination, Window), FileResult)>)
    ensures |kvs| == |results|
    ensures forall i :: 0 <= i < |kvs| ==> kvs[i] == ((results[i].destination, results[i].window), results[i])
    decreases |results|
  {
    if results == [] then []
    else [((results[0].destination, results[0].window), results[0])] + ByDestinationWindow(results[1..])
  }

  /** `requests` are what finalizeAllDestinations makes of `fileResults` with shard count `n`. */
  ghost predicate FinalizedAs(fileResults: seq<FileResult>, n: Option<int>, requests: seq<FinalizeRequest>) {
    var kvs := ByDestinationWindow(fileResults);
    && |requests| == |KeysOf(kvs)|
    && forall i :: 0 <= i < |requests| ==>
         requests[i] == FinalizeRequest(KeysOf(kvs)[i].0, KeysOf(kvs)[i].1, n, ValuesOf(kvs, KeysOf(kvs)[i]))
  }

  /** finalizeAllDestinations: one request per distinct destination and window, holding that group's results in order. */
  method FinalizeAllDestinations(fileResults: seq<FileResult>, fixedNumShards: Option<int>)
    returns (requests: seq<FinalizeRequest>)
    ensures FinalizedAs(fileResults, fixedNumShards, requests)
  {
    var res := PutAll(ByDestinationWindow(fileResults));
    requests := [];
    for i := 0 to |res.keys|
      invariant |requests| == i
      invariant forall j :: 0 <= j < i ==>
        requests[j] == FinalizeRequest(res.keys[j].0, res.keys[j].1, fixedNumShards, res.Get(res.keys[j]))
    {
      var destWindow := res.keys[i];
      requests := requests + [FinalizeRequest(destWindow.0, destWindow.1, fixedNumShards, res.Get(destWindow))];
    }
  }

  /**
   * FinalizeFn.process: an empty input still finalizes the default
   * destination in the global window, so that the shard count is honoured
   * with empty files; any other input is finalized per destination and window.
   */
  method Finalize(fileResults: seq<FileResult>, defaultDestination: Destination,
                  numShardsView: Option<int>, numShardsProvider: Option<int>)
    returns (requests: seq<FinalizeRequest>)
    ensures var n := FixedNumShards(numShardsView, numShardsProvider);
      fileResults == [] ==> requests == [FinalizeRequest(defaultDestination, GlobalWindow, n, [])]
    ensures fileResults != [] ==> FinalizedAs(fileResults, FixedNumShards(numShardsView, numShardsProvider), requests)
  {
    var n := FixedNumShards(numShardsView, numShardsProvider);
    if fileResults == [] {
      requests := [FinalizeRequest(defaultDestination, GlobalWindow, n, [])];
    } else {
      requests := FinalizeAllDestinations(fileResults, n);
    }
  }

  /** How many results the requests hold together. */
  function TotalResults(requests: seq<FinalizeRequest>): nat
    decreases |requests|
  {
    if requests == [] then 0 else |requests[0].results| + TotalResults(requests[1..])
  }

  lemma {:induction false} TotalResultsIsGroupSizes(kvs: seq<((Destination, Window), FileResult)>,
                                                   ks: seq<(Destination, Window)>, requests: seq<FinalizeRequest>,
                                                   n: Option<int>)
    requires |requests| == |ks|
    requires forall i :: 0 <= i < |requests| ==> requests[i] == FinalizeRequest(ks[i].0, ks[i].1, n, ValuesOf(kvs, ks[i]))
    ensures TotalResults(requests) == GroupSizes(kvs, ks)
    decreases |ks|
  {
    if ks != [] {
      TotalResultsIsGroupSizes(kvs, ks[1..], requests[1..], n);
    }
  }

  /** No destination and window is finalized twice. */
  lemma FinalizeOncePerDestinationWindow(fileResults: seq<FileResult>, n: Option<int>, requests: seq<FinalizeRequest>)
    requires FinalizedAs(fileResults, n, requests)
    ensures forall i, j :: 0 <= i < j < |requests| ==>
      (requests[i].destination, requests[i].window) != (requests[j].destination, requests[j].window)
  {
    var ks := KeysOf(ByDestinationWindow(fileResults));
    KeysOfDistinct(ByDestinationWindow(fileResults));
    forall i, j | 0 <= i < j < |requests|
      ensures (requests[i].destination, requests[i].window) != (requests[j].destination, requests[j].window)
    {
      assert (requests[i].destination, requests[i].window) == ks[i];
      assert (requests[j].destination, requests[j].window) == ks[j];
    }
  }

  /** A request holds only written results of its own destination and window. */
  lemma FinalizeRequestsHoldOwnResults(fileResults: seq<FileResult>, n: Option<int>, requests: seq<FinalizeRequest>)
    requires FinalizedAs(fileResults, n, requests)
    ensures forall i, r :: 0 <= i < |requests| && r in requests[i].results ==>
      r in fileResults && r.destination == requests[i].destination && r.window == requests[i].window
  {
    var kvs := ByDestinationWindow(fileResults);
    var ks := KeysOf(kvs);
    forall i, r | 0 <= i < |requests| && r in requests[i].results
      ensures r in fileResults && r.destination == requests[i].destination && r.window == requests[i].window
    {
      ValuesOfMembership(kvs, ks[i], r);
      var m :| 0 <= m < |kvs| && kvs[m] == (ks[i], r);
      assert r == fileResults[m];
    }
  }

  /** Every written result is in the request of its destination and window. */
  lemma FinalizeCoversEveryResult(fileResults: seq<FileResult>, n: Option<int>, requests: seq<FinalizeRequest>)
    requires FinalizedAs(fileResults, n, requests)
    ensures forall r :: r in fileResults ==>
      exists i :: 0 <= i < |requests| && requests[i].destination == r.destination && requests[i].window == r.window
                  && r in requests[i].results
  {
    var kvs := ByDestinationWindow(fileResults);
    var ks := KeysOf(kvs);
    forall r | r in fileResults
      ensures exists i :: 0 <= i < |requests| && requests[i].destination == r.destination && requests[i].window == r.window
                          && r in requests[i].results
    {
      var m :| 0 <= m < |fileResults| && fileResults[m] == r;
      var key := (r.destination, r.window);
      assert kvs[m] == (key, r);
      KeysOfMembership(kvs, key);
      var i :| 0 <= i < |ks| && ks[i] == key;
      ValuesOfMembership(kvs, key, r);
      assert requests[i].destination == r.destination && requests[i].window == r.window && r in requests[i].results;
    }
  }

  /** Together the requests hold exactly as many results as were written, so none is finalized twice. */
  lemma FinalizeKeepsResultCount(fileResults: seq<FileResult>, n: Option<int>, requests: seq<FinalizeRequest>)
    requires FinalizedAs(fileResults, n, requests)
    ensures TotalResults(requests) == |fileResults|
  {
    var kvs := ByDestinationWindow(fileResults);
    TotalResultsIsGroupSizes(kvs, KeysOf(kvs), requests, n);
    GroupSizesAddUp(kvs);
  }

  /** Collects the elements of each bundle per window and outputs one list per window when the bundle finishes. */
  class GatherBundlesPerWindowFn<T> {
    var bundles: ListMultimap<Window, T>

    ghost predicate Valid()
      reads this, bundles
    {
      bundles.Valid()
    }

    constructor ()
      ensures Valid() && bundles.puts == []
    {
      bundles := new ListMultimap<Window, T>();
    }

    method StartBundle()
      modifies this
      ensures Valid() && fresh(bundles) && bundles.puts == []
    {
      bundles := new ListMultimap<Window, T>();
    }

    method Process(element: T, w: Window)
      requires Valid()
      modifies bundles
      ensures Valid() && bundles.puts == old(bundles.puts) + [(w, element)]
    {
      bundles.Put(w, element);
    }

    /** One output per window of the bundle, holding that window's elements in arrival order. */
    method FinishBundle() returns (out: seq<(Window, seq<T>)>)
      requires Valid()
      ensures |out| == |KeysOf(bundles.puts)|
      ensures forall i :: 0 <= i < |out| ==>
        out[i] == (KeysOf(bundles.puts)[i], ValuesOf(bundles.puts, KeysOf(bundles.puts)[i]))
    {
      out := [];
      for i := 0 to |bundles.keys|
        invariant |out| == i
        invariant forall j :: 0 <= j < i ==> out[j] == (bundles.keys[j], bundles.Get(bundles.keys[j]))
      {
        var w := bundles.keys[i];
        out := out + [(w, bundles.Get(w))];
      }
    }
  }

  /** Every element the bundle received is output once, in the list of its own window. */
  lemma GatherOutputsEachElement<T>(puts: seq<(Window, T)>, out: seq<(Window, seq<T>)>)
    requires |out| == |KeysOf(puts)|
    requires forall i :: 0 <= i < |out| ==> out[i] == (KeysOf(puts)[i], ValuesOf(puts, KeysOf(puts)[i]))
    ensures forall i, j :: 0 <= i < j < |out| ==> out[i].0 != out[j].0
    ensures forall w, e :: (w, e) in puts ==> exists i :: 0 <= i < |out| && out[i].0 == w && e in out[i].1
    ensures forall i, e :: 0 <= i < |out| && e in out[i].1 ==> (out[i].0, e) in puts
  {
    KeysOfDistinct(puts);
    forall w, e | (w, e) in puts
      ensures exists i :: 0 <= i < |out| && out[i].0 == w && e in out[i].1
    {
      var m :| 0 <= m < |puts| && puts[m] == (w, e);
      KeysOfMembership(puts, w);
      var i :| 0 <= i < |KeysOf(puts)| && KeysOf(puts)[i] == w;
      ValuesOfMembership(puts, w, e);
      assert out[i].0 == w && e in out[i].1;
    }
    forall i, e | 0 <= i < |out| && e in out[i].1
      ensures (out[i].0, e) in puts
    {
      ValuesOfMembership(puts, KeysOf(puts)[i], e);
    }
  }
}
