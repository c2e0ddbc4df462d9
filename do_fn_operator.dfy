/**
 * The Flink streaming operator that runs a Beam DoFn: bundle start and
 * finish, watermark propagation, the side-input push-back list, checkpoint
 * snapshots with their bundle finalizations, and timer firing.
 *
 * Calls into collaborators (the DoFn runner, the pre-bundle and
 * bundle-finished callbacks, the keyed state, the
 * stable-input buffer, the finalization callbacks) are recorded in the
 * `effects` log in the order the operator makes them. The clock and the
 * watermark holds of collaborators are read from an `Env` per step.
 */
module Operator {
  import opened Timestamps
  import opened WindowedValues
  import opened BufferedOutput
  import opened Watermarks
  import TI = TimerInternals
  import F = Finalizations

  datatype CheckpointingMode = ExactlyOnce | AtLeastOnce

  /** The FlinkPipelineOptions the operator reads. */
  datatype FlinkOptions = FlinkOptions(
    maxBundleSize: Long,
    maxBundleTimeMills: Long,
    checkpointingMode: CheckpointingMode,
    checkpointingInterval: Long,
    isStreaming: bool,
    finishBundleBeforeCheckpointing: bool,
    enableStableInputDrain: bool)

  /**
   * What the operator is built with: its options, whether the DoFn requires
   * stable input, whether it is keyed and has side inputs, the global
   * window's maximum timestamp, and which optional callbacks are set.
   */
  datatype Config = Config(
    options: FlinkOptions,
    requiresStableInput: bool,
    hasKeyCoder: bool,
    hasSideInputs: bool,
    globalWindowMaxTimestamp: Long,
    hasPreBundleCallback: bool,
    hasBundleFinishedCallback: bool)

  datatype ConfigError = BundleSizeTooSmall | BundleTimeTooSmall | NotExactlyOnce | NoCheckpointing

  datatype Result<T, E> = Success(value: T) | Failure(error: E)

  ghost predicate ValidConfig(c: Config) {
    && c.options.maxBundleSize > 0
    && c.options.maxBundleTimeMills > 0
    && (c.requiresStableInput ==>
          c.options.checkpointingMode == ExactlyOnce && c.options.checkpointingInterval > 0)
  }

  /** The constructor's precondition checks, in the order the source makes them. */
  function Configure(options: FlinkOptions, requiresStableInput: bool, hasKeyCoder: bool, hasSideInputs: bool,
                     globalWindowMaxTimestamp: Long, hasPreBundleCallback: bool, hasBundleFinishedCallback: bool)
    : (r: Result<Config, ConfigError>)
    ensures r.Success? <==>
      && options.maxBundleSize > 0 && options.maxBundleTimeMills > 0
      && (requiresStableInput ==> options.checkpointingMode == ExactlyOnce && options.checkpointingInterval > 0)
    ensures r.Success? ==>
      && ValidConfig(r.value) && r.value.options == options
      && r.value.requiresStableInput == requiresStableInput && r.value.hasKeyCoder == hasKeyCoder
      && r.value.hasSideInputs == hasSideInputs
    ensures options.maxBundleSize <= 0 ==> r == Failure(BundleSizeTooSmall)
    ensures options.maxBundleSize > 0 && options.maxBundleTimeMills <= 0 ==> r == Failure(BundleTimeTooSmall)
    ensures r == Failure(NotExactlyOnce) || r == Failure(NoCheckpointing) ==>
      options.maxBundleSize > 0 && options.maxBundleTimeMills > 0 && requiresStableInput
    ensures r == Failure(NoCheckpointing) ==> options.checkpointingMode == ExactlyOnce
  {
    if options.maxBundleSize <= 0 then Failure(BundleSizeTooSmall)
    else if options.maxBundleTimeMills <= 0 then Failure(BundleTimeTooSmall)
    else if requiresStableInput && options.checkpointingMode != ExactlyOnce then Failure(NotExactlyOnce)
    else if requiresStableInput && options.checkpointingInterval <= 0 then Failure(NoCheckpointing)
    else Success(Config(options, requiresStableInput, hasKeyCoder, hasSideInputs,
                        globalWindowMaxTimestamp, hasPreBundleCallback, hasBundleFinishedCallback))
  }

  /** A call the operator makes into a collaborator. */
  datatype Effect =
    | PreBundleCallback
    | StartBundle
    | ElementProcessed(element: WindowedValue)
    | FinishBundle
    | BundleFinishedCallback
    | OnTimer(timer: TI.TimerData)
    | ClearGlobalState
    | ScheduleWatermarkUpdate
    | StableInputCheckpoint(checkpointId: Long)
    | StableInputCheckpointCompleted(checkpointId: Long)
    | BundleSuccess(finalization: F.Finalization)
    | AddSideInputValue(value: WindowedValue)

  /**
   * What a step reads from outside: the processing time, the stable-input
   * buffer's watermark hold, the keyed state's smallest watermark hold, and
   * the tagged outputs the DoFn's finishBundle emits.
   */
  datatype Env = Env(now: Long, bufferingHold: Long, minWatermarkHold: Long,
                     finishOutputs: seq<(Tag, WindowedValue)>)

  /** The outcome of draining the operator at shutdown. */
  datatype DrainResult = Drained | WatermarkHoldsLeft(outputWatermark: Long) | LeftoverPushedBack(count: nat)

  /**
   * How many times invokeFinishBundle may re-enter processInputWatermark.
   * The re-entry only happens when the clock went back by more than the
   * bundle time, and then the source recurses without bound.
   */
  const REEVALUATION_DEPTH: nat := 2

  function StartEffects(cfg: Config): seq<Effect> {
    (if cfg.hasPreBundleCallback then [PreBundleCallback] else []) + [StartBundle]
  }

  function FinishEffects(cfg: Config): seq<Effect> {
    [FinishBundle] + (if cfg.hasBundleFinishedCallback then [BundleFinishedCallback] else [])
  }

  /** The success callbacks of the given finalizations, run in order. */
  function Successes(fs: seq<F.Finalization>): (es: seq<Effect>)
    ensures |es| == |fs|
    ensures forall i :: 0 <= i < |fs| ==> es[i] == BundleSuccess(fs[i])
  {
    if fs == [] then [] else [BundleSuccess(fs[0])] + Successes(fs[1..])
  }

  /** The DoFn runner processing the given elements, in order. */
  function Processed(vs: seq<WindowedValue>): (es: seq<Effect>)
    ensures |es| == |vs|
    ensures forall i :: 0 <= i < |vs| ==> es[i] == ElementProcessed(vs[i])
  {
    if vs == [] then [] else [ElementProcessed(vs[0])] + Processed(vs[1..])
  }

  /** The DoFn's timer callbacks for the given registrations, in order. */
  function OnTimers(rs: seq<TI.Registration>): (es: seq<Effect>)
    ensures |es| == |rs|
    ensures forall i :: 0 <= i < |rs| ==> es[i] == OnTimer(rs[i].timer)
  {
    if rs == [] then [] else [OnTimer(rs[0].timer)] + OnTimers(rs[1..])
  }

  /** Side inputs are ready for an element when there are none or its window's views are available. */
  predicate IsReady(hasSideInputs: bool, ready: set<Window>, e: WindowedValue): (r: bool)
    ensures !hasSideInputs ==> r
    ensures hasSideInputs ==> (r <==> e.window in ready)
  {
    !hasSideInputs || e.window in ready
  }

  /** The elements the push-back runner hands back because their side inputs are not ready. */
  function NotReady(hasSideInputs: bool, ready: set<Window>, es: seq<WindowedValue>): (r: seq<WindowedValue>)
    ensures |r| <= |es|
  {
    if es == [] then []
    else
      (if IsReady(hasSideInputs, ready, es[0]) then [] else [es[0]]) + NotReady(hasSideInputs, ready, es[1..])
  }

  /** The elements the push-back runner processes because their side inputs are ready. */
  function ReadyOnes(hasSideInputs: bool, ready: set<Window>, es: seq<WindowedValue>): (r: seq<WindowedValue>)
    ensures |r| <= |es|
  {
    if es == [] then []
    else
      (if IsReady(hasSideInputs, ready, es[0]) then [es[0]] else []) + ReadyOnes(hasSideInputs, ready, es[1..])
  }

  /** maybeEmitWatermark emits `w` exactly when it exceeds the current output watermark and no bundle keeps it back. */
  predicate EmitsWatermark(w: Long, current: Long, bundleStarted: bool): (r: bool)
    ensures r ==> w > current
    ensures w > current && w >= TIMESTAMP_MAX_VALUE ==> r
    ensures bundleStarted && w < TIMESTAMP_MAX_VALUE ==> !r
    ensures !bundleStarted ==> (r <==> w > current)
  {
    w > current && (w >= TIMESTAMP_MAX_VALUE || !bundleStarted)
  }

  /** The fold at initializeState: the smallest timestamp among restored pushed-back elements. */
  method MinPushedBackTimestamp(es: seq<WindowedValue>) returns (min: Long)
    ensures min == MinTimestamp(es)
  {
    min := LONG_MAX;
    var i := 0;
    while i < |es|
      invariant 0 <= i <= |es|
      invariant min == MinTimestampFrom(LONG_MAX, es[..i])
    {
      MinTimestampFromSnoc(LONG_MAX, es[..i], es[i]);
      assert es[..i + 1] == es[..i] + [es[i]];
      min := Min(min, es[i].timestamp);
      i := i + 1;
    }
    assert es[..i] == es;
  }

  class DoFnOperator {
    const cfg: Config
    const outputManager: BufferedOutputManager
    /** Present exactly for a keyed operator. */
    const timerInternals: TI.FlinkTimerInternals?

    var bundleStarted: bool
    var elementCount: int
    var lastFinishBundleTime: Long
    var currentInputWatermark: Long
    var currentSideInputWatermark: Long
    var currentOutputWatermark: Long
    var pushedBackWatermark: Long
    /** The pushed-back elements, in the order they were pushed back. */
    var pushedBack: seq<WindowedValue>
    /** Finalizations registered with the bundle finalizer since the last snapshot. */
    var bundleFinalizations: seq<F.Finalization>
    var pendingFinalizations: F.Ring
    var effects: seq<Effect>

    /** The configuration and the collaborators the operator was built with. */
    ghost predicate Wiring()
      reads outputManager
    {
      && ValidConfig(cfg)
      && (timerInternals != null <==> cfg.hasKeyCoder)
      && outputManager.Valid() && outputManager.isStreaming == cfg.options.isStreaming
    }

    /** The push-back watermark is the smallest timestamp pushed back; only side inputs push back. */
    ghost predicate PushBackValid()
      reads this`pushedBack, this`pushedBackWatermark
    {
      && pushedBackWatermark == MinTimestamp(pushedBack)
      && (!cfg.hasSideInputs ==> pushedBack == [])
    }

    ghost predicate CountValid()
      reads this`bundleStarted, this`elementCount
    {
      0 <= elementCount && (!bundleStarted ==> elementCount == 0)
    }

    ghost predicate FinalizationsValid()
      reads this`pendingFinalizations
    {
      F.RingValid(pendingFinalizations) && |pendingFinalizations.order| <= F.MAX_PENDING
    }

    /** The watermarks sent downstream never decrease and none exceeds the current output watermark. */
    ghost predicate OutputOrdered()
      reads this`currentOutputWatermark, outputManager.output
    {
      WatermarksNonDecreasing(outputManager.output.emitted, currentOutputWatermark)
    }

    /** Everything but the bound on the element count. */
    ghost predicate ValidBase()
      reads this`pushedBack, this`pushedBackWatermark, this`bundleStarted, this`elementCount,
            this`pendingFinalizations, this`currentOutputWatermark, outputManager, outputManager.output
    {
      Wiring() && PushBackValid() && CountValid() && FinalizationsValid() && OutputOrdered()
    }

    ghost predicate Valid()
      reads this`pushedBack, this`pushedBackWatermark, this`bundleStarted, this`elementCount,
            this`pendingFinalizations, this`currentOutputWatermark, outputManager, outputManager.output
    {
      && ValidBase()
      && (cfg.options.isStreaming ==> elementCount < cfg.options.maxBundleSize)
    }

    /** The state the output-watermark candidate is computed from. */
    ghost function WatermarkInputs(): (seq<WindowedValue>, Long, Long, Long)
      reads this`pushedBack, this`pushedBackWatermark, this`currentInputWatermark, this`currentSideInputWatermark
    {
      (pushedBack, pushedBackWatermark, currentInputWatermark, currentSideInputWatermark)
    }

    ghost function FinalizationState(): (seq<F.Finalization>, F.Ring)
      reads this`bundleFinalizations, this`pendingFinalizations
    {
      (bundleFinalizations, pendingFinalizations)
    }

    /** The timer internals of a keyed operator keep their index and registrations in step. */
    ghost predicate TimersValid()
      reads timerInternals
    {
      timerInternals != null ==> timerInternals.Valid()
    }

    /** The DoFn only emits to the output tags the output manager was built with. */
    predicate KnownTags(env: Env) {
      forall i :: 0 <= i < |env.finishOutputs| ==> env.finishOutputs[i].0 in outputManager.tagsToIds
    }

    /** Whether the output manager holds outputs back: during a snapshot, in streaming mode. */
    ghost predicate Buffering()
      reads outputManager
    {
      outputManager.openBuffer && outputManager.isStreaming
    }

    /** What finishing a bundle adds to the output buffer. */
    ghost function HeldBack(started: bool, env: Env): seq<(Tag, WindowedValue)>
      reads outputManager
    {
      if started && Buffering() then env.finishOutputs else []
    }

    /** What finishing a bundle sends downstream. */
    ghost function SentOnFinish(started: bool, env: Env): seq<Emission>
      reads outputManager
    {
      if started && !Buffering() then Routed(outputManager.mainTag, env.finishOutputs) else []
    }

    function Candidate(env: Env): (r: Long)
      reads this`pushedBackWatermark, this`currentInputWatermark
      ensures r <= pushedBackWatermark && r <= currentInputWatermark
      ensures cfg.requiresStableInput ==> r <= env.bufferingHold
      ensures cfg.hasKeyCoder ==> r <= env.minWatermarkHold
    {
      OutputWatermarkCandidate(pushedBackWatermark, cfg.requiresStableInput, env.bufferingHold,
                               currentInputWatermark, cfg.hasKeyCoder, env.minWatermarkHold)
    }

    /** initializeState and open: watermarks at the minimum timestamp, the push-back watermark from restored elements. */
    constructor (cfg: Config, outputManager: BufferedOutputManager, timerInternals: TI.FlinkTimerInternals?,
                 restoredPushedBack: seq<WindowedValue>, now: Long)
      requires ValidConfig(cfg) && (timerInternals != null <==> cfg.hasKeyCoder)
      requires outputManager.Valid() && outputManager.isStreaming == cfg.options.isStreaming
      requires WatermarksNonDecreasing(outputManager.output.emitted, TIMESTAMP_MIN_VALUE)
      ensures Valid()
      ensures this.cfg == cfg && this.outputManager == outputManager && this.timerInternals == timerInternals
      ensures currentInputWatermark == currentSideInputWatermark == currentOutputWatermark == TIMESTAMP_MIN_VALUE
      ensures pushedBack == (if cfg.hasSideInputs then restoredPushedBack else [])
      ensures pushedBackWatermark == (if cfg.hasSideInputs then MinTimestamp(restoredPushedBack) else LONG_MAX)
      ensures !bundleStarted && elementCount == 0 && lastFinishBundleTime == now
      ensures pendingFinalizations == F.EmptyRing && bundleFinalizations == [] && effects == []
    {
      this.cfg := cfg;
      this.outputManager := outputManager;
      this.timerInternals := timerInternals;
      currentInputWatermark := TIMESTAMP_MIN_VALUE;
      currentSideInputWatermark := TIMESTAMP_MIN_VALUE;
      currentOutputWatermark := TIMESTAMP_MIN_VALUE;
      if cfg.hasSideInputs {
        pushedBack := restoredPushedBack;
        var min := MinPushedBackTimestamp(restoredPushedBack);
        pushedBackWatermark := min;
      } else {
        pushedBack := [];
        pushedBackWatermark := LONG_MAX;
      }
      bundleStarted := false;
      elementCount := 0;
      lastFinishBundleTime := now;
      bundleFinalizations := [];
      pendingFinalizations := F.EmptyRing;
      effects := [];
    }

    /** The DoFn registers a callback with the bundle finalizer. */
    method AddFinalization(f: F.Finalization)
      modifies this`bundleFinalizations
      ensures bundleFinalizations == old(bundleFinalizations) + [f]
    {
      bundleFinalizations := bundleFinalizations + [f];
    }

    // ---- bundle controller ----

    /** Replays what a snapshot buffered; these are records only, so the watermark order is kept. */
    method FlushOutputBuffer()
      requires Valid()
      modifies outputManager, outputManager.output
      ensures Valid()
      ensures outputManager.openBuffer == old(outputManager.openBuffer)
      ensures !old(outputManager.openBuffer) ==>
        && outputManager.output.emitted
           == old(outputManager.output.emitted) + Routed(outputManager.mainTag, old(outputManager.bufferedOutputs))
        && outputManager.bufferedOutputs == []
      ensures old(outputManager.openBuffer) ==>
        && outputManager.output.emitted == old(outputManager.output.emitted)
        && outputManager.bufferedOutputs == old(outputManager.bufferedOutputs)
    {
      RoutedHasNoWatermarks(outputManager.mainTag, outputManager.bufferedOutputs);
      AppendRecords(outputManager.output.emitted, currentOutputWatermark,
                    Routed(outputManager.mainTag, outputManager.bufferedOutputs));
      outputManager.FlushBuffer();
    }

    /**
     * Hands the DoFn's outputs to the output manager one after the other:
     * held back while a snapshot buffers them, else sent downstream.
     */
    method EmitOutputs(outs: seq<(Tag, WindowedValue)>)
      requires ValidBase()
      requires forall i :: 0 <= i < |outs| ==> outs[i].0 in outputManager.tagsToIds
      modifies outputManager, outputManager.output
      ensures ValidBase()
      ensures outputManager.openBuffer == old(outputManager.openBuffer)
      ensures Buffering() ==>
        && outputManager.bufferedOutputs == old(outputManager.bufferedOutputs) + outs
        && outputManager.output.emitted == old(outputManager.output.emitted)
      ensures !Buffering() ==>
        && outputManager.output.emitted == old(outputManager.output.emitted) + Routed(outputManager.mainTag, outs)
        && outputManager.bufferedOutputs == old(outputManager.bufferedOutputs)
    {
      var i := 0;
      while i < |outs|
        invariant 0 <= i <= |outs|
        invariant ValidBase()
        invariant outputManager.openBuffer == old(outputManager.openBuffer)
        invariant Buffering() ==>
          && outputManager.bufferedOutputs == old(outputManager.bufferedOutputs) + outs[..i]
          && outputManager.output.emitted == old(outputManager.output.emitted)
        invariant !Buffering() ==>
          && outputManager.output.emitted == old(outputManager.output.emitted) + Routed(outputManager.mainTag, outs[..i])
          && outputManager.bufferedOutputs == old(outputManager.bufferedOutputs)
      {
        AppendRecords(outputManager.output.emitted, currentOutputWatermark, [Route(outputManager.mainTag, outs[i].0, outs[i].1)]);
        RoutedSnoc(outputManager.mainTag, outs[..i], outs[i]);
        outputManager.Output(outs[i].0, outs[i].1);
        assert outs[..i + 1] == outs[..i] + [outs[i]];
        i := i + 1;
      }
      assert outs[..i] == outs;
    }

    /** A bundle is started only when none is open, after flushing what a snapshot buffered. */
    method CheckInvokeStartBundle()
      requires Valid()
      modifies this`bundleStarted, this`effects, outputManager, outputManager.output
      ensures Valid() && bundleStarted
      ensures old(bundleStarted) ==>
        && effects == old(effects)
        && outputManager.output.emitted == old(outputManager.output.emitted)
        && outputManager.bufferedOutputs == old(outputManager.bufferedOutputs)
      ensures !old(bundleStarted) ==> effects == old(effects) + StartEffects(cfg)
      ensures !old(bundleStarted) && !old(outputManager.openBuffer) ==>
        && outputManager.output.emitted
           == old(outputManager.output.emitted) + Routed(outputManager.mainTag, old(outputManager.bufferedOutputs))
        && outputManager.bufferedOutputs == []
      ensures old(outputManager.openBuffer) ==>
        && outputManager.output.emitted == old(outputManager.output.emitted)
        && outputManager.bufferedOutputs == old(outputManager.bufferedOutputs)
      ensures outputManager.openBuffer == old(outputManager.openBuffer)
    {
      if !bundleStarted {
        FlushOutputBuffer();
        if cfg.hasPreBundleCallback {
          effects := effects + [PreBundleCallback];
        }
        effects := effects + [StartBundle];
        bundleStarted := true;
      }
    }

    /**
     * Finishes the open bundle, if any, with the DoFn's finishBundle outputs
     * handed to the output manager, then re-evaluates the output watermark
     * when the previous finish lies more than the bundle time in the future
     * (Java long subtraction, as written).
     */
    method InvokeFinishBundle(env: Env, fuel: nat)
      requires ValidBase() && KnownTags(env)
      modifies this`bundleStarted, this`elementCount, this`lastFinishBundleTime, this`currentOutputWatermark, this`effects,
               outputManager, outputManager.output
      decreases fuel, 0
      ensures Valid() && !bundleStarted
      ensures outputManager.openBuffer == old(outputManager.openBuffer)
      ensures old(bundleStarted) ==>
        elementCount == 0 && lastFinishBundleTime == env.now && old(effects) + FinishEffects(cfg) <= effects
      ensures !old(bundleStarted) ==> lastFinishBundleTime == old(lastFinishBundleTime)
      ensures old(effects) <= effects && old(outputManager.output.emitted) <= outputManager.output.emitted
      ensures outputManager.bufferedOutputs == old(outputManager.bufferedOutputs) + HeldBack(old(bundleStarted), env)
      ensures old(outputManager.output.emitted) + SentOnFinish(old(bundleStarted), env) <= outputManager.output.emitted
      ensures currentOutputWatermark == old(currentOutputWatermark) || currentOutputWatermark == Candidate(env)
      ensures currentOutputWatermark >= old(currentOutputWatermark)
      ensures LongSub(old(lastFinishBundleTime), env.now) <= cfg.options.maxBundleTimeMills ==>
        && currentOutputWatermark == old(currentOutputWatermark)
        && outputManager.output.emitted == old(outputManager.output.emitted) + SentOnFinish(old(bundleStarted), env)
        && effects == old(effects) + (if old(bundleStarted) then FinishEffects(cfg) else [])
    {
      var previousBundleFinishTime := lastFinishBundleTime;
      if bundleStarted {
        FinishOpenBundle(env);
      }
      ghost var finished := outputManager.output.emitted;
      ghost var finishEffects := effects;
      if LongSub(previousBundleFinishTime, env.now) > cfg.options.maxBundleTimeMills && fuel > 0 {
        ProcessInputWatermark(env, fuel - 1);
      }
      assert finished <= outputManager.output.emitted && finishEffects <= effects;
    }

    /** The DoFn's finishBundle with its outputs, then the bundle-finished callback. */
    method FinishOpenBundle(env: Env)
      requires ValidBase() && bundleStarted && KnownTags(env)
      modifies this`bundleStarted, this`elementCount, this`lastFinishBundleTime, this`effects,
               outputManager, outputManager.output
      ensures Valid() && !bundleStarted && elementCount == 0 && lastFinishBundleTime == env.now
      ensures effects == old(effects) + FinishEffects(cfg)
      ensures outputManager.openBuffer == old(outputManager.openBuffer)
      ensures outputManager.bufferedOutputs == old(outputManager.bufferedOutputs) + HeldBack(true, env)
      ensures outputManager.output.emitted == old(outputManager.output.emitted) + SentOnFinish(true, env)
    {
      effects := effects + [FinishBundle];
      EmitOutputs(env.finishOutputs);
      CloseBundle(env.now);
      if cfg.hasBundleFinishedCallback {
        effects := effects + [BundleFinishedCallback];
      }
    }

    /** Closes the bundle: the element count and the finish time restart. */
    method CloseBundle(now: Long)
      requires ValidBase()
      modifies this`bundleStarted, this`elementCount, this`lastFinishBundleTime
      ensures Valid() && !bundleStarted && elementCount == 0 && lastFinishBundleTime == now
    {
      elementCount := 0;
      lastFinishBundleTime := now;
      bundleStarted := false;
    }

    /** Finishes bundles until none is open, the source's `while (bundleStarted) invokeFinishBundle()`. */
    method FinishBundleFully(env: Env)
      requires Valid() && KnownTags(env)
      modifies this`bundleStarted, this`elementCount, this`lastFinishBundleTime, this`currentOutputWatermark, this`effects,
               outputManager, outputManager.output
      ensures Valid() && !bundleStarted
      ensures outputManager.openBuffer == old(outputManager.openBuffer)
      ensures old(bundleStarted) ==> old(effects) + FinishEffects(cfg) <= effects
      ensures !old(bundleStarted) ==>
        && effects == old(effects) && outputManager.output.emitted == old(outputManager.output.emitted)
        && currentOutputWatermark == old(currentOutputWatermark)
      ensures old(effects) <= effects && currentOutputWatermark >= old(currentOutputWatermark)
      ensures old(outputManager.output.emitted) <= outputManager.output.emitted
      ensures outputManager.bufferedOutputs == old(outputManager.bufferedOutputs) + HeldBack(old(bundleStarted), env)
      ensures old(outputManager.output.emitted) + SentOnFinish(old(bundleStarted), env) <= outputManager.output.emitted
      ensures LongSub(old(lastFinishBundleTime), env.now) <= cfg.options.maxBundleTimeMills ==>
        && currentOutputWatermark == old(currentOutputWatermark)
        && outputManager.output.emitted == old(outputManager.output.emitted) + SentOnFinish(old(bundleStarted), env)
        && effects == old(effects) + (if old(bundleStarted) then FinishEffects(cfg) else [])
    {
      while bundleStarted
        invariant Valid()
        invariant outputManager.openBuffer == old(outputManager.openBuffer)
        invariant bundleStarted ==>
          && old(bundleStarted) && effects == old(effects) && lastFinishBundleTime == old(lastFinishBundleTime)
          && outputManager.output.emitted == old(outputManager.output.emitted)
          && outputManager.bufferedOutputs == old(outputManager.bufferedOutputs)
          && currentOutputWatermark == old(currentOutputWatermark)
        invariant !bundleStarted ==>
          && (old(bundleStarted) ==> old(effects) + FinishEffects(cfg) <= effects)
          && (!old(bundleStarted) ==> effects == old(effects) && outputManager.output.emitted == old(outputManager.output.emitted)
                                      && currentOutputWatermark == old(currentOutputWatermark))
          && old(effects) <= effects && currentOutputWatermark >= old(currentOutputWatermark)
          && old(outputManager.output.emitted) <= outputManager.output.emitted
          && outputManager.bufferedOutputs == old(outputManager.bufferedOutputs) + HeldBack(old(bundleStarted), env)
          && old(outputManager.output.emitted) + SentOnFinish(old(bundleStarted), env) <= outputManager.output.emitted
          && (LongSub(old(lastFinishBundleTime), env.now) <= cfg.options.maxBundleTimeMills ==>
                && currentOutputWatermark == old(currentOutputWatermark)
                && outputManager.output.emitted == old(outputManager.output.emitted) + SentOnFinish(old(bundleStarted), env)
                && effects == old(effects) + (if old(bundleStarted) then FinishEffects(cfg) else []))
        decreases bundleStarted
      {
        InvokeFinishBundle(env, REEVALUATION_DEPTH);
      }
      if !old(bundleStarted) {
        assert outputManager.bufferedOutputs == old(outputManager.bufferedOutputs) + [];
      }
    }

    /** The element count after one more element: only streaming mode counts. */
    function CountAfter(count: int): int {
      if cfg.options.isStreaming then count + 1 else count
    }

    /** One more element keeps the bundle open: batch mode, or a count still below the maximum bundle size. */
    predicate StaysOpenAfterCount(count: int) {
      !cfg.options.isStreaming || count + 1 < cfg.options.maxBundleSize
    }

    /** Counts an element and finishes the bundle once it holds the maximum number (streaming only). */
    method CheckInvokeFinishBundleByCount(env: Env)
      requires Valid() && bundleStarted && KnownTags(env)
      modifies this`bundleStarted, this`elementCount, this`lastFinishBundleTime, this`currentOutputWatermark, this`effects,
               outputManager, outputManager.output
      ensures Valid()
      ensures outputManager.openBuffer == old(outputManager.openBuffer)
      ensures StaysOpenAfterCount(old(elementCount)) ==>
        && bundleStarted && effects == old(effects)
        && elementCount == CountAfter(old(elementCount))
        && currentOutputWatermark == old(currentOutputWatermark)
        && outputManager.output.emitted == old(outputManager.output.emitted)
      ensures !StaysOpenAfterCount(old(elementCount)) ==>
        && !bundleStarted && elementCount == 0 && old(effects) + FinishEffects(cfg) <= effects
        && old(outputManager.output.emitted) + SentOnFinish(true, env) <= outputManager.output.emitted
      ensures old(effects) <= effects && old(outputManager.output.emitted) <= outputManager.output.emitted
      ensures currentOutputWatermark >= old(currentOutputWatermark)
    {
      if !cfg.options.isStreaming {
        return;
      }
      elementCount := elementCount + 1;
      if elementCount >= cfg.options.maxBundleSize {
        InvokeFinishBundle(env, REEVALUATION_DEPTH);
        ghost var finished := outputManager.output.emitted;
        UpdateOutputWatermark(env);
        assert finished <= outputManager.output.emitted;
      }
    }

    /** The periodic check: finishes the bundle once the bundle time has elapsed since the last finish. */
    method CheckInvokeFinishBundleByTime(env: Env)
      requires Valid() && KnownTags(env)
      modifies this`bundleStarted, this`elementCount, this`lastFinishBundleTime, this`currentOutputWatermark, this`effects,
               outputManager, outputManager.output
      ensures Valid()
      ensures outputManager.openBuffer == old(outputManager.openBuffer)
      ensures cfg.options.isStreaming && LongSub(env.now, old(lastFinishBundleTime)) >= cfg.options.maxBundleTimeMills ==>
        && !bundleStarted
        && (old(bundleStarted) ==> old(effects) + FinishEffects(cfg) <= effects)
        && old(outputManager.output.emitted) + SentOnFinish(old(bundleStarted), env) <= outputManager.output.emitted
        && |effects| > 0 && effects[|effects| - 1] == ScheduleWatermarkUpdate
      ensures !(cfg.options.isStreaming && LongSub(env.now, old(lastFinishBundleTime)) >= cfg.options.maxBundleTimeMills) ==>
        && bundleStarted == old(bundleStarted) && elementCount == old(elementCount) && effects == old(effects)
        && currentOutputWatermark == old(currentOutputWatermark)
        && outputManager.output.emitted == old(outputManager.output.emitted)
      ensures old(effects) <= effects
      ensures currentOutputWatermark >= old(currentOutputWatermark)
    {
      if !cfg.options.isStreaming {
        return;
      }
      if LongSub(env.now, lastFinishBundleTime) >= cfg.options.maxBundleTimeMills {
        InvokeFinishBundle(env, REEVALUATION_DEPTH);
        effects := effects + [ScheduleWatermarkUpdate];
      }
    }

    // ---- watermark coordinator ----

    method UpdateOutputWatermark(env: Env)
      requires Valid() && KnownTags(env)
      modifies this`bundleStarted, this`elementCount, this`lastFinishBundleTime, this`currentOutputWatermark, this`effects,
               outputManager, outputManager.output
      ensures Valid()
      ensures outputManager.openBuffer == old(outputManager.openBuffer)
      ensures bundleStarted ==> old(bundleStarted)
      ensures !old(bundleStarted) ==> elementCount == old(elementCount) && lastFinishBundleTime == old(lastFinishBundleTime)
      ensures old(effects) <= effects && old(outputManager.output.emitted) <= outputManager.output.emitted
      ensures currentOutputWatermark ==
        (if EmitsWatermark(Candidate(env), old(currentOutputWatermark), old(bundleStarted))
         then Candidate(env) else old(currentOutputWatermark))
    {
      ProcessInputWatermark(env, REEVALUATION_DEPTH);
    }

    /**
     * processInputWatermark(false): offers the candidate for emission without
     * advancing the timer service.
     */
    method ProcessInputWatermark(env: Env, fuel: nat)
      requires Valid() && KnownTags(env)
      modifies this`bundleStarted, this`elementCount, this`lastFinishBundleTime, this`currentOutputWatermark, this`effects,
               outputManager, outputManager.output
      decreases fuel, 2
      ensures Valid()
      ensures outputManager.openBuffer == old(outputManager.openBuffer)
      ensures bundleStarted ==> old(bundleStarted)
      ensures !old(bundleStarted) ==>
        && elementCount == old(elementCount) && lastFinishBundleTime == old(lastFinishBundleTime)
        && outputManager.bufferedOutputs == old(outputManager.bufferedOutputs)
      ensures old(effects) <= effects && old(outputManager.output.emitted) <= outputManager.output.emitted
      ensures currentOutputWatermark ==
        (if EmitsWatermark(Candidate(env), old(currentOutputWatermark), old(bundleStarted))
         then Candidate(env) else old(currentOutputWatermark))
      ensures !EmitsWatermark(Candidate(env), old(currentOutputWatermark), old(bundleStarted)) ==>
        && outputManager.output.emitted == old(outputManager.output.emitted)
        && bundleStarted == old(bundleStarted) && effects == old(effects) && elementCount == old(elementCount)
    {
      var inputWatermarkHold := EffectiveInputWatermark(pushedBackWatermark, cfg.requiresStableInput,
                                                        env.bufferingHold, currentInputWatermark);
      var potentialOutputWatermark := ComputeOutputWatermark(cfg.hasKeyCoder, env.minWatermarkHold, inputWatermarkHold);
      MaybeEmitWatermark(potentialOutputWatermark, env, fuel);
    }

    /** The watermark a keyed operator advances its timer service to. */
    function InputWatermarkHold(env: Env): (r: Long)
      reads this`pushedBackWatermark, this`currentInputWatermark
      ensures r <= pushedBackWatermark && r <= currentInputWatermark
      ensures cfg.requiresStableInput ==> r <= env.bufferingHold
      ensures Candidate(env) <= r
    {
      EffectiveInputWatermark(pushedBackWatermark, cfg.requiresStableInput, env.bufferingHold, currentInputWatermark)
    }

    /**
     * processInputWatermark(true): a keyed operator first advances its timer
     * service to the effective input watermark, which fires the due
     * event-time timers, then offers the candidate for emission. A timer
     * fired here leaves its bundle open, which holds the watermark back
     * unless it is final.
     */
    method AdvanceInputWatermark(mark: Long, env: Env) returns (fired: seq<TI.Registration>)
      requires Valid() && TimersValid() && KnownTags(env)
      modifies this`currentInputWatermark, this`bundleStarted, this`elementCount, this`lastFinishBundleTime, this`currentOutputWatermark, this`effects,
               outputManager, outputManager.output, timerInternals
      ensures Valid() && TimersValid()
      ensures currentInputWatermark == mark
      ensures outputManager.openBuffer == old(outputManager.openBuffer)
      ensures !cfg.hasKeyCoder ==> fired == []
      ensures cfg.hasKeyCoder ==>
        && TI.FiringOrder(old(timerInternals.registered), InputWatermarkHold(env), fired)
        && timerInternals.State() == TI.FireAllSpec(old(timerInternals.State()), fired)
      ensures var start := if !old(bundleStarted) && fired != [] then StartEffects(cfg) else [];
        old(effects) + start + OnTimers(fired) <= effects
      ensures currentOutputWatermark ==
        (if EmitsWatermark(Candidate(env), old(currentOutputWatermark), old(bundleStarted) || fired != [])
         then Candidate(env) else old(currentOutputWatermark))
      ensures bundleStarted ==
        ((old(bundleStarted) || fired != [])
         && !EmitsWatermark(Candidate(env), old(currentOutputWatermark), old(bundleStarted) || fired != []))
      ensures old(outputManager.output.emitted) <= outputManager.output.emitted
    {
      currentInputWatermark := mark;
      var inputWatermarkHold := InputWatermarkHold(env);
      fired := [];
      if cfg.hasKeyCoder {
        fired := AdvanceTimerService(inputWatermarkHold, env);
      }
      ghost var afterTimers := effects;
      ghost var emittedAfterTimers := outputManager.output.emitted;
      var potentialOutputWatermark := ComputeOutputWatermark(cfg.hasKeyCoder, env.minWatermarkHold, inputWatermarkHold);
      MaybeEmitWatermark(potentialOutputWatermark, env, REEVALUATION_DEPTH);
      assert afterTimers <= effects && emittedAfterTimers <= outputManager.output.emitted;
    }

    /**
     * Emits a strictly larger watermark, never while a bundle is open; a
     * watermark at or past the end of time first finishes the bundle. Called
     * with the candidate only.
     */
    method MaybeEmitWatermark(watermark: Long, env: Env, fuel: nat)
      requires Valid() && watermark == Candidate(env) && KnownTags(env)
      modifies this`bundleStarted, this`elementCount, this`lastFinishBundleTime, this`currentOutputWatermark, this`effects,
               outputManager, outputManager.output
      decreases fuel, 1
      ensures Valid()
      ensures outputManager.openBuffer == old(outputManager.openBuffer)
      ensures bundleStarted ==> old(bundleStarted)
      ensures !old(bundleStarted) ==>
        && elementCount == old(elementCount) && lastFinishBundleTime == old(lastFinishBundleTime)
        && outputManager.bufferedOutputs == old(outputManager.bufferedOutputs)
      ensures old(effects) <= effects && old(outputManager.output.emitted) <= outputManager.output.emitted
      ensures currentOutputWatermark ==
        (if EmitsWatermark(watermark, old(currentOutputWatermark), old(bundleStarted))
         then watermark else old(currentOutputWatermark))
      ensures !EmitsWatermark(watermark, old(currentOutputWatermark), old(bundleStarted)) ==>
        && outputManager.output.emitted == old(outputManager.output.emitted)
        && effects == old(effects) && bundleStarted == old(bundleStarted) && elementCount == old(elementCount)
      ensures EmitsWatermark(watermark, old(currentOutputWatermark), old(bundleStarted)) ==>
        && !bundleStarted
        && |outputManager.output.emitted| > 0
        && outputManager.output.emitted[|outputManager.output.emitted| - 1] == WatermarkMark(watermark)
      ensures EmitsWatermark(watermark, old(currentOutputWatermark), old(bundleStarted)) && watermark < TIMESTAMP_MAX_VALUE ==>
        outputManager.output.emitted == old(outputManager.output.emitted) + [WatermarkMark(watermark)]
      ensures watermark > old(currentOutputWatermark) && watermark >= TIMESTAMP_MAX_VALUE && old(bundleStarted) ==>
        && old(effects) + FinishEffects(cfg) <= effects
        && old(outputManager.output.emitted) + SentOnFinish(true, env) <= outputManager.output.emitted
      ensures (EmitsWatermark(watermark, old(currentOutputWatermark), old(bundleStarted))
               && cfg.hasKeyCoder && watermark > AdjustTimestampForFlink(cfg.globalWindowMaxTimestamp)) ==>
        |effects| > 0 && effects[|effects| - 1] == ClearGlobalState
    {
      if watermark > currentOutputWatermark {
        if watermark >= TIMESTAMP_MAX_VALUE {
          InvokeFinishBundle(env, fuel);
        }
        if bundleStarted {
          return;
        }
        ghost var finished := outputManager.output.emitted;
        EmitWatermark(watermark);
        assert finished <= outputManager.output.emitted;
      }
    }

    /** Sends the watermark downstream; past the end of the global window a keyed operator clears global state. */
    method EmitWatermark(watermark: Long)
      requires Valid() && watermark >= currentOutputWatermark
      modifies this`currentOutputWatermark, this`effects, outputManager.output
      ensures Valid()
      ensures currentOutputWatermark == watermark
      ensures outputManager.output.emitted == old(outputManager.output.emitted) + [WatermarkMark(watermark)]
      ensures effects == old(effects)
        + (if cfg.hasKeyCoder && watermark > AdjustTimestampForFlink(cfg.globalWindowMaxTimestamp) then [ClearGlobalState] else [])
    {
      AppendWatermark(outputManager.output.emitted, currentOutputWatermark, watermark);
      currentOutputWatermark := watermark;
      outputManager.output.Collect(WatermarkMark(watermark));
      if cfg.hasKeyCoder && currentOutputWatermark > AdjustTimestampForFlink(cfg.globalWindowMaxTimestamp) {
        effects := effects + [ClearGlobalState];
      }
    }

    /**
     * A new main-input watermark: flush, release pushed-back data after the
     * final side-input watermark, fire the due event-time timers, propagate.
     */
    method ProcessWatermark1(mark: Long, env: Env) returns (fired: seq<TI.Registration>)
      requires Valid() && TimersValid() && KnownTags(env)
      modifies this`currentInputWatermark, this`pushedBack, this`pushedBackWatermark,
               this`bundleStarted, this`elementCount, this`lastFinishBundleTime, this`currentOutputWatermark, this`effects,
               outputManager, outputManager.output, timerInternals
      ensures Valid() && TimersValid()
      ensures currentInputWatermark == mark
      ensures currentSideInputWatermark >= TIMESTAMP_MAX_VALUE ==> pushedBack == [] && pushedBackWatermark == LONG_MAX
      ensures currentSideInputWatermark < TIMESTAMP_MAX_VALUE ==>
        pushedBack == old(pushedBack) && pushedBackWatermark == old(pushedBackWatermark)
      ensures !old(outputManager.openBuffer) ==>
        old(outputManager.output.emitted) + Routed(outputManager.mainTag, old(outputManager.bufferedOutputs))
        <= outputManager.output.emitted
      ensures !cfg.hasKeyCoder ==> fired == []
      ensures cfg.hasKeyCoder ==>
        && TI.FiringOrder(old(timerInternals.registered), InputWatermarkHold(env), fired)
        && timerInternals.State() == TI.FireAllSpec(old(timerInternals.State()), fired)
      ensures var released := Released(old(pushedBack));
        var startRelease := if !old(bundleStarted) && released != [] then StartEffects(cfg) else [];
        var startTimers := if !(old(bundleStarted) || released != []) && fired != [] then StartEffects(cfg) else [];
        old(effects) + startRelease + Processed(released) + startTimers + OnTimers(fired) <= effects
      ensures currentOutputWatermark ==
        (if EmitsWatermark(Candidate(env), old(currentOutputWatermark),
                           old(bundleStarted) || Released(old(pushedBack)) != [] || fired != [])
         then Candidate(env) else old(currentOutputWatermark))
      ensures fired != [] && Candidate(env) < TIMESTAMP_MAX_VALUE ==>
        && currentOutputWatermark == old(currentOutputWatermark) && bundleStarted
      ensures outputManager.openBuffer == old(outputManager.openBuffer)
      ensures old(effects) <= effects && old(outputManager.output.emitted) <= outputManager.output.emitted
      ensures currentOutputWatermark >= old(currentOutputWatermark)
    {
      ghost var released := Released(pushedBack);
      ghost var startRelease := if !bundleStarted && released != [] then StartEffects(cfg) else [];
      FlushAndRelease();
      ghost var flushed, mid, startedMid := outputManager.output.emitted, effects, bundleStarted;
      assert currentOutputWatermark == old(currentOutputWatermark);
      assert startedMid == (old(bundleStarted) || released != []);
      assert Released(old(pushedBack)) == released;
      fired := AdvanceInputWatermark(mark, env);
      assert flushed <= outputManager.output.emitted;
      LogExtends(old(effects), startRelease, Processed(released), mid,
                 if !startedMid && fired != [] then StartEffects(cfg) else [], OnTimers(fired), effects);
    }

    /** What releasing the push-back list hands to the DoFn runner: all of it once the side inputs are final. */
    function Released(pushed: seq<WindowedValue>): (r: seq<WindowedValue>)
      reads this`currentSideInputWatermark
      ensures currentSideInputWatermark < TIMESTAMP_MAX_VALUE ==> r == []
      ensures currentSideInputWatermark >= TIMESTAMP_MAX_VALUE ==> r == pushed
    {
      if currentSideInputWatermark >= TIMESTAMP_MAX_VALUE then pushed else []
    }

    /** Replays what a snapshot buffered, then, after the final side-input watermark, the push-back list. */
    method FlushAndRelease()
      requires Valid()
      modifies this`pushedBack, this`pushedBackWatermark, this`bundleStarted, this`effects,
               outputManager, outputManager.output
      ensures Valid()
      ensures currentSideInputWatermark >= TIMESTAMP_MAX_VALUE ==> pushedBack == [] && pushedBackWatermark == LONG_MAX
      ensures currentSideInputWatermark < TIMESTAMP_MAX_VALUE ==>
        pushedBack == old(pushedBack) && pushedBackWatermark == old(pushedBackWatermark)
      ensures !old(outputManager.openBuffer) ==>
        old(outputManager.output.emitted) + Routed(outputManager.mainTag, old(outputManager.bufferedOutputs))
        <= outputManager.output.emitted
      ensures old(outputManager.output.emitted) <= outputManager.output.emitted
      ensures bundleStarted == (old(bundleStarted) || Released(old(pushedBack)) != [])
      ensures effects == old(effects)
        + (if !old(bundleStarted) && Released(old(pushedBack)) != [] then StartEffects(cfg) else [])
        + Processed(Released(old(pushedBack)))
      ensures outputManager.openBuffer == old(outputManager.openBuffer)
    {
      FlushOutputBuffer();
      ghost var flushed := outputManager.output.emitted;
      if currentSideInputWatermark >= TIMESTAMP_MAX_VALUE {
        EmitAllPushedBackData();
      }
      assert flushed <= outputManager.output.emitted;
    }

    /** A new side-input watermark: at the end of time, release all pushed-back data and propagate. */
    method ProcessWatermark2(mark: Long, env: Env)
      requires Valid() && TimersValid() && KnownTags(env)
      modifies this`currentSideInputWatermark, this`currentInputWatermark, this`pushedBack, this`pushedBackWatermark,
               this`bundleStarted, this`elementCount, this`lastFinishBundleTime, this`currentOutputWatermark, this`effects,
               outputManager, outputManager.output, timerInternals
      ensures Valid() && TimersValid()
      ensures currentSideInputWatermark == mark
      ensures mark >= TIMESTAMP_MAX_VALUE ==> pushedBack == [] && pushedBackWatermark == LONG_MAX
      ensures mark < TIMESTAMP_MAX_VALUE ==>
        && WatermarkInputs() == old(WatermarkInputs()).(3 := mark)
        && effects == old(effects) && bundleStarted == old(bundleStarted)
        && currentOutputWatermark == old(currentOutputWatermark)
        && outputManager.output.emitted == old(outputManager.output.emitted)
      ensures mark >= TIMESTAMP_MAX_VALUE ==>
        old(effects) + (if !old(bundleStarted) && old(pushedBack) != [] then StartEffects(cfg) else [])
        + Processed(old(pushedBack)) <= effects
      ensures mark >= TIMESTAMP_MAX_VALUE ==>
        var timersDue := cfg.hasKeyCoder && TI.DueEventTimers(old(timerInternals.registered), InputWatermarkHold(env)) != {};
        currentOutputWatermark ==
          (if EmitsWatermark(Candidate(env), old(currentOutputWatermark), old(bundleStarted) || old(pushedBack) != [] || timersDue)
           then Candidate(env) else old(currentOutputWatermark))
      ensures old(effects) <= effects
      ensures currentOutputWatermark >= old(currentOutputWatermark)
    {
      currentSideInputWatermark := mark;
      if mark >= TIMESTAMP_MAX_VALUE {
        var _ := ReleaseAtEndOfTime(env);
      } else {
        assert WatermarkInputs() == old(WatermarkInputs()).(3 := mark);
      }
    }

    /** The side inputs are final: hand over the push-back list, then re-run the main-input watermark. */
    method ReleaseAtEndOfTime(env: Env) returns (fired: seq<TI.Registration>)
      requires Valid() && TimersValid() && KnownTags(env) && currentSideInputWatermark >= TIMESTAMP_MAX_VALUE
      modifies this`currentInputWatermark, this`pushedBack, this`pushedBackWatermark,
               this`bundleStarted, this`elementCount, this`lastFinishBundleTime, this`currentOutputWatermark, this`effects,
               outputManager, outputManager.output, timerInternals
      ensures Valid() && TimersValid()
      ensures pushedBack == [] && pushedBackWatermark == LONG_MAX
      ensures currentInputWatermark == old(currentInputWatermark)
      ensures cfg.hasKeyCoder ==> TI.FiringOrder(old(timerInternals.registered), InputWatermarkHold(env), fired)
      ensures fired != [] <==>
        cfg.hasKeyCoder && TI.DueEventTimers(old(timerInternals.registered), InputWatermarkHold(env)) != {}
      ensures var start := if !old(bundleStarted) && old(pushedBack) != [] then StartEffects(cfg) else [];
        var startTimers := if !(old(bundleStarted) || old(pushedBack) != []) && fired != [] then StartEffects(cfg) else [];
        old(effects) + start + Processed(old(pushedBack)) + startTimers + OnTimers(fired) <= effects
      ensures currentOutputWatermark ==
        (if EmitsWatermark(Candidate(env), old(currentOutputWatermark), old(bundleStarted) || old(pushedBack) != [] || fired != [])
         then Candidate(env) else old(currentOutputWatermark))
      ensures var timersDue := cfg.hasKeyCoder && TI.DueEventTimers(old(timerInternals.registered), InputWatermarkHold(env)) != {};
        currentOutputWatermark ==
          (if EmitsWatermark(Candidate(env), old(currentOutputWatermark), old(bundleStarted) || old(pushedBack) != [] || timersDue)
           then Candidate(env) else old(currentOutputWatermark))
      ensures old(effects) <= effects
      ensures currentOutputWatermark >= old(currentOutputWatermark)
    {
      EmitAllPushedBackData();
      ghost var released, startedMid := effects, bundleStarted;
      assert Released(pushedBack) == [];
      fired := ProcessWatermark1(currentInputWatermark, env);
      if cfg.hasKeyCoder {
        TI.FiringNonEmpty(old(timerInternals.registered), InputWatermarkHold(env), fired);
      }
      ReleaseLog(old(effects), if !old(bundleStarted) && old(pushedBack) != [] then StartEffects(cfg) else [],
                 Processed(old(pushedBack)), released,
                 if !startedMid && fired != [] then StartEffects(cfg) else [], OnTimers(fired), effects);
    }

    /** A keyed hold that rose during a callback lets the output watermark advance. */
    method EmitWatermarkIfHoldChanged(currentWatermarkHold: Long, env: Env)
      requires Valid() && KnownTags(env)
      modifies this`bundleStarted, this`elementCount, this`lastFinishBundleTime, this`currentOutputWatermark, this`effects,
               outputManager, outputManager.output
      ensures Valid()
      ensures outputManager.openBuffer == old(outputManager.openBuffer)
      ensures !(cfg.hasKeyCoder && env.minWatermarkHold > currentWatermarkHold
                && EmitsWatermark(Candidate(env), old(currentOutputWatermark), old(bundleStarted))) ==>
        && currentOutputWatermark == old(currentOutputWatermark) && effects == old(effects)
        && bundleStarted == old(bundleStarted) && elementCount == old(elementCount)
        && outputManager.output.emitted == old(outputManager.output.emitted)
      ensures cfg.hasKeyCoder && env.minWatermarkHold > currentWatermarkHold ==>
        currentOutputWatermark ==
          (if EmitsWatermark(Candidate(env), old(currentOutputWatermark), old(bundleStarted))
           then Candidate(env) else old(currentOutputWatermark))
      ensures bundleStarted ==> old(bundleStarted)
      ensures !old(bundleStarted) ==> elementCount == old(elementCount)
      ensures old(effects) <= effects && old(outputManager.output.emitted) <= outputManager.output.emitted
    {
      if cfg.hasKeyCoder {
        var newWatermarkHold := env.minWatermarkHold;
        if newWatermarkHold > currentWatermarkHold {
          ProcessInputWatermark(env, REEVALUATION_DEPTH);
        }
      }
    }

    // ---- elements and the push-back list ----

    /** The push-back runner: processes the element if its side inputs are ready, else hands it back. */
    method ProcessElementInReadyWindows(e: WindowedValue, ready: set<Window>) returns (justPushedBack: seq<WindowedValue>)
      requires Valid()
      modifies this`effects
      ensures Valid()
      ensures justPushedBack == NotReady(cfg.hasSideInputs, ready, [e])
      ensures effects == old(effects) + Processed(ReadyOnes(cfg.hasSideInputs, ready, [e]))
      ensures IsReady(cfg.hasSideInputs, ready, e) <==> justPushedBack == []
    {
      if IsReady(cfg.hasSideInputs, ready, e) {
        effects := effects + [ElementProcessed(e)];
        justPushedBack := [];
      } else {
        justPushedBack := [e];
      }
      assert [e][1..] == [];
    }

    /** Offers every pushed-back element to the push-back runner again, in order, collecting those still not ready. */
    method ReplayPushedBack(ready: set<Window>) returns (newPushedBack: seq<WindowedValue>)
      requires Valid()
      modifies this`effects
      ensures Valid()
      ensures newPushedBack == NotReady(cfg.hasSideInputs, ready, pushedBack)
      ensures effects == old(effects) + Processed(ReadyOnes(cfg.hasSideInputs, ready, pushedBack))
    {
      var elements := pushedBack;
      newPushedBack := [];
      var i := 0;
      while i < |elements|
        invariant 0 <= i <= |elements|
        invariant Valid() && pushedBack == elements
        invariant newPushedBack == NotReady(cfg.hasSideInputs, ready, elements[..i])
        invariant effects == old(effects) + Processed(ReadyOnes(cfg.hasSideInputs, ready, elements[..i]))
      {
        var justPushedBack := ProcessElementInReadyWindows(elements[i], ready);
        ReplayStep(cfg.hasSideInputs, ready, elements, i);
        newPushedBack := newPushedBack + justPushedBack;
        i := i + 1;
      }
      assert elements[..i] == elements;
    }

    /** Appends elements to the push-back list, folding their timestamps into the push-back watermark. */
    method PushBack(vs: seq<WindowedValue>)
      requires Valid() && (cfg.hasSideInputs || vs == [])
      modifies this`pushedBack, this`pushedBackWatermark
      ensures Valid()
      ensures pushedBack == old(pushedBack) + vs
      ensures pushedBackWatermark == MinTimestampFrom(old(pushedBackWatermark), vs)
    {
      var start, startMin := pushedBack, pushedBackWatermark;
      var all, min := start, startMin;
      var i := 0;
      while i < |vs|
        invariant 0 <= i <= |vs|
        invariant min == MinTimestampFrom(startMin, vs[..i])
        invariant all == start + vs[..i]
      {
        MinTimestampFromSnoc(startMin, vs[..i], vs[i]);
        assert vs[..i + 1] == vs[..i] + [vs[i]];
        min := Min(min, vs[i].timestamp);
        all := all + [vs[i]];
        i := i + 1;
      }
      assert vs[..i] == vs;
      MinTimestampAppend(start, vs);
      pushedBack := all;
      pushedBackWatermark := min;
    }

    /** An element on the main input of an operator with side inputs. */
    method ProcessElement1(e: WindowedValue, ready: set<Window>, env: Env)
      requires Valid() && KnownTags(env)
      modifies this`pushedBack, this`pushedBackWatermark,
               this`bundleStarted, this`elementCount, this`lastFinishBundleTime, this`currentOutputWatermark, this`effects,
               outputManager, outputManager.output
      ensures Valid()
      ensures pushedBack == old(pushedBack) + NotReady(cfg.hasSideInputs, ready, [e])
      ensures pushedBackWatermark ==
        (if IsReady(cfg.hasSideInputs, ready, e) then old(pushedBackWatermark) else Min(old(pushedBackWatermark), e.timestamp))
      ensures old(effects) + (if old(bundleStarted) then [] else StartEffects(cfg))
        + Processed(ReadyOnes(cfg.hasSideInputs, ready, [e])) <= effects
      ensures StaysOpenAfterCount(old(elementCount)) ==>
        && bundleStarted && elementCount == CountAfter(old(elementCount))
        && currentOutputWatermark == old(currentOutputWatermark)
        && effects == old(effects) + (if old(bundleStarted) then [] else StartEffects(cfg))
                      + Processed(ReadyOnes(cfg.hasSideInputs, ready, [e]))
      ensures !StaysOpenAfterCount(old(elementCount)) ==>
        && !bundleStarted && elementCount == 0
        && old(effects) + (if old(bundleStarted) then [] else StartEffects(cfg))
           + Processed(ReadyOnes(cfg.hasSideInputs, ready, [e])) + FinishEffects(cfg) <= effects
      ensures currentOutputWatermark >= old(currentOutputWatermark)
      ensures outputManager.openBuffer == old(outputManager.openBuffer)
    {
      CheckInvokeStartBundle();
      ghost var started := effects;
      assert started == old(effects) + (if old(bundleStarted) then [] else StartEffects(cfg));
      OfferMainInput(e, ready);
      ghost var offered := effects;
      assert elementCount == old(elementCount);
      CheckInvokeFinishBundleByCount(env);
      assert offered <= effects;
    }

    /** Offers a main-input element to the push-back runner and pushes it back when its side inputs are not ready. */
    method OfferMainInput(e: WindowedValue, ready: set<Window>)
      requires Valid()
      modifies this`pushedBack, this`pushedBackWatermark, this`effects
      ensures Valid()
      ensures pushedBack == old(pushedBack) + NotReady(cfg.hasSideInputs, ready, [e])
      ensures pushedBackWatermark ==
        (if IsReady(cfg.hasSideInputs, ready, e) then old(pushedBackWatermark) else Min(old(pushedBackWatermark), e.timestamp))
      ensures effects == old(effects) + Processed(ReadyOnes(cfg.hasSideInputs, ready, [e]))
    {
      var justPushedBack := ProcessElementInReadyWindows(e, ready);
      PushBack(justPushedBack);
      assert MinTimestampFrom(old(pushedBackWatermark), [e]) == Min(old(pushedBackWatermark), e.timestamp) by {
        MinTimestampFromSnoc(old(pushedBackWatermark), [], e);
        assert [] + [e] == [e];
      }
    }

    /**
     * A side-input value: finish the bundle, start a new one, add the value,
     * replay the push-back list in order and keep what is still not ready,
     * then propagate the main-input watermark.
     */
    method ProcessElement2(sideInputValue: WindowedValue, ready: set<Window>, env: Env)
      requires Valid() && TimersValid() && KnownTags(env)
      modifies this`currentInputWatermark, this`pushedBack, this`pushedBackWatermark,
               this`bundleStarted, this`elementCount, this`lastFinishBundleTime, this`currentOutputWatermark, this`effects,
               outputManager, outputManager.output, timerInternals
      ensures Valid() && TimersValid()
      ensures currentSideInputWatermark < TIMESTAMP_MAX_VALUE ==>
        pushedBack == NotReady(cfg.hasSideInputs, ready, old(pushedBack))
      ensures currentSideInputWatermark >= TIMESTAMP_MAX_VALUE ==> pushedBack == []
      ensures currentInputWatermark == old(currentInputWatermark)
      ensures old(bundleStarted) ==> old(effects) + FinishEffects(cfg) <= effects
      ensures LongSub(old(lastFinishBundleTime), env.now) <= cfg.options.maxBundleTimeMills ==>
        old(effects) + (if old(bundleStarted) then FinishEffects(cfg) else []) + StartEffects(cfg)
        + [AddSideInputValue(sideInputValue)] + Processed(ReadyOnes(cfg.hasSideInputs, ready, old(pushedBack)))
        <= effects
      ensures LongSub(old(lastFinishBundleTime), env.now) <= cfg.options.maxBundleTimeMills
              && !StaysOpenAfterCount(0) ==>
        old(effects) + (if old(bundleStarted) then FinishEffects(cfg) else []) + StartEffects(cfg)
        + [AddSideInputValue(sideInputValue)] + Processed(ReadyOnes(cfg.hasSideInputs, ready, old(pushedBack)))
        + FinishEffects(cfg) <= effects
      ensures LongSub(old(lastFinishBundleTime), env.now) <= cfg.options.maxBundleTimeMills
              && StaysOpenAfterCount(0) ==>
        && old(effects) + (if old(bundleStarted) then FinishEffects(cfg) else []) + StartEffects(cfg)
           + [AddSideInputValue(sideInputValue)] + Processed(ReadyOnes(cfg.hasSideInputs, ready, old(pushedBack)))
           + Processed(Released(NotReady(cfg.hasSideInputs, ready, old(pushedBack)))) <= effects
        && currentOutputWatermark ==
           (if EmitsWatermark(Candidate(env), old(currentOutputWatermark), true)
            then Candidate(env) else old(currentOutputWatermark))
      ensures old(effects) <= effects
      ensures currentOutputWatermark >= old(currentOutputWatermark)
      ensures outputManager.openBuffer == old(outputManager.openBuffer)
    {
      BeginSideInputBundle(sideInputValue, ready, env);
      ghost var begun := effects;
      var _ := CountAndPropagate(env);
      assert begun <= effects;
    }

    /** The end of a side-input element: count it, then re-run the main-input watermark with the bundle open. */
    method CountAndPropagate(env: Env) returns (fired: seq<TI.Registration>)
      requires Valid() && TimersValid() && bundleStarted && KnownTags(env)
      modifies this`currentInputWatermark, this`pushedBack, this`pushedBackWatermark,
               this`bundleStarted, this`elementCount, this`lastFinishBundleTime, this`currentOutputWatermark, this`effects,
               outputManager, outputManager.output, timerInternals
      ensures Valid() && TimersValid()
      ensures currentSideInputWatermark < TIMESTAMP_MAX_VALUE ==> pushedBack == old(pushedBack)
      ensures currentSideInputWatermark >= TIMESTAMP_MAX_VALUE ==> pushedBack == []
      ensures currentInputWatermark == old(currentInputWatermark)
      ensures !StaysOpenAfterCount(old(elementCount)) ==> old(effects) + FinishEffects(cfg) <= effects
      ensures StaysOpenAfterCount(old(elementCount)) ==>
        && old(effects) + Processed(Released(old(pushedBack))) + OnTimers(fired) <= effects
        && currentOutputWatermark ==
           (if EmitsWatermark(Candidate(env), old(currentOutputWatermark), true)
            then Candidate(env) else old(currentOutputWatermark))
      ensures old(effects) <= effects
      ensures currentOutputWatermark >= old(currentOutputWatermark)
      ensures outputManager.openBuffer == old(outputManager.openBuffer)
    {
      CheckInvokeFinishBundleByCount(env);
      ghost var counted, open, released := effects, bundleStarted, Released(pushedBack);
      fired := ProcessWatermark1(currentInputWatermark, env);
      assert counted <= effects;
      if open {
        OpenBundleLog(counted, Processed(released), OnTimers(fired), effects);
      }
    }

    /** The first half of a side-input element: finish the bundle, start a new one, add the value and replay. */
    method BeginSideInputBundle(sideInputValue: WindowedValue, ready: set<Window>, env: Env)
      requires Valid() && KnownTags(env)
      modifies this`pushedBack, this`pushedBackWatermark,
               this`bundleStarted, this`elementCount, this`lastFinishBundleTime, this`currentOutputWatermark, this`effects,
               outputManager, outputManager.output
      ensures Valid() && bundleStarted && elementCount == 0
      ensures pushedBack == NotReady(cfg.hasSideInputs, ready, old(pushedBack))
      ensures old(bundleStarted) ==> old(effects) + FinishEffects(cfg) <= effects
      ensures LongSub(old(lastFinishBundleTime), env.now) <= cfg.options.maxBundleTimeMills ==>
        currentOutputWatermark == old(currentOutputWatermark)
      ensures LongSub(old(lastFinishBundleTime), env.now) <= cfg.options.maxBundleTimeMills ==>
        effects == old(effects) + (if old(bundleStarted) then FinishEffects(cfg) else []) + StartEffects(cfg)
                   + [AddSideInputValue(sideInputValue)] + Processed(ReadyOnes(cfg.hasSideInputs, ready, old(pushedBack)))
      ensures old(effects) <= effects
      ensures currentOutputWatermark >= old(currentOutputWatermark)
      ensures outputManager.openBuffer == old(outputManager.openBuffer)
    {
      InvokeFinishBundle(env, REEVALUATION_DEPTH);
      ghost var finished := effects;
      CheckInvokeStartBundle();
      ghost var started := effects;
      AddSideInputAndReplay(sideInputValue, ready);
      if LongSub(old(lastFinishBundleTime), env.now) <= cfg.options.maxBundleTimeMills {
        SideInputLog(old(effects), if old(bundleStarted) then FinishEffects(cfg) else [], finished,
                     StartEffects(cfg), started, [AddSideInputValue(sideInputValue)],
                     Processed(ReadyOnes(cfg.hasSideInputs, ready, old(pushedBack))), effects);
      }
      assert old(effects) <= finished <= effects;
    }

    /** Hands the side-input value to the side-input handler, then replays the push-back list in order. */
    method AddSideInputAndReplay(sideInputValue: WindowedValue, ready: set<Window>)
      requires Valid()
      modifies this`pushedBack, this`pushedBackWatermark, this`effects
      ensures Valid()
      ensures pushedBack == NotReady(cfg.hasSideInputs, ready, old(pushedBack))
      ensures effects == old(effects) + [AddSideInputValue(sideInputValue)]
                         + Processed(ReadyOnes(cfg.hasSideInputs, ready, old(pushedBack)))
    {
      effects := effects + [AddSideInputValue(sideInputValue)];
      var newPushedBack := ReplayPushedBack(ready);
      ReplaceRemaining(newPushedBack);
    }

    /** Clears the push-back list and pushes back what is still not ready, recomputing the push-back watermark. */
    method ReplaceRemaining(vs: seq<WindowedValue>)
      requires Valid() && (cfg.hasSideInputs || vs == [])
      modifies this`pushedBack, this`pushedBackWatermark
      ensures Valid() && pushedBack == vs
    {
      pushedBack := [];
      pushedBackWatermark := LONG_MAX;
      PushBack(vs);
    }

    /** Replays every pushed-back element through the DoFn runner, then empties the list. */
    method EmitAllPushedBackData()
      requires Valid()
      modifies this`pushedBack, this`pushedBackWatermark, this`bundleStarted, this`effects,
               outputManager, outputManager.output
      ensures Valid()
      ensures pushedBack == [] && pushedBackWatermark == LONG_MAX
      ensures bundleStarted == (old(bundleStarted) || old(pushedBack) != [])
      ensures effects == old(effects)
        + (if !old(bundleStarted) && old(pushedBack) != [] then StartEffects(cfg) else [])
        + Processed(old(pushedBack))
      ensures old(outputManager.output.emitted) <= outputManager.output.emitted
      ensures outputManager.openBuffer == old(outputManager.openBuffer)
    {
      var elements := pushedBack;
      ghost var effects0, started0, emitted0 := effects, bundleStarted, outputManager.output.emitted;
      var i := 0;
      while i < |elements|
        invariant 0 <= i <= |elements|
        invariant Valid() && pushedBack == elements && pushedBackWatermark == old(pushedBackWatermark)
        invariant bundleStarted == (started0 || i > 0)
        invariant effects == effects0 + (if !started0 && i > 0 then StartEffects(cfg) else []) + Processed(elements[..i])
        invariant emitted0 <= outputManager.output.emitted
        invariant outputManager.openBuffer == old(outputManager.openBuffer)
      {
        ghost var before, startedBefore := effects, bundleStarted;
        ProcessInBundle(elements[i]);
        ReplayLog(effects0, started0, elements, i, before, startedBefore, effects, StartEffects(cfg));
        i := i + 1;
      }
      assert elements[..i] == elements;
      pushedBack := [];
      pushedBackWatermark := LONG_MAX;
    }

    /** Starts a bundle if none is open and hands the element to the DoFn runner. */
    method ProcessInBundle(e: WindowedValue)
      requires Valid()
      modifies this`bundleStarted, this`effects, outputManager, outputManager.output
      ensures Valid() && bundleStarted
      ensures effects == old(effects) + (if old(bundleStarted) then [] else StartEffects(cfg)) + [ElementProcessed(e)]
      ensures old(outputManager.output.emitted) <= outputManager.output.emitted
      ensures outputManager.openBuffer == old(outputManager.openBuffer)
    {
      CheckInvokeStartBundle();
      effects := effects + [ElementProcessed(e)];
    }

    /** An element on the only input: process it, count it, and let a risen keyed hold advance the watermark. */
    method ProcessElement(e: WindowedValue, env: Env, holdAfter: Long)
      requires Valid() && KnownTags(env)
      modifies this`bundleStarted, this`elementCount, this`lastFinishBundleTime, this`currentOutputWatermark, this`effects,
               outputManager, outputManager.output
      ensures Valid()
      ensures var start := if old(bundleStarted) then [] else StartEffects(cfg);
        old(effects) + start + [ElementProcessed(e)] <= effects
      ensures var held := env.(minWatermarkHold := holdAfter);
        var advances := cfg.hasKeyCoder && holdAfter > env.minWatermarkHold
                        && EmitsWatermark(Candidate(held), old(currentOutputWatermark), true);
        StaysOpenAfterCount(old(elementCount)) ==>
          && currentOutputWatermark == (if advances then Candidate(held) else old(currentOutputWatermark))
          && (!advances ==>
                && bundleStarted && elementCount == CountAfter(old(elementCount))
                && effects == old(effects) + (if old(bundleStarted) then [] else StartEffects(cfg)) + [ElementProcessed(e)])
      ensures !StaysOpenAfterCount(old(elementCount)) ==>
        && !bundleStarted && elementCount == 0
        && old(effects) + (if old(bundleStarted) then [] else StartEffects(cfg)) + [ElementProcessed(e)]
           + FinishEffects(cfg) <= effects
      ensures currentOutputWatermark >= old(currentOutputWatermark)
      ensures outputManager.openBuffer == old(outputManager.openBuffer)
    {
      CheckInvokeStartBundle();
      var oldHold := if cfg.hasKeyCoder then env.minWatermarkHold else -1;
      effects := effects + [ElementProcessed(e)];
      var after := env.(minWatermarkHold := holdAfter);
      CountAndRecheckHold(oldHold, after);
    }

    /** The end of an element: count it, then let a keyed hold that rose past `currentWatermarkHold` advance the watermark. */
    method CountAndRecheckHold(currentWatermarkHold: Long, env: Env)
      requires Valid() && bundleStarted && KnownTags(env)
      modifies this`bundleStarted, this`elementCount, this`lastFinishBundleTime, this`currentOutputWatermark, this`effects,
               outputManager, outputManager.output
      ensures Valid()
      ensures outputManager.openBuffer == old(outputManager.openBuffer)
      ensures old(effects) <= effects && currentOutputWatermark >= old(currentOutputWatermark)
      ensures var advances := cfg.hasKeyCoder && env.minWatermarkHold > currentWatermarkHold
                              && EmitsWatermark(Candidate(env), old(currentOutputWatermark), true);
        StaysOpenAfterCount(old(elementCount)) ==>
          && currentOutputWatermark == (if advances then Candidate(env) else old(currentOutputWatermark))
          && (!advances ==> bundleStarted && elementCount == CountAfter(old(elementCount)) && effects == old(effects))
      ensures !StaysOpenAfterCount(old(elementCount)) ==>
        !bundleStarted && elementCount == 0 && old(effects) + FinishEffects(cfg) <= effects
    {
      CheckInvokeFinishBundleByCount(env);
      ghost var counted := effects;
      EmitWatermarkIfHoldChanged(currentWatermarkHold, env);
      assert counted <= effects;
    }

    // ---- timers ----

    /**
     * The timer service advancing its event-time watermark: it takes the
     * earliest due registration off its queue and hands it to onEventTime,
     * until none is due. The keyed hold is read as the callbacks leave it.
     */
    method AdvanceTimerService(watermark: Long, env: Env) returns (fired: seq<TI.Registration>)
      requires Valid() && cfg.hasKeyCoder && timerInternals.Valid() && KnownTags(env)
      modifies this`bundleStarted, this`elementCount, this`lastFinishBundleTime, this`currentOutputWatermark, this`effects,
               outputManager, outputManager.output, timerInternals
      ensures Valid() && timerInternals.Valid()
      ensures TI.FiringOrder(old(timerInternals.registered), watermark, fired)
      ensures timerInternals.State() == TI.FireAllSpec(old(timerInternals.State()), fired)
      ensures bundleStarted == (old(bundleStarted) || fired != [])
      ensures effects == old(effects) + (if !old(bundleStarted) && fired != [] then StartEffects(cfg) else []) + OnTimers(fired)
      ensures currentOutputWatermark == old(currentOutputWatermark)
      ensures old(outputManager.output.emitted) <= outputManager.output.emitted
      ensures outputManager.openBuffer == old(outputManager.openBuffer)
    {
      ghost var s0 := timerInternals.State();
      ghost var effects0, started0 := effects, bundleStarted;
      TI.AdvanceStart(s0, watermark);
      assert effects == effects0 + [] + OnTimers([]);
      fired := FireDueTimers(watermark, env, s0, effects0, started0);
      TI.FiringComplete(s0.registered, watermark, fired, timerInternals.registered);
    }

    /** Part way through an advance from `s0`: the state, the order so far and the log after firing `fired`. */
    ghost predicate AdvancedSoFar(watermark: Long, s0: TI.TimerState, fired: seq<TI.Registration>,
                                  effects0: seq<Effect>, started0: bool)
      reads this`bundleStarted, this`effects, timerInternals
      requires timerInternals != null
    {
      && timerInternals.State() == TI.FireAllSpec(s0, fired)
      && TI.FiredSoFar(s0.registered, watermark, fired, timerInternals.registered)
      && bundleStarted == (started0 || fired != [])
      && effects == effects0 + (if !started0 && fired != [] then StartEffects(cfg) else []) + OnTimers(fired)
    }

    /** The loop of an advance: fire the earliest due registration until none is due. */
    method FireDueTimers(watermark: Long, env: Env, ghost s0: TI.TimerState, ghost effects0: seq<Effect>,
                         ghost started0: bool) returns (fired: seq<TI.Registration>)
      requires Valid() && cfg.hasKeyCoder && timerInternals.Valid() && KnownTags(env)
      requires AdvancedSoFar(watermark, s0, [], effects0, started0)
      modifies this`bundleStarted, this`elementCount, this`lastFinishBundleTime, this`currentOutputWatermark, this`effects,
               outputManager, outputManager.output, timerInternals
      ensures Valid() && timerInternals.Valid()
      ensures AdvancedSoFar(watermark, s0, fired, effects0, started0)
      ensures TI.DueEventTimers(timerInternals.registered, watermark) == {}
      ensures currentOutputWatermark == old(currentOutputWatermark)
      ensures old(outputManager.output.emitted) <= outputManager.output.emitted
      ensures outputManager.openBuffer == old(outputManager.openBuffer)
    {
      fired := [];
      var due := TI.DueEventTimers(timerInternals.registered, watermark);
      while due != {}
        invariant Valid() && timerInternals.Valid()
        invariant due == TI.DueEventTimers(timerInternals.registered, watermark)
        invariant AdvancedSoFar(watermark, s0, fired, effects0, started0)
        invariant currentOutputWatermark == old(currentOutputWatermark)
        invariant old(outputManager.output.emitted) <= outputManager.output.emitted
        invariant outputManager.openBuffer == old(outputManager.openBuffer)
        decreases |timerInternals.registered|
      {
        var r := FireEarliestDue(watermark, env, s0, fired, effects0, started0);
        fired := fired + [r];
        due := TI.DueEventTimers(timerInternals.registered, watermark);
      }
    }

    /**
     * One step of an advance: the earliest due event-time registration goes
     * to onEventTime. `s0`, `fired`, `effects0` and `started0` are the
     * advance so far: the timer state and log it started from, what it fired.
     */
    method FireEarliestDue(watermark: Long, env: Env, ghost s0: TI.TimerState, ghost fired: seq<TI.Registration>,
                           ghost effects0: seq<Effect>, ghost started0: bool) returns (r: TI.Registration)
      requires Valid() && cfg.hasKeyCoder && timerInternals.Valid() && KnownTags(env)
      requires TI.DueEventTimers(timerInternals.registered, watermark) != {}
      requires AdvancedSoFar(watermark, s0, fired, effects0, started0)
      modifies this`bundleStarted, this`elementCount, this`lastFinishBundleTime, this`currentOutputWatermark, this`effects,
               outputManager, outputManager.output, timerInternals
      ensures Valid() && timerInternals.Valid()
      ensures AdvancedSoFar(watermark, s0, fired + [r], effects0, started0)
      ensures |timerInternals.registered| < |old(timerInternals.registered)|
      ensures currentOutputWatermark == old(currentOutputWatermark)
      ensures old(outputManager.output.emitted) <= outputManager.output.emitted
      ensures outputManager.openBuffer == old(outputManager.openBuffer)
    {
      r := TI.EarliestDue(timerInternals.registered, watermark);
      ghost var s := timerInternals.State();
      TI.FiringStep(s0.registered, watermark, fired, s.registered, r);
      TI.FireAllSnoc(s0, fired, r);
      TI.TakeShrinks(s.registered, r);
      ghost var before := effects;
      OnEventTime(r, env, env.minWatermarkHold);
      assert timerInternals.State() == TI.FireSpec(s, r);
      FiringLog(effects0, started0, fired, r, before, effects, StartEffects(cfg));
    }

    /** The timer service fired an event-time timer it took off its queue. */
    method OnEventTime(r: TI.Registration, env: Env, holdAfter: Long)
      requires Valid() && cfg.hasKeyCoder && timerInternals.Valid() && KnownTags(env)
      requires r in timerInternals.registered && r.queue == TI.EventTimeQueue
      modifies this`bundleStarted, this`elementCount, this`lastFinishBundleTime, this`currentOutputWatermark, this`effects,
               outputManager, outputManager.output, timerInternals
      ensures Valid() && timerInternals.Valid()
      ensures timerInternals.State() == TI.FireSpec(old(timerInternals.State()), r)
      ensures var start := if old(bundleStarted) then [] else StartEffects(cfg);
        old(effects) + start + [OnTimer(r.timer)] <= effects
      ensures holdAfter <= env.minWatermarkHold ==>
        && bundleStarted
        && effects == old(effects) + (if old(bundleStarted) then [] else StartEffects(cfg)) + [OnTimer(r.timer)]
        && currentOutputWatermark == old(currentOutputWatermark)
      ensures currentOutputWatermark >= old(currentOutputWatermark)
      ensures old(outputManager.output.emitted) <= outputManager.output.emitted
      ensures outputManager.openBuffer == old(outputManager.openBuffer)
    {
      TI.FireRemovesEntryAndHold(timerInternals.State(), r);
      timerInternals.Poll(r);
      CheckInvokeStartBundle();
      FireTimerInternal(r.timer, env, holdAfter);
    }

    /** The timer service fired a processing-time timer it took off its queue. */
    method OnProcessingTime(r: TI.Registration, env: Env, holdAfter: Long)
      requires Valid() && cfg.hasKeyCoder && timerInternals.Valid() && KnownTags(env)
      requires r in timerInternals.registered && r.queue == TI.ProcessingTimeQueue
      modifies this`bundleStarted, this`elementCount, this`lastFinishBundleTime, this`currentOutputWatermark, this`effects,
               outputManager, outputManager.output, timerInternals
      ensures Valid() && timerInternals.Valid()
      ensures timerInternals.State() == TI.FireSpec(old(timerInternals.State()), r)
      ensures var start := if old(bundleStarted) then [] else StartEffects(cfg);
        old(effects) + start + [OnTimer(r.timer)] <= effects
      ensures holdAfter <= env.minWatermarkHold ==>
        && bundleStarted
        && effects == old(effects) + (if old(bundleStarted) then [] else StartEffects(cfg)) + [OnTimer(r.timer)]
        && currentOutputWatermark == old(currentOutputWatermark)
      ensures currentOutputWatermark >= old(currentOutputWatermark)
      ensures outputManager.openBuffer == old(outputManager.openBuffer)
    {
      TI.FireRemovesEntryAndHold(timerInternals.State(), r);
      timerInternals.Poll(r);
      CheckInvokeStartBundle();
      FireTimerInternal(r.timer, env, holdAfter);
    }

    /** Fires the timer and lets a risen keyed hold advance the watermark. */
    method FireTimerInternal(timer: TI.TimerData, env: Env, holdAfter: Long)
      requires Valid() && bundleStarted && cfg.hasKeyCoder && KnownTags(env)
      modifies this`bundleStarted, this`elementCount, this`lastFinishBundleTime, this`currentOutputWatermark, this`effects,
               outputManager, outputManager.output, timerInternals
      ensures Valid()
      ensures timerInternals.State() == TI.OnFiredOrDeletedSpec(old(timerInternals.State()), timer)
      ensures old(effects) + [OnTimer(timer)] <= effects
      ensures holdAfter <= env.minWatermarkHold ==>
        && bundleStarted && effects == old(effects) + [OnTimer(timer)]
        && currentOutputWatermark == old(currentOutputWatermark)
        && outputManager.output.emitted == old(outputManager.output.emitted)
      ensures currentOutputWatermark >= old(currentOutputWatermark)
      ensures old(outputManager.output.emitted) <= outputManager.output.emitted
      ensures outputManager.openBuffer == old(outputManager.openBuffer)
    {
      var oldHold := env.minWatermarkHold;
      FireTimer(timer);
      ghost var afterTimer := effects;
      EmitWatermarkIfHoldChanged(oldHold, env.(minWatermarkHold := holdAfter));
      assert afterTimer <= effects;
    }

    /** Cleans up the index entry and hold of the timer, then runs the DoFn's timer callback. */
    method FireTimer(timer: TI.TimerData)
      requires cfg.hasKeyCoder && timerInternals != null
      modifies this`effects, timerInternals
      ensures timerInternals.State() == TI.OnFiredOrDeletedSpec(old(timerInternals.State()), timer)
      ensures effects == old(effects) + [OnTimer(timer)]
    {
      timerInternals.OnFiredOrDeletedTimer(timer);
      effects := effects + [OnTimer(timer)];
    }

    // ---- checkpoints ----

    /** With finishBundleBeforeCheckpointing, the bundle is finished before the barrier so nothing is buffered. */
    method PrepareSnapshotPreBarrier(checkpointId: Long, env: Env)
      requires Valid() && KnownTags(env)
      modifies this`bundleStarted, this`elementCount, this`lastFinishBundleTime, this`currentOutputWatermark, this`effects,
               outputManager, outputManager.output
      ensures Valid()
      ensures outputManager.openBuffer == old(outputManager.openBuffer)
      ensures cfg.options.finishBundleBeforeCheckpointing && old(bundleStarted) && !Buffering() ==>
        old(outputManager.output.emitted) + Routed(outputManager.mainTag, env.finishOutputs)
        <= outputManager.output.emitted
      ensures cfg.options.finishBundleBeforeCheckpointing ==>
        !bundleStarted && (old(bundleStarted) ==> old(effects) + FinishEffects(cfg) <= effects)
      ensures !cfg.options.finishBundleBeforeCheckpointing ==>
        effects == old(effects) && bundleStarted == old(bundleStarted)
        && outputManager.output.emitted == old(outputManager.output.emitted)
      ensures old(effects) <= effects && currentOutputWatermark >= old(currentOutputWatermark)
    {
      if cfg.options.finishBundleBeforeCheckpointing {
        FinishBundleFully(env);
        ghost var finished := outputManager.output.emitted;
        UpdateOutputWatermark(env);
        assert finished <= outputManager.output.emitted;
      }
    }

    /**
     * Stores the finalizations taken since the last snapshot under the
     * checkpoint id, evicting the oldest ids beyond 32, then finishes the
     * open bundle with the output buffered (the barrier is already downstream).
     */
    method SnapshotState(checkpointId: Long, env: Env)
      requires Valid() && KnownTags(env)
      modifies this`bundleFinalizations, this`pendingFinalizations,
               this`bundleStarted, this`elementCount, this`lastFinishBundleTime, this`currentOutputWatermark, this`effects,
               outputManager, outputManager.output
      ensures Valid()
      ensures pendingFinalizations == F.Snapshot(old(pendingFinalizations), checkpointId, old(bundleFinalizations))
      ensures bundleFinalizations == []
      ensures !bundleStarted && !outputManager.openBuffer
      ensures outputManager.bufferedOutputs
        == old(outputManager.bufferedOutputs) + (if old(bundleStarted) && cfg.options.isStreaming then env.finishOutputs else [])
      ensures cfg.options.isStreaming && LongSub(old(lastFinishBundleTime), env.now) <= cfg.options.maxBundleTimeMills ==>
        outputManager.output.emitted == old(outputManager.output.emitted)
      ensures !cfg.options.isStreaming && old(bundleStarted) ==>
        old(outputManager.output.emitted) + Routed(outputManager.mainTag, env.finishOutputs) <= outputManager.output.emitted
      ensures var marker := if cfg.requiresStableInput then [StableInputCheckpoint(checkpointId)] else [];
        old(effects) + marker + (if old(bundleStarted) then FinishEffects(cfg) else []) <= effects
      ensures currentOutputWatermark >= old(currentOutputWatermark)
      ensures old(outputManager.output.emitted) <= outputManager.output.emitted
    {
      if cfg.requiresStableInput {
        effects := effects + [StableInputCheckpoint(checkpointId)];
      }
      SnapshotFinalizations(checkpointId);
      FinishBundleBuffered(env);
    }

    /**
     * Moves the finalizations taken since the last snapshot into the pending
     * map under the checkpoint id, first evicting oldest entries through the
     * key iterator while the map holds 32 or more.
     */
    method SnapshotFinalizations(checkpointId: Long)
      requires FinalizationsValid()
      modifies this`bundleFinalizations, this`pendingFinalizations
      ensures FinalizationsValid()
      ensures pendingFinalizations == F.Snapshot(old(pendingFinalizations), checkpointId, old(bundleFinalizations))
      ensures bundleFinalizations == []
    {
      var start, taken := pendingFinalizations, bundleFinalizations;
      var ring := start;
      var diff := |ring.order| - F.MAX_PENDING;
      if diff >= 0 {
        var removed := 0;
        while diff >= 0
          invariant 0 <= removed <= |start.order| - (F.MAX_PENDING - 1)
          invariant diff == |start.order| - F.MAX_PENDING - removed
          invariant ring == F.DropOldest(start, removed)
          decreases diff
        {
          F.DropOldestStep(start, removed);
          ring := F.DropOldest(ring, 1);
          removed := removed + 1;
          diff := diff - 1;
        }
      }
      assert ring == F.Evict(start);
      F.SnapshotBounded(start, checkpointId, taken);
      pendingFinalizations := F.Put(ring, checkpointId, taken);
      bundleFinalizations := [];
    }

    /** Finishes the open bundle while the output manager holds everything it emits back. */
    method FinishBundleBuffered(env: Env)
      requires Valid() && KnownTags(env)
      modifies this`bundleStarted, this`elementCount, this`lastFinishBundleTime, this`currentOutputWatermark, this`effects,
               outputManager, outputManager.output
      ensures Valid() && !bundleStarted && !outputManager.openBuffer
      ensures outputManager.bufferedOutputs
        == old(outputManager.bufferedOutputs) + (if old(bundleStarted) && cfg.options.isStreaming then env.finishOutputs else [])
      ensures cfg.options.isStreaming && LongSub(old(lastFinishBundleTime), env.now) <= cfg.options.maxBundleTimeMills ==>
        outputManager.output.emitted == old(outputManager.output.emitted)
      ensures !cfg.options.isStreaming && old(bundleStarted) ==>
        old(outputManager.output.emitted) + Routed(outputManager.mainTag, env.finishOutputs) <= outputManager.output.emitted
      ensures old(bundleStarted) ==> old(effects) + FinishEffects(cfg) <= effects
      ensures old(effects) <= effects && currentOutputWatermark >= old(currentOutputWatermark)
      ensures old(outputManager.output.emitted) <= outputManager.output.emitted
    {
      outputManager.OpenBuffer();
      FinishBundleFully(env);
      outputManager.CloseBuffer();
    }

    /** Releases stable input, then removes the checkpoint's finalizations and runs each callback once. */
    method NotifyCheckpointComplete(checkpointId: Long, env: Env)
      requires Valid() && KnownTags(env)
      modifies this`pendingFinalizations,
               this`bundleStarted, this`elementCount, this`lastFinishBundleTime, this`currentOutputWatermark, this`effects,
               outputManager, outputManager.output
      ensures Valid()
      ensures pendingFinalizations == F.Take(old(pendingFinalizations), checkpointId).0
      ensures var callbacks := match F.Take(old(pendingFinalizations), checkpointId).1
                               case None => [] case Some(fs) => Successes(fs);
        && |callbacks| <= |effects|
        && effects[|effects| - |callbacks|..] == callbacks
        && (!cfg.requiresStableInput ==> effects == old(effects) + callbacks)
      ensures cfg.requiresStableInput ==> old(effects) + [StableInputCheckpointCompleted(checkpointId)] <= effects
      ensures old(effects) <= effects && currentOutputWatermark >= old(currentOutputWatermark)
    {
      if cfg.requiresStableInput {
        effects := effects + [StableInputCheckpointCompleted(checkpointId)];
        UpdateOutputWatermark(env);
      }
      F.TakeRemovesOnlyId(pendingFinalizations, checkpointId);
      var (ring, found) := F.Take(pendingFinalizations, checkpointId);
      pendingFinalizations := ring;
      if found.Some? {
        RunFinalizations(found.value);
      }
    }

    /** Runs each finalization callback once, in the order they were registered. */
    method RunFinalizations(finalizations: seq<F.Finalization>)
      modifies this`effects
      ensures effects == old(effects) + Successes(finalizations)
    {
      var i := 0;
      while i < |finalizations|
        invariant 0 <= i <= |finalizations|
        invariant effects == old(effects) + Successes(finalizations[..i])
      {
        assert finalizations[..i + 1] == finalizations[..i] + [finalizations[i]];
        SuccessesAppend(finalizations[..i], [finalizations[i]]);
        effects := effects + [BundleSuccess(finalizations[i])];
        i := i + 1;
      }
      assert finalizations[..i] == finalizations;
    }

    /** The middle of a drain: finish the bundle, then release stable input when configured. */
    method FinishAndReleaseStableInput(env: Env)
      requires Valid() && KnownTags(env)
      modifies this`bundleStarted, this`elementCount, this`lastFinishBundleTime, this`currentOutputWatermark, this`effects,
               outputManager, outputManager.output
      ensures Valid() && !bundleStarted
      ensures old(effects) <= effects && currentOutputWatermark >= old(currentOutputWatermark)
      ensures old(bundleStarted) ==> old(effects) + FinishEffects(cfg) <= effects
      ensures LongSub(old(lastFinishBundleTime), env.now) <= cfg.options.maxBundleTimeMills
              && cfg.requiresStableInput && cfg.options.enableStableInputDrain ==>
        && old(effects) + (if old(bundleStarted) then FinishEffects(cfg) else [])
           + [StableInputCheckpointCompleted(LONG_MAX)] <= effects
        && currentOutputWatermark ==
           (if EmitsWatermark(Candidate(env), old(currentOutputWatermark), false)
            then Candidate(env) else old(currentOutputWatermark))
      ensures LongSub(old(lastFinishBundleTime), env.now) <= cfg.options.maxBundleTimeMills
              && !(cfg.requiresStableInput && cfg.options.enableStableInputDrain) ==>
        && effects == old(effects) + (if old(bundleStarted) then FinishEffects(cfg) else [])
        && currentOutputWatermark == old(currentOutputWatermark)
    {
      FinishBundleFully(env);
      if cfg.requiresStableInput && cfg.options.enableStableInputDrain {
        ghost var finished := effects;
        effects := effects + [StableInputCheckpointCompleted(LONG_MAX)];
        ghost var released := effects;
        UpdateOutputWatermark(env);
        assert old(effects) <= finished <= released <= effects;
      }
    }

    /**
     * Drain at shutdown: push the final watermark, finish the bundle, release
     * stable input when configured, and fail when holds or pushed-back data
     * remain.
     */
    method FlushData(env: Env) returns (r: DrainResult)
      requires Valid() && TimersValid() && KnownTags(env)
      modifies this`currentInputWatermark, this`pushedBack, this`pushedBackWatermark,
               this`bundleStarted, this`elementCount, this`lastFinishBundleTime, this`currentOutputWatermark, this`effects,
               outputManager, outputManager.output, timerInternals
      ensures Valid() && TimersValid()
      ensures !bundleStarted
      ensures r == Drained ==> currentOutputWatermark == LONG_MAX && pushedBack == []
      ensures r.WatermarkHoldsLeft? ==> r.outputWatermark == currentOutputWatermark < LONG_MAX
      ensures r.LeftoverPushedBack? ==> currentSideInputWatermark < TIMESTAMP_MAX_VALUE && r.count == |pushedBack| > 0
      ensures ((!cfg.hasKeyCoder || env.minWatermarkHold == LONG_MAX)
               && (!cfg.requiresStableInput || env.bufferingHold == LONG_MAX)
               && (old(pushedBack) == [] || currentSideInputWatermark >= TIMESTAMP_MAX_VALUE)) ==>
        currentOutputWatermark == LONG_MAX && !r.WatermarkHoldsLeft?
      ensures old(effects) <= effects && currentOutputWatermark >= old(currentOutputWatermark)
    {
      var _ := ProcessWatermark1(LONG_MAX, env);
      ghost var e1, w1 := effects, currentOutputWatermark;
      FinishAndReleaseStableInput(env);
      assert old(effects) <= e1 <= effects && old(currentOutputWatermark) <= w1 <= currentOutputWatermark;
      if currentOutputWatermark < LONG_MAX {
        return WatermarkHoldsLeft(currentOutputWatermark);
      }
      if cfg.hasSideInputs && |pushedBack| > 0 {
        return LeftoverPushedBack(|pushedBack|);
      }
      return Drained;
    }
  }

  /** Processing one sequence of elements and then another is processing their concatenation. */
  lemma {:induction false} ProcessedAppend(a: seq<WindowedValue>, b: seq<WindowedValue>)
    ensures Processed(a + b) == Processed(a) + Processed(b)
    decreases |a|
  {
    if a == [] {
      assert a + b == b;
    } else {
      assert (a + b)[1..] == a[1..] + b;
      ProcessedAppend(a[1..], b);
    }
  }

  /** A log extended in two steps starts with both extensions. */
  lemma LogExtends(log0: seq<Effect>, a: seq<Effect>, b: seq<Effect>, mid: seq<Effect>,
                   c: seq<Effect>, d: seq<Effect>, log: seq<Effect>)
    requires mid == log0 + a + b
    requires mid + c + d <= log
    ensures log0 + a + b + c + d <= log
    ensures log0 <= mid <= log
  {
  }

  /** The log of a release at the end of time: the pushed-back elements, then the timers the re-run fires. */
  lemma ReleaseLog(log0: seq<Effect>, start: seq<Effect>, released: seq<Effect>, mid: seq<Effect>,
                   startTimers: seq<Effect>, timers: seq<Effect>, log: seq<Effect>)
    requires mid == log0 + start + released
    requires mid + [] + Processed([]) + startTimers + timers <= log
    ensures log0 + start + released + startTimers + timers <= log
    ensures log0 <= mid <= log
  {
    assert Processed([]) == [];
  }

  /** With the bundle already open, neither the release nor the timers log a bundle start. */
  lemma OpenBundleLog(log0: seq<Effect>, released: seq<Effect>, timers: seq<Effect>, log: seq<Effect>)
    requires log0 + [] + released + [] + timers <= log
    ensures log0 + released + timers <= log
  {
  }

  /** The log of a side-input element: finish, start, the value handed over, the replayed elements. */
  lemma SideInputLog(log0: seq<Effect>, finish: seq<Effect>, finished: seq<Effect>, start: seq<Effect>,
                     started: seq<Effect>, add: seq<Effect>, replayed: seq<Effect>, log: seq<Effect>)
    requires finished == log0 + finish
    requires started == finished + start
    requires log == started + add + replayed
    ensures log == log0 + finish + start + add + replayed
  {
  }

  /** The log of a replay grows by the bundle start, if one is needed, and the next element. */
  lemma ReplayLog(log0: seq<Effect>, started0: bool, elements: seq<WindowedValue>, i: nat,
                  before: seq<Effect>, startedBefore: bool, after: seq<Effect>, start: seq<Effect>)
    requires i < |elements| && startedBefore == (started0 || i > 0)
    requires before == log0 + (if !started0 && i > 0 then start else []) + Processed(elements[..i])
    requires after == before + (if startedBefore then [] else start) + [ElementProcessed(elements[i])]
    ensures after == log0 + (if !started0 && i + 1 > 0 then start else []) + Processed(elements[..i + 1])
  {
    assert elements[..i + 1] == elements[..i] + [elements[i]];
    ProcessedAppend(elements[..i], [elements[i]]);
    assert Processed([elements[i]]) == [ElementProcessed(elements[i])];
  }

  /** The log of an advance grows by the bundle start, if one is needed, and the next timer callback. */
  lemma FiringLog(log0: seq<Effect>, started0: bool, fired: seq<TI.Registration>, r: TI.Registration,
                  before: seq<Effect>, after: seq<Effect>, start: seq<Effect>)
    requires before == log0 + (if !started0 && fired != [] then start else []) + OnTimers(fired)
    requires after == before + (if started0 || fired != [] then [] else start) + [OnTimer(r.timer)]
    ensures after == log0 + (if !started0 && fired + [r] != [] then start else []) + OnTimers(fired + [r])
  {
    OnTimersSnoc(fired, r);
    if !started0 && fired == [] {
      assert OnTimers(fired + [r]) == [OnTimer(r.timer)];
    }
  }

  lemma OnTimersSnoc(rs: seq<TI.Registration>, r: TI.Registration)
    ensures OnTimers(rs + [r]) == OnTimers(rs) + [OnTimer(r.timer)]
  {
    assert forall i :: 0 <= i < |rs| ==> (rs + [r])[i] == rs[i];
  }

  /** Running the callbacks of one list and then another is running those of their concatenation. */
  lemma {:induction false} SuccessesAppend(a: seq<F.Finalization>, b: seq<F.Finalization>)
    ensures Successes(a + b) == Successes(a) + Successes(b)
    decreases |a|
  {
    if a == [] {
      assert a + b == b;
    } else {
      assert (a + b)[1..] == a[1..] + b;
      SuccessesAppend(a[1..], b);
    }
  }

  /**
   * Replaying splits the elements without losing or duplicating any: every
   * occurrence is either processed or pushed back again, according to
   * whether its side inputs are ready.
   */
  lemma {:induction false} SplitMembership(hasSideInputs: bool, ready: set<Window>, es: seq<WindowedValue>)
    ensures multiset(ReadyOnes(hasSideInputs, ready, es)) + multiset(NotReady(hasSideInputs, ready, es)) == multiset(es)
    ensures |ReadyOnes(hasSideInputs, ready, es)| + |NotReady(hasSideInputs, ready, es)| == |es|
    decreases |es|
  {
    if es != [] {
      SplitMembership(hasSideInputs, ready, es[1..]);
      assert es == [es[0]] + es[1..];
      assert multiset(es) == multiset{es[0]} + multiset(es[1..]);
    }
  }

  /**
   * Which elements are replayed and which are pushed back again: an element
   * is processed exactly when its side inputs are ready.
   */
  lemma {:induction false} SplitByReadiness(hasSideInputs: bool, ready: set<Window>, es: seq<WindowedValue>)
    ensures forall e :: e in ReadyOnes(hasSideInputs, ready, es) <==> e in es && IsReady(hasSideInputs, ready, e)
    ensures forall e :: e in NotReady(hasSideInputs, ready, es) <==> e in es && !IsReady(hasSideInputs, ready, e)
    decreases |es|
  {
    if es != [] {
      SplitByReadiness(hasSideInputs, ready, es[1..]);
      assert forall e :: e in es <==> e == es[0] || e in es[1..];
    }
  }

  /** One step of the replay loop: the prefix grows by one element and both parts by what it contributes. */
  lemma ReplayStep(hasSideInputs: bool, ready: set<Window>, es: seq<WindowedValue>, i: nat)
    requires i < |es|
    ensures NotReady(hasSideInputs, ready, es[..i + 1])
            == NotReady(hasSideInputs, ready, es[..i]) + NotReady(hasSideInputs, ready, [es[i]])
    ensures Processed(ReadyOnes(hasSideInputs, ready, es[..i + 1]))
            == Processed(ReadyOnes(hasSideInputs, ready, es[..i])) + Processed(ReadyOnes(hasSideInputs, ready, [es[i]]))
  {
    assert es[..i + 1] == es[..i] + [es[i]];
    NotReadyAppend(hasSideInputs, ready, es[..i], es[i]);
    ReadyOnesAppend(hasSideInputs, ready, es[..i], es[i]);
    ProcessedAppend(ReadyOnes(hasSideInputs, ready, es[..i]), ReadyOnes(hasSideInputs, ready, [es[i]]));
  }

  /** Offering one more element extends the pushed-back part by what that element contributes. */
  lemma {:induction false} NotReadyAppend(hasSideInputs: bool, ready: set<Window>, es: seq<WindowedValue>, e: WindowedValue)
    ensures NotReady(hasSideInputs, ready, es + [e]) == NotReady(hasSideInputs, ready, es) + NotReady(hasSideInputs, ready, [e])
    decreases |es|
  {
    if es != [] {
      NotReadyAppend(hasSideInputs, ready, es[1..], e);
      assert (es + [e])[0] == es[0];
      assert (es + [e])[1..] == es[1..] + [e];
    } else {
      assert es + [e] == [e];
    }
  }

  /** Offering one more element extends the processed part by what that element contributes. */
  lemma {:induction false} ReadyOnesAppend(hasSideInputs: bool, ready: set<Window>, es: seq<WindowedValue>, e: WindowedValue)
    ensures ReadyOnes(hasSideInputs, ready, es + [e]) == ReadyOnes(hasSideInputs, ready, es) + ReadyOnes(hasSideInputs, ready, [e])
    decreases |es|
  {
    if es != [] {
      ReadyOnesAppend(hasSideInputs, ready, es[1..], e);
      assert (es + [e])[0] == es[0];
      assert (es + [e])[1..] == es[1..] + [e];
    } else {
      assert es + [e] == [e];
    }
  }


}
