/**
 * The operator's watermark arithmetic: the effective input watermark, the
 * output-watermark candidate, and the order in which watermarks appear in
 * what the operator sends downstream.
 */
module Watermarks {
  import opened Timestamps
  import opened BufferedOutput

  /**
   * getEffectiveInputWatermark: the input watermark held back by the
   * pushed-back elements and, with stable input, by the buffered elements.
   */
  function EffectiveInputWatermark(pushedBackWatermark: Long, requiresStableInput: bool,
                                   bufferingHold: Long, currentInputWatermark: Long): (r: Long)
    ensures r <= pushedBackWatermark && r <= currentInputWatermark
    ensures requiresStableInput ==> r <= bufferingHold
    ensures r == pushedBackWatermark || r == currentInputWatermark || (requiresStableInput && r == bufferingHold)
  {
    var combined := if requiresStableInput then Min(pushedBackWatermark, bufferingHold) else pushedBackWatermark;
    Min(combined, currentInputWatermark)
  }

  /**
   * computeOutputWatermark: for a keyed operator, the held input watermark is
   * further held by the smallest watermark hold of the keyed state.
   */
  function ComputeOutputWatermark(hasKeyCoder: bool, minWatermarkHold: Long, inputWatermarkHold: Long): (r: Long)
    ensures r <= inputWatermarkHold
    ensures hasKeyCoder ==> r <= minWatermarkHold && (r == minWatermarkHold || r == inputWatermarkHold)
    ensures !hasKeyCoder ==> r == inputWatermarkHold
  {
    if hasKeyCoder then Min(minWatermarkHold, inputWatermarkHold) else inputWatermarkHold
  }

  /** The candidate processInputWatermark hands to maybeEmitWatermark (both hooks are the identity). */
  function OutputWatermarkCandidate(pushedBackWatermark: Long, requiresStableInput: bool, bufferingHold: Long,
                                    currentInputWatermark: Long, hasKeyCoder: bool, minWatermarkHold: Long): Long
  {
    ComputeOutputWatermark(hasKeyCoder, minWatermarkHold,
      EffectiveInputWatermark(pushedBackWatermark, requiresStableInput, bufferingHold, currentInputWatermark))
  }

  /**
   * The candidate is the minimum of the pushed-back watermark, the buffering
   * hold (only with stable input), the input watermark and the keyed minimum
   * hold (only for a keyed operator): a lower bound of those that is one of them.
   */
  lemma CandidateIsMinimum(pushedBackWatermark: Long, requiresStableInput: bool, bufferingHold: Long,
                           currentInputWatermark: Long, hasKeyCoder: bool, minWatermarkHold: Long)
    ensures var c := OutputWatermarkCandidate(pushedBackWatermark, requiresStableInput, bufferingHold,
                                              currentInputWatermark, hasKeyCoder, minWatermarkHold);
      && c <= pushedBackWatermark && c <= currentInputWatermark
      && (requiresStableInput ==> c <= bufferingHold)
      && (hasKeyCoder ==> c <= minWatermarkHold)
      && (c == pushedBackWatermark || c == currentInputWatermark
          || (requiresStableInput && c == bufferingHold) || (hasKeyCoder && c == minWatermarkHold))
  {
    var e := EffectiveInputWatermark(pushedBackWatermark, requiresStableInput, bufferingHold, currentInputWatermark);
    assert e == pushedBackWatermark || e == currentInputWatermark || (requiresStableInput && e == bufferingHold);
  }

  /** The candidate never decreases when any of its inputs rises. */
  lemma CandidateMonotone(p1: Long, p2: Long, stable: bool, b1: Long, b2: Long,
                          i1: Long, i2: Long, keyed: bool, h1: Long, h2: Long)
    requires p1 <= p2 && b1 <= b2 && i1 <= i2 && h1 <= h2
    ensures OutputWatermarkCandidate(p1, stable, b1, i1, keyed, h1)
         <= OutputWatermarkCandidate(p2, stable, b2, i2, keyed, h2)
  {
    CandidateIsMinimum(p1, stable, b1, i1, keyed, h1);
    CandidateIsMinimum(p2, stable, b2, i2, keyed, h2);
  }

  /**
   * The watermarks in `es` appear in non-decreasing order and none exceeds
   * `bound`, the operator's current output watermark.
   */
  ghost predicate WatermarksNonDecreasing(es: seq<Emission>, bound: Long) {
    && (forall i :: 0 <= i < |es| && es[i].WatermarkMark? ==> es[i].timestamp <= bound)
    && (forall i, j :: 0 <= i < j < |es| && es[i].WatermarkMark? && es[j].WatermarkMark? ==>
          es[i].timestamp <= es[j].timestamp)
  }

  ghost predicate NoWatermarks(es: seq<Emission>) {
    forall i :: 0 <= i < |es| ==> !es[i].WatermarkMark?
  }

  /** Records sent downstream never disturb the order of the watermarks. */
  lemma AppendRecords(es: seq<Emission>, bound: Long, rs: seq<Emission>)
    requires WatermarksNonDecreasing(es, bound) && NoWatermarks(rs)
    ensures WatermarksNonDecreasing(es + rs, bound)
  {
  }

  /** Flushing the output buffer only sends records. */
  lemma {:induction false} RoutedHasNoWatermarks(mainTag: Tag, outs: seq<(Tag, WindowedValues.WindowedValue)>)
    ensures NoWatermarks(Routed(mainTag, outs))
    decreases |outs|
  {
    if outs != [] {
      RoutedHasNoWatermarks(mainTag, outs[1..]);
      var es := Routed(mainTag, outs);
      forall i | 1 <= i < |es|
        ensures !es[i].WatermarkMark?
      {
        assert es[i] == Routed(mainTag, outs[1..])[i - 1];
      }
    }
  }

  /** Emitting a watermark no smaller than the current one keeps the order, with the new one as bound. */
  lemma AppendWatermark(es: seq<Emission>, bound: Long, w: Long)
    requires WatermarksNonDecreasing(es, bound) && bound <= w
    ensures WatermarksNonDecreasing(es + [WatermarkMark(w)], w)
  {
  }
}
