/**
 * Elements flowing through the operator and the write transforms: a payload
 * with an event-time timestamp, the window it belongs to and its pane.
 * Elements here are already exploded to a single window each.
 */
module WindowedValues {
  import opened Timestamps

  datatype Window = GlobalWindow | IntervalWindow(start: Long, end: Long)

  /** Pane metadata: which firing of a window an element belongs to. */
  datatype Pane = Pane(index: nat, isFirst: bool, isLast: bool)

  datatype WindowedValue = WindowedValue(payload: int, timestamp: Long, window: Window, pane: Pane)

  /**
   * The left fold `acc min ts(es[0]) min ts(es[1]) ...`, the shape of the
   * source's `reduce(Long.MAX_VALUE, Math::min)` and of its min loops.
   */
  function MinTimestampFrom(acc: Long, es: seq<WindowedValue>): (r: Long)
    ensures r <= acc
    decreases |es|
  {
    if es == [] then acc else MinTimestampFrom(Min(acc, es[0].timestamp), es[1..])
  }

  /** The minimum timestamp of a collection, Long.MAX_VALUE when it is empty. */
  function MinTimestamp(es: seq<WindowedValue>): (r: Long)
    ensures es == [] ==> r == LONG_MAX
  {
    MinTimestampFrom(LONG_MAX, es)
  }

  /** The fold is a lower bound of every timestamp it passed over. */
  lemma {:induction false} MinTimestampFromIsLowerBound(acc: Long, es: seq<WindowedValue>)
    ensures forall i :: 0 <= i < |es| ==> MinTimestampFrom(acc, es) <= es[i].timestamp
    decreases |es|
  {
    if es != [] {
      MinTimestampFromIsLowerBound(Min(acc, es[0].timestamp), es[1..]);
      forall i | 1 <= i < |es|
        ensures MinTimestampFrom(acc, es) <= es[i].timestamp
      {
        assert es[i] == es[1..][i - 1];
      }
    }
  }

  /** The fold returns its start value or one of the timestamps it passed over. */
  lemma {:induction false} MinTimestampFromIsAttained(acc: Long, es: seq<WindowedValue>)
    ensures MinTimestampFrom(acc, es) == acc || exists i :: 0 <= i < |es| && MinTimestampFrom(acc, es) == es[i].timestamp
    decreases |es|
  {
    if es != [] {
      MinTimestampFromIsAttained(Min(acc, es[0].timestamp), es[1..]);
      var r := MinTimestampFrom(acc, es);
      if r != Min(acc, es[0].timestamp) {
        var i :| 0 <= i < |es[1..]| && r == es[1..][i].timestamp;
        assert r == es[i + 1].timestamp;
      }
    }
  }

  /**
   * The minimum timestamp is Long.MAX_VALUE for no elements and otherwise
   * the timestamp of some element, no larger than any other.
   */
  lemma MinTimestampIsMinimum(es: seq<WindowedValue>)
    ensures forall i :: 0 <= i < |es| ==> MinTimestamp(es) <= es[i].timestamp
    ensures es != [] ==> exists i :: 0 <= i < |es| && MinTimestamp(es) == es[i].timestamp
  {
    MinTimestampFromIsLowerBound(LONG_MAX, es);
    MinTimestampFromIsAttained(LONG_MAX, es);
    if es != [] && MinTimestamp(es) == LONG_MAX {
      assert MinTimestamp(es) <= es[0].timestamp;
      assert es[0].timestamp <= LONG_MAX;
    }
  }

  /** Folding over a concatenation is folding over its parts one after the other. */
  lemma {:induction false} MinTimestampFromConcat(acc: Long, a: seq<WindowedValue>, b: seq<WindowedValue>)
    ensures MinTimestampFrom(acc, a + b) == MinTimestampFrom(MinTimestampFrom(acc, a), b)
    decreases |a|
  {
    if a != [] {
      assert (a + b)[0] == a[0];
      assert (a + b)[1..] == a[1..] + b;
      MinTimestampFromConcat(Min(acc, a[0].timestamp), a[1..], b);
    } else {
      assert a + b == b;
    }
  }

  /** One loop step of the source's min loops. */
  lemma MinTimestampFromSnoc(acc: Long, a: seq<WindowedValue>, e: WindowedValue)
    ensures MinTimestampFrom(acc, a + [e]) == Min(MinTimestampFrom(acc, a), e.timestamp)
  {
    MinTimestampFromConcat(acc, a, [e]);
  }

  /** Pushing more elements onto a collection whose minimum is known. */
  lemma MinTimestampAppend(a: seq<WindowedValue>, b: seq<WindowedValue>)
    ensures MinTimestamp(a + b) == MinTimestampFrom(MinTimestamp(a), b)
  {
    MinTimestampFromConcat(LONG_MAX, a, b);
  }
}
