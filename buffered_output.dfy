/**
 * The operator's output side: Flink's `Output` collector and the
 * BufferedOutputManager that routes tagged outputs to it, holding them back
 * while a snapshot is being taken (the checkpoint barrier has then already
 * gone downstream) and replaying them in order afterwards.
 */
module BufferedOutput {
  import opened Timestamps
  import opened WindowedValues

  /** An output tag (TupleTag); tags are compared by their id string. */
  type Tag = string

  /** What the operator sends downstream. */
  datatype Emission =
    | MainRecord(value: WindowedValue)
    | SideRecord(tag: Tag, value: WindowedValue)
    | WatermarkMark(timestamp: Long)

  /** Flink's Output collector: everything sent downstream, in order. */
  class Output {
    var emitted: seq<Emission>

    constructor ()
      ensures emitted == []
    {
      emitted := [];
    }

    method Collect(e: Emission)
      modifies this
      ensures emitted == old(emitted) + [e]
    {
      emitted := emitted + [e];
    }
  }

  /** The routing of `emit`: the main tag goes to the main output, every other tag to its side output. */
  function Route(mainTag: Tag, tag: Tag, value: WindowedValue): (e: Emission)
    ensures !e.WatermarkMark? && e.value == value
    ensures e.MainRecord? <==> tag == mainTag
    ensures e.SideRecord? ==> e.tag == tag
  {
    if tag == mainTag then MainRecord(value) else SideRecord(tag, value)
  }

  /** The emissions that emitting `outs` one after the other produces. */
  function Routed(mainTag: Tag, outs: seq<(Tag, WindowedValue)>): (es: seq<Emission>)
    ensures |es| == |outs|
  {
    if outs == [] then [] else [Route(mainTag, outs[0].0, outs[0].1)] + Routed(mainTag, outs[1..])
  }

  ghost predicate InverseMaps(tagsToIds: map<Tag, int>, idsToTags: map<int, Tag>) {
    forall t :: t in tagsToIds ==> tagsToIds[t] in idsToTags && idsToTags[tagsToIds[t]] == t
  }

  ghost predicate Injective(tagsToIds: map<Tag, int>) {
    forall t, u :: t in tagsToIds && u in tagsToIds && t != u ==> tagsToIds[t] != tagsToIds[u]
  }

  /** The buffer stores each output under its tag's numeric id. */
  function Encode(tagsToIds: map<Tag, int>, outs: seq<(Tag, WindowedValue)>): (buf: seq<(int, WindowedValue)>)
    requires forall i :: 0 <= i < |outs| ==> outs[i].0 in tagsToIds
    ensures |buf| == |outs|
    ensures forall i :: 0 <= i < |outs| ==> buf[i] == (tagsToIds[outs[i].0], outs[i].1)
  {
    if outs == [] then [] else [(tagsToIds[outs[0].0], outs[0].1)] + Encode(tagsToIds, outs[1..])
  }

  /** Flushing maps each buffered id back to its tag. */
  function Decode(idsToTags: map<int, Tag>, buf: seq<(int, WindowedValue)>): (outs: seq<(Tag, WindowedValue)>)
    requires forall i :: 0 <= i < |buf| ==> buf[i].0 in idsToTags
    ensures |outs| == |buf|
    ensures forall i :: 0 <= i < |buf| ==> outs[i] == (idsToTags[buf[i].0], buf[i].1)
  {
    if buf == [] then [] else [(idsToTags[buf[0].0], buf[0].1)] + Decode(idsToTags, buf[1..])
  }

  /** Buffering under ids and flushing back under tags loses nothing and reorders nothing. */
  lemma {:induction false} DecodeEncode(tagsToIds: map<Tag, int>, idsToTags: map<int, Tag>, outs: seq<(Tag, WindowedValue)>)
    requires InverseMaps(tagsToIds, idsToTags)
    requires forall i :: 0 <= i < |outs| ==> outs[i].0 in tagsToIds
    ensures forall i :: 0 <= i < |outs| ==> Encode(tagsToIds, outs)[i].0 in idsToTags
    ensures Decode(idsToTags, Encode(tagsToIds, outs)) == outs
  {
    if outs != [] {
      DecodeEncode(tagsToIds, idsToTags, outs[1..]);
      assert Encode(tagsToIds, outs)[1..] == Encode(tagsToIds, outs[1..]);
    }
  }

  class BufferedOutputManager {
    const output: Output
    const mainTag: Tag
    const tagsToIds: map<Tag, int>
    const idsToTags: map<int, Tag>
    const isStreaming: bool

    /** Whether outputs are being held back as part of snapshotState. */
    var openBuffer: bool
    /** Set after a flush so that a flush with nothing buffered skips the state backend. */
    var bufferIsEmpty: bool
    /** The pushed-back (id, value) pairs, in arrival order. */
    var buffer: seq<(int, WindowedValue)>
    /** The tagged outputs that `buffer` holds. */
    ghost var bufferedOutputs: seq<(Tag, WindowedValue)>

    ghost predicate Valid()
      reads this
    {
      && InverseMaps(tagsToIds, idsToTags)
      && (forall i :: 0 <= i < |bufferedOutputs| ==> bufferedOutputs[i].0 in tagsToIds)
      && |buffer| == |bufferedOutputs|
      && (forall i :: 0 <= i < |buffer| ==> buffer[i] == (tagsToIds[bufferedOutputs[i].0], bufferedOutputs[i].1))
      && (bufferIsEmpty ==> buffer == [])
    }

    /** The buffer holds exactly the encoding of the buffered outputs. */
    lemma BufferIsEncoding()
      requires Valid()
      ensures buffer == Encode(tagsToIds, bufferedOutputs)
      ensures Decode(idsToTags, buffer) == bufferedOutputs
    {
      DecodeEncode(tagsToIds, idsToTags, bufferedOutputs);
    }

    constructor (output: Output, mainTag: Tag, tagsToIds: map<Tag, int>, isStreaming: bool)
      requires Injective(tagsToIds)
      ensures Valid()
      ensures this.output == output && this.mainTag == mainTag && this.tagsToIds == tagsToIds
      ensures this.isStreaming == isStreaming
      ensures !openBuffer && !bufferIsEmpty && bufferedOutputs == []
    {
      var inverse: map<int, Tag> := map[];
      var rest := tagsToIds.Keys;
      while rest != {}
        invariant rest <= tagsToIds.Keys
        invariant forall t :: t in tagsToIds && t !in rest ==> tagsToIds[t] in inverse && inverse[tagsToIds[t]] == t
        invariant forall id :: id in inverse ==> inverse[id] in tagsToIds && inverse[id] !in rest && tagsToIds[inverse[id]] == id
        decreases rest
      {
        var t :| t in rest;
        inverse := inverse[tagsToIds[t] := t];
        rest := rest - {t};
      }
      this.output := output;
      this.mainTag := mainTag;
      this.tagsToIds := tagsToIds;
      this.idsToTags := inverse;
      this.isStreaming := isStreaming;
      openBuffer := false;
      bufferIsEmpty := false;
      buffer := [];
      bufferedOutputs := [];
    }

    method OpenBuffer()
      requires Valid()
      modifies this
      ensures Valid() && openBuffer
      ensures bufferIsEmpty == old(bufferIsEmpty) && bufferedOutputs == old(bufferedOutputs)
    {
      openBuffer := true;
    }

    method CloseBuffer()
      requires Valid()
      modifies this
      ensures Valid() && !openBuffer
      ensures bufferIsEmpty == old(bufferIsEmpty) && bufferedOutputs == old(bufferedOutputs)
    {
      openBuffer := false;
    }

    /**
     * Emits at once unless a snapshot is holding outputs back in streaming
     * mode; then appends to the buffer. The operator's user function only
     * emits to the tags the manager was built with.
     */
    method Output(tag: Tag, value: WindowedValue)
      requires Valid() && tag in tagsToIds
      modifies this, output
      ensures Valid()
      ensures openBuffer == old(openBuffer)
      ensures !openBuffer || !isStreaming ==>
        && output.emitted == old(output.emitted) + [Route(mainTag, tag, value)]
        && bufferedOutputs == old(bufferedOutputs) && bufferIsEmpty == old(bufferIsEmpty)
      ensures openBuffer && isStreaming ==>
        && output.emitted == old(output.emitted)
        && bufferedOutputs == old(bufferedOutputs) + [(tag, value)] && !bufferIsEmpty
    {
      if !openBuffer || !isStreaming {
        output.Collect(Route(mainTag, tag, value));
      } else {
        buffer := buffer + [(tagsToIds[tag], value)];
        bufferedOutputs := bufferedOutputs + [(tag, value)];
        bufferIsEmpty := false;
      }
    }

    /**
     * Replays the buffer downstream in order and empties it; does nothing
     * while a snapshot is in progress or when nothing was buffered.
     */
    method FlushBuffer()
      requires Valid()
      modifies this, output
      ensures Valid()
      ensures openBuffer == old(openBuffer)
      ensures old(openBuffer) || old(bufferIsEmpty) ==>
        output.emitted == old(output.emitted) && bufferedOutputs == old(bufferedOutputs)
        && bufferIsEmpty == old(bufferIsEmpty)
      ensures !old(openBuffer) && !old(bufferIsEmpty) ==>
        && output.emitted == old(output.emitted) + Routed(mainTag, old(bufferedOutputs))
        && bufferedOutputs == [] && bufferIsEmpty
      ensures !old(openBuffer) ==>
        output.emitted == old(output.emitted) + Routed(mainTag, old(bufferedOutputs)) && bufferedOutputs == []
    {
      if openBuffer || bufferIsEmpty {
        assert bufferIsEmpty ==> |bufferedOutputs| == |buffer| == 0;
        return;
      }
      ghost var outs := bufferedOutputs;
      var i := 0;
      while i < |buffer|
        invariant unchanged(this)
        invariant 0 <= i <= |buffer|
        invariant output.emitted == old(output.emitted) + Routed(mainTag, outs[..i])
      {
        assert idsToTags[buffer[i].0] == outs[i].0;
        output.Collect(Route(mainTag, idsToTags[buffer[i].0], buffer[i].1));
        assert outs[..i + 1] == outs[..i] + [outs[i]];
        RoutedSnoc(mainTag, outs[..i], outs[i]);
        i := i + 1;
      }
      assert outs[..i] == outs;
      buffer := [];
      bufferedOutputs := [];
      bufferIsEmpty := true;
    }
  }

  /** Emitting one more output extends the emissions by its routing. */
  lemma {:induction false} RoutedSnoc(mainTag: Tag, outs: seq<(Tag, WindowedValue)>, o: (Tag, WindowedValue))
    ensures Routed(mainTag, outs + [o]) == Routed(mainTag, outs) + [Route(mainTag, o.0, o.1)]
    decreases |outs|
  {
    if outs == [] {
      assert outs + [o] == [o];
    } else {
      assert (outs + [o])[1..] == outs[1..] + [o];
      RoutedSnoc(mainTag, outs[1..], o);
    }
  }

  /** The i-th emission is the routing of the i-th output. */
  lemma {:induction false} RoutedAt(mainTag: Tag, outs: seq<(Tag, WindowedValue)>, i: nat)
    requires i < |outs|
    ensures Routed(mainTag, outs)[i] == Route(mainTag, outs[i].0, outs[i].1)
    decreases i
  {
    if i > 0 {
      RoutedAt(mainTag, outs[1..], i - 1);
    }
  }
}
