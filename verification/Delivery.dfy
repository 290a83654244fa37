/** From push to pull: what the pieces of the path give together. */
module Delivery {
  import opened Bytes
  import opened Wrappers
  import opened BufferWrapperArchive
  import opened DataDescriptors
  import opened DescriptorViews
  import opened DefaultSerializer
  import opened TopicLog
  import opened ProducerBatches
  import opened MemoryTopicManagers
  import opened Consumers

  // ----- A descriptor keeps reading its data -----

  /**
   * The descriptor loaded from anywhere in the packed descriptor array reads exactly the data of its event, in
   * these arrays and in any that later batches make of them, and loading it consumes exactly its own bytes.
   */
  lemma PackedDescriptorReadsData(a: Arrays, log: seq<Event>, later: seq<Event>, i: nat)
    requires Stores(a, log + later) && i < |log|
    ensures |a.descriptors.offsets| == |a.descriptors.sizes| == |log| + |later|
    ensures a.descriptors.offsets[i] + a.descriptors.sizes[i] <= |a.descriptors.bytes|
    ensures var start, end := a.descriptors.offsets[i], a.descriptors.offsets[i] + a.descriptors.sizes[i];
            var parsed := Parse(a.descriptors.bytes[start..]);
            && parsed == Success(Parsed(IssuedFor(log, i), a.descriptors.bytes[end..]))
            && Located(a, parsed.value.content)
            && DataAt(a, parsed.value.content) == log[i].data
  {
    var descriptors := DescriptorsOf(Datas(log + later));
    ConcatPart(descriptors, i);
    var d := IssuedFor(log, i);
    IssuedReadsData(a, log, later, i);
    assert descriptors[i] == Encode(d) by {
      DatasAppend(log, later);
      StartOfPrefix(Datas(log), Datas(later), i);
    }
    var start, end := a.descriptors.offsets[i], a.descriptors.offsets[i] + a.descriptors.sizes[i];
    CutInTwo(a.descriptors.bytes, start, end);
    SelfDelimiting(d, a.descriptors.bytes[end..]);
  }

  lemma CutInTwo(b: Bytes, start: nat, end: nat)
    requires start <= end <= |b|
    ensures b[start..] == b[start..end] + b[end..]
  {
  }

  // ----- The data that reaches the consumer -----

  /** A selector that asks for the whole data, and a broker that provides memory of the size it is asked for. */
  predicate WantsAll(options: DataOptions, metadata: Metadata, d: Descriptor) {
    options.Select? && options.selector(metadata, d) == d && |options.broker(metadata, d)| == d.size
  }

  lemma PushedWhole(memory: Bytes, data: Bytes)
    requires |memory| == |data|
    ensures Pushed(memory, data) == data
  {
  }

  /**
   * An event pushed with some metadata and some data segments, appended to any log and followed by any later
   * events, is pulled with its own index as id, the same metadata, and, if all of it is asked for, the same data.
   */
  lemma PulledIsPushed(log: seq<Event>, metadata: Metadata, segments: seq<Bytes>, later: seq<Event>, options: DataOptions)
    requires SIZE_T_BYTES + |metadata| < SIZE_T_LIMIT && |Concat(segments)| < SIZE_T_LIMIT
    ensures var event := PushedEvent(metadata, segments);
            var all := log + [event] + later;
            var d := IssuedFor(all, |log|);
            var outcome := Outcome(options, |log|, all[|log|], d);
            && (options.NoData? ==> outcome == Success(Delivered(|log|, metadata, [])))
            && (WantsAll(options, metadata, d) ==> outcome == Success(Delivered(|log|, metadata, Concat(segments))))
  {
    var event := PushedEvent(metadata, segments);
    var all := log + [event] + later;
    assert all[|log|] == event;
    ParseBlockOfEncode(metadata, []);
    assert EncodeBlock(metadata) + [] == EncodeBlock(metadata);
    var d := IssuedFor(all, |log|);
    if WantsAll(options, metadata, d) {
      PushedWhole(options.broker(metadata, d), event.data);
      assert |event.data| == 0 ==> event.data == [];
    }
  }

  /** What a selector makes of the descriptor of an event needs memory, and the broker provides another amount of it. */
  predicate WrongMemory(options: DataOptions, metadata: Metadata, d: Descriptor) {
    && options.Select? && options.selector(metadata, d).size != 0
    && |options.broker(metadata, options.selector(metadata, d))| != options.selector(metadata, d).size
  }

  /** The pull of a pushed event fails exactly if the broker provides memory of a wrong size, and says so. */
  lemma PullFailsIff(log: seq<Event>, metadata: Metadata, segments: seq<Bytes>, later: seq<Event>, options: DataOptions)
    requires SIZE_T_BYTES + |metadata| < SIZE_T_LIMIT && |Concat(segments)| < SIZE_T_LIMIT
    ensures var all := log + [PushedEvent(metadata, segments)] + later;
            var d := IssuedFor(all, |log|);
            var outcome := Outcome(options, |log|, all[|log|], d);
            && (outcome.Failure? <==> WrongMemory(options, metadata, d))
            && (outcome.Failure? ==> outcome.error == WRONG_SIZE)
            && (outcome.Success? ==> outcome.value.id == |log| && outcome.value.metadata == metadata)
  {
    ParseBlockOfEncode(metadata, []);
    assert EncodeBlock(metadata) + [] == EncodeBlock(metadata);
  }

  // ----- Asking for a part of the data -----

  /** requestData sends the event's own descriptor, so the memory of the broker receives the head of the data. */
  lemma RequestedIsHead(options: DataOptions, metadata: Metadata, d: Descriptor, stored: Bytes)
    requires options.Select?
    requires var wanted := options.selector(metadata, d);
             wanted.size <= |stored| && |options.broker(metadata, wanted)| == wanted.size
    ensures Requested(options, metadata, d, stored) == Success(stored[..options.selector(metadata, d).size])
  {
    var wanted := options.selector(metadata, d);
    if wanted.size > 0 {
      var memory := options.broker(metadata, wanted);
      assert stored[..wanted.size] + memory[wanted.size..] == stored[..wanted.size];
    }
  }

  /**
   * A selector may answer with sub-views of the descriptor it is given. The bytes delivered are the ones it asked
   * for, whatever data is stored, if and only if it asked for nothing or its views start at the beginning.
   */
  lemma PartialRequestIff(wanted: Descriptor, extent: SizeT)
    requires Views(wanted, extent)
    ensures wanted.size <= extent
    ensures (forall stored: Bytes :: |stored| == extent ==> stored[..wanted.size] == SliceAll(stored, wanted.views))
       <==> wanted.size == 0 || TotalOffset(wanted.views) == 0
  {
    StackFits(extent, wanted.views);
    var size, start := wanted.size, TotalOffset(wanted.views);
    forall stored: Bytes | |stored| == extent ensures SliceAll(stored, wanted.views) == stored[start..start + size] {
      SliceOfStack(stored, wanted.views);
    }
    if size > 0 && start > 0 {
      var one: Byte, zero: Byte := 1, 0;
      var stored := [one] + seq(extent - 1, _ => zero);
      assert stored[..size][0] == 1;
      assert stored[start..start + size][0] == 0;
    }
  }
}
