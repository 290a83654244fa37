/** The consumer: pull(), the receipt of a batch, and the request for the data of an event. */
module Consumers {
  import opened Bytes
  import opened Wrappers
  import opened BufferWrapperArchive
  import opened DataDescriptors
  import opened DataDescriptorImpls
  import opened DescriptorViews
  import opened DefaultSerializer
  import opened Promises
  import opened TopicLog
  import opened ConsumerBatches
  import opened MemoryTopicManagers

  const WRONG_SIZE := "DataBroker returned a Data object with a size different from the DataDescriptor size"

  type DataSelector = (Metadata, Descriptor) -> Descriptor
  /** The broker's answer is memory with some content of its own. */
  type DataBroker = (Metadata, Descriptor) -> Bytes

  datatype DataOptions = NoData | Select(selector: DataSelector, broker: DataBroker)

  /** An event as pull() hands it out. */
  datatype Delivered = Delivered(id: nat, metadata: Metadata, data: Bytes)

  /**
   * What requestData returns for an event whose descriptor reads the bytes stored: the selector chooses a
   * descriptor, the broker memory for it, and the event's own descriptor is sent to the server.
   */
  function Requested(options: DataOptions, metadata: Metadata, descriptor: Descriptor, stored: Bytes): Result<Bytes> {
    match options
    case NoData => Success([])
    case Select(selector, broker) =>
      var wanted := selector(metadata, descriptor);
      if wanted.size == 0 then Success([])
      else
        var memory := broker(metadata, wanted);
        if |memory| != wanted.size then Failure(WRONG_SIZE) else Success(Pushed(memory, stored))
  }

  /** What the promise of a log entry is set to. */
  function Outcome(options: DataOptions, id: nat, event: Event, descriptor: Descriptor): Result<Delivered> {
    var metadata :- ParseBlock(event.metadata);
    var data :- Requested(options, metadata.content, descriptor, event.data);
    Success(Delivered(id, metadata.content, data))
  }

  /** The descriptor that the topic issued for entry i of its log. */
  function IssuedFor(log: seq<Event>, i: nat): Descriptor
    requires i < |log|
  {
    Issued(Start(Datas(log), i), |log[i].data|)
  }

  /** What event i of a batch that starts at id first is set to. */
  function OutcomeAt(options: DataOptions, log: seq<Event>, first: nat, i: nat): Result<Delivered>
    requires first + i < |log|
  {
    Outcome(options, first + i, log[first + i], IssuedFor(log, first + i))
  }

  /** What the first n events of that batch are set to. */
  function Outcomes(options: DataOptions, log: seq<Event>, first: nat, n: nat): (r: seq<Result<Delivered>>)
    requires first + n <= |log|
    ensures |r| == n
  {
    if n == 0 then [] else Outcomes(options, log, first, n - 1) + [OutcomeAt(options, log, first, n - 1)]
  }

  lemma OutcomesStep(options: DataOptions, log: seq<Event>, first: nat, n: nat)
    requires first + n < |log|
    ensures Outcomes(options, log, first, n + 1) == Outcomes(options, log, first, n) + [OutcomeAt(options, log, first, n)]
  {
  }

  lemma {:induction false} OutcomesIndex(options: DataOptions, log: seq<Event>, first: nat, n: nat, i: nat)
    requires first + n <= |log| && i < n
    ensures Outcomes(options, log, first, n)[i] == OutcomeAt(options, log, first, i)
  {
    if i < n - 1 {
      OutcomesIndex(options, log, first, n - 1, i);
    }
  }

  /** The results are those of the entries of the log from first on. */
  ghost predicate AreOutcomes(results: seq<Result<Delivered>>, options: DataOptions, log: seq<Event>, first: nat) {
    && (results == [] || first + |results| <= |log|)
    && forall i :: 0 <= i < |results| ==> results[i] == OutcomeAt(options, log, first, i)
  }

  lemma OutcomesAre(options: DataOptions, log: seq<Event>, first: nat, n: nat)
    requires first + n <= |log|
    ensures AreOutcomes(Outcomes(options, log, first, n), options, log, first)
  {
    forall i | 0 <= i < n ensures Outcomes(options, log, first, n)[i] == OutcomeAt(options, log, first, i) {
      OutcomesIndex(options, log, first, n, i);
    }
  }

  /** The descriptor of an entry is issued once: later appends do not change it. */
  lemma IssuedForStays(log: seq<Event>, appended: seq<Event>, i: nat)
    requires i < |log|
    ensures IssuedFor(log + appended, i) == IssuedFor(log, i)
  {
    DatasAppend(log, appended);
    StartOfPrefix(Datas(log), Datas(appended), i);
  }

  lemma OutcomeStays(options: DataOptions, log: seq<Event>, appended: seq<Event>, first: nat, i: nat)
    requires first + i < |log|
    ensures OutcomeAt(options, log + appended, first, i) == OutcomeAt(options, log, first, i)
  {
    IssuedForStays(log, appended, first + i);
  }

  /** What a consumer made of an entry is what it would make of it after any later appends. */
  lemma OutcomesStay(results: seq<Result<Delivered>>, options: DataOptions, log: seq<Event>, appended: seq<Event>, first: nat)
    requires AreOutcomes(results, options, log, first)
    ensures AreOutcomes(results, options, log + appended, first)
  {
    forall i | 0 <= i < |results| ensures results[i] == OutcomeAt(options, log + appended, first, i) {
      OutcomeStays(options, log, appended, first, i);
    }
  }

  lemma OutcomeShift(options: DataOptions, log: seq<Event>, first: nat, a: nat, i: nat)
    requires first + a + i < |log|
    ensures OutcomeAt(options, log, first + a, i) == OutcomeAt(options, log, first, a + i)
  {
  }

  lemma SameLogJoin(options: DataOptions, log: seq<Event>, first: nat,
                    before: seq<Result<Delivered>>, more: seq<Result<Delivered>>)
    requires AreOutcomes(before, options, log, first) && AreOutcomes(more, options, log, first + |before|)
    ensures AreOutcomes(before + more, options, log, first)
  {
    forall i | 0 <= i < |before + more| ensures (before + more)[i] == OutcomeAt(options, log, first, i) {
      if i >= |before| {
        OutcomeShift(options, log, first, |before|, i - |before|);
      }
    }
  }

  /** The results of one more feed() call, which goes on where the ones before ended, on a log that has grown since. */
  lemma FeedsJoin(options: DataOptions, log: seq<Event>, appended: seq<Event>, first: nat,
                  before: seq<Result<Delivered>>, more: seq<Result<Delivered>>)
    requires AreOutcomes(before, options, log, first)
    requires AreOutcomes(more, options, log + appended, first + |before|)
    ensures AreOutcomes(before + more, options, log + appended, first)
  {
    OutcomesStay(before, options, log, appended, first);
    SameLogJoin(options, log + appended, first, before, more);
  }

  class Consumer {
    const options: DataOptions
    var futures: seq<Promise<Delivered>>
    var futuresCredit: bool
    /** The cell of every pull() so far, and of every event received so far. */
    ghost var pulled: seq<Promise<Delivered>>
    ghost var received: seq<Promise<Delivered>>

    /** The deque is the part by which one of the two lists is ahead of the other, and the flag says which. */
    ghost predicate Valid()
      reads this, pulled
    {
      && (if |pulled| >= |received| then
            received <= pulled && futures == pulled[|received|..] && (|pulled| > |received| ==> futuresCredit)
          else
            pulled <= received && futures == received[|pulled|..] && !futuresCredit)
      && Distinct(pulled) && Distinct(received)
      && forall i :: |received| <= i < |pulled| ==> pulled[i].Open()
    }

    constructor (options: DataOptions, credit: bool)
      ensures Valid() && pulled == [] && received == [] && this.options == options
    {
      this.options, futures, futuresCredit, pulled, received := options, [], credit, [], [];
    }

    /** Returns the cell whose future the caller gets. */
    method Pull() returns (future: Promise<Delivered>)
      requires Valid()
      modifies this
      ensures Valid() && pulled == old(pulled) + [future] && received == old(received)
      ensures |old(pulled)| < |received| ==> future == received[|old(pulled)|]
    {
      if futuresCredit || |futures| == 0 {
        future := new Promise();
        futures := futures + [future];
        futuresCredit := true;
      } else {
        future := futures[0];
        futures := futures[1..];
        futuresCredit := false;
      }
      pulled := pulled + [future];
    }

    /** The critical section of recvBatch: the cell that the next event goes to. */
    method NextPromise() returns (promise: Promise<Delivered>)
      requires Valid()
      modifies this
      ensures Valid() && received == old(received) + [promise] && pulled == old(pulled)
      ensures promise.Open()
      ensures |old(received)| < |pulled| ==> promise == pulled[|old(received)|]
      ensures |old(received)| >= |pulled| ==> fresh(promise)
    {
      if !futuresCredit || |futures| == 0 {
        promise := new Promise();
        futures := futures + [promise];
        futuresCredit := false;
      } else {
        promise := futures[0];
        futures := futures[1..];
        futuresCredit := true;
      }
      received := received + [promise];
    }

    method RequestData(topic: MemoryTopicManager, metadata: Metadata, descriptor: Descriptor) returns (r: Result<Bytes>)
      requires Located(topic.Contents(), descriptor)
      ensures r == Requested(options, metadata, descriptor, DataAt(topic.Contents(), descriptor))
      ensures options.NoData? ==> r == Success([])
      ensures options.Select? ==>
                var wanted := options.selector(metadata, descriptor);
                var memory := options.broker(metadata, wanted);
                && (wanted.size == 0 ==> r == Success([]))
                && (wanted.size != 0 && |memory| != wanted.size ==> r == Failure(WRONG_SIZE))
                && (wanted.size != 0 && |memory| == wanted.size ==>
                      r.Success? && Copied(memory, DataAt(topic.Contents(), descriptor), r.value))
    {
      var wanted := if options.Select? then options.selector(metadata, descriptor) else NULL_DESCRIPTOR;
      if wanted.size == 0 {
        return Success([]);
      }
      var memory := options.broker(metadata, wanted);
      if |memory| != wanted.size {
        return Failure(WRONG_SIZE);
      }
      // the descriptor that is sent is the event's, not the wanted one
      var result, filled := topic.GetData([descriptor], memory);
      assert result.Success?;
      return Success(filled);
    }

    /** Loading a descriptor of the log cannot fail. */
    static method LoadIssued(bytes: Bytes, ghost log: seq<Event>, ghost id: nat) returns (descriptor: Descriptor)
      requires id < |log| && bytes == DescriptorsOf(Datas(log))[id]
      ensures descriptor == IssuedFor(log, id)
    {
      IssuedParses(log, id);
      var archive := new InputArchive(bytes);
      var d := new DataDescriptorImpl([], 0);
      var loaded := d.Load(archive);
      assert loaded.Success?;
      descriptor := Descriptor(d.location, d.views, d.size);
    }

    /** The ULT of one event: deserialize its metadata, load its descriptor, request its data. */
    method Decode(id: nat, metadata: Bytes, descriptor: Bytes, topic: MemoryTopicManager, ghost log: seq<Event>)
      returns (r: Result<Delivered>)
      requires Stores(topic.Contents(), log) && id < |log|
      requires metadata == log[id].metadata && descriptor == DescriptorsOf(Datas(log))[id]
      ensures r == Outcome(options, id, log[id], IssuedFor(log, id))
    {
      var archive := new InputArchive(metadata);
      var m :- Deserialize(archive);
      var d := LoadIssued(descriptor, log, id);
      IssuedReadsStored(topic.Contents(), log, id);
      var data :- RequestData(topic, m, d);
      return Success(Delivered(id, m, data));
    }

    /** Scatters the four regions of a feed() call into a batch. */
    static method Scatter(feed: Feed, ghost log: seq<Event>) returns (batch: ConsumerBatch)
      requires HoldsRange(feed, log)
      ensures fresh(batch)
      ensures HoldsEntries(batch, log, feed.firstId, feed.count)
    {
      ghost var metadata := MetaRange(log, feed.firstId, feed.count);
      ghost var descriptors := DescriptorRange(log, feed.firstId, feed.count);
      batch := new ConsumerBatch(feed.count, feed.metadata.size, feed.descriptors.size);
      batch.PullFrom(feed.metadataSizes, feed.metadata, feed.descriptorSizes, feed.descriptors);
      DecodeOfEncodeSizes(Sizes(metadata));
      DecodeOfEncodeSizes(Sizes(descriptors));
    }

    /** The cells from position from on hold the results, unless their futures are gone. */
    ghost predicate Hold(from: nat, results: seq<Result<Delivered>>)
      reads this, received
    {
      && |received| == from + |results|
      && forall i :: 0 <= i < |results| ==>
           received[from + i].abandoned || received[from + i].value == Some(results[i])
    }

    /** Finds the cell of the next event and gives it its result; cells of earlier events are left alone. */
    method HandOut(result: Result<Delivered>)
      requires Valid()
      modifies this, pulled
      ensures Valid() && pulled == old(pulled)
      ensures |received| == |old(received)| + 1 && old(received) <= received
      ensures received[|old(received)|].abandoned || received[|old(received)|].value == Some(result)
      ensures forall i :: 0 <= i < |old(received)| ==>
                received[i].value == old(received[i].value) && received[i].abandoned == old(received[i].abandoned)
    {
      var promise := NextPromise();
      promise.Set(result);
    }

    /** The batch holds these parts, packed. */
    static ghost predicate Holds(batch: ConsumerBatch, metadata: seq<Blob>, descriptors: seq<Blob>)
      reads batch
    {
      && batch.metaSizes == Sizes(metadata) && batch.metaBuffer == Concat(metadata)
      && batch.dataDescSizes == Sizes(descriptors) && batch.dataDescBuffer == Concat(descriptors)
    }

    /** The batch holds the entries of the log from first on, count of them. */
    static ghost predicate HoldsEntries(batch: ConsumerBatch, log: seq<Event>, first: nat, count: nat)
      reads batch
    {
      first + count <= |log| && Holds(batch, MetaRange(log, first, count), DescriptorRange(log, first, count))
    }

    /** Walks the batch with running offsets, and decodes every event from the bytes between them. */
    method Walk(batch: ConsumerBatch, first: nat, count: nat, topic: MemoryTopicManager, ghost log: seq<Event>)
      returns (results: seq<Result<Delivered>>)
      requires Stores(topic.Contents(), log) && HoldsEntries(batch, log, first, count)
      ensures results == Outcomes(options, log, first, count)
    {
      ghost var metadata, descriptors := MetaRange(log, first, count), DescriptorRange(log, first, count);
      var metadataOffset: nat, dataDescOffset: nat := 0, 0;
      results := [];
      for i := 0 to count
        modifies {}
        invariant metadataOffset == Start(metadata, i) && dataDescOffset == Start(descriptors, i)
        invariant results == Outcomes(options, log, first, i)
      {
        results, metadataOffset, dataDescOffset :=
          WalkOne(batch, first, i, results, metadataOffset, dataDescOffset, topic, metadata, descriptors, log);
      }
    }

    method WalkOne(batch: ConsumerBatch, first: nat, i: nat, results: seq<Result<Delivered>>,
                   metadataOffset: nat, dataDescOffset: nat, topic: MemoryTopicManager,
                   ghost metadata: seq<Blob>, ghost descriptors: seq<Blob>, ghost log: seq<Event>)
      returns (results': seq<Result<Delivered>>, nextMetadata: nat, nextDataDesc: nat)
      requires Stores(topic.Contents(), log) && Holds(batch, metadata, descriptors)
      requires i < |metadata| == |descriptors| && first + i < |log|
      requires metadata[i] == log[first + i].metadata && descriptors[i] == DescriptorsOf(Datas(log))[first + i]
      requires metadataOffset == Start(metadata, i) && dataDescOffset == Start(descriptors, i)
      requires results == Outcomes(options, log, first, i)
      ensures results' == Outcomes(options, log, first, i + 1)
      ensures nextMetadata == Start(metadata, i + 1) && nextDataDesc == Start(descriptors, i + 1)
    {
      var result;
      result, nextMetadata, nextDataDesc :=
        DecodeAt(batch, i, metadataOffset, dataDescOffset, first + i, topic, metadata, descriptors, log);
      OutcomesStep(options, log, first, i);
      results' := results + [result];
    }

    /** Decodes event i of the batch and moves the two offsets past it. */
    method DecodeAt(batch: ConsumerBatch, i: nat, metadataOffset: nat, dataDescOffset: nat, id: nat,
                    topic: MemoryTopicManager,
                    ghost metadata: seq<Blob>, ghost descriptors: seq<Blob>, ghost log: seq<Event>)
      returns (result: Result<Delivered>, nextMetadata: nat, nextDataDesc: nat)
      requires Stores(topic.Contents(), log) && Holds(batch, metadata, descriptors)
      requires i < |metadata| == |descriptors| && id < |log|
      requires metadata[i] == log[id].metadata && descriptors[i] == DescriptorsOf(Datas(log))[id]
      requires metadataOffset == Start(metadata, i) && dataDescOffset == Start(descriptors, i)
      ensures result == Outcome(options, id, log[id], IssuedFor(log, id))
      ensures nextMetadata == Start(metadata, i + 1) && nextDataDesc == Start(descriptors, i + 1)
    {
      var m, d;
      m, nextMetadata := EntryBytes(batch.metaBuffer, metadataOffset, batch.metaSizes[i], metadata, i);
      d, nextDataDesc := EntryBytes(batch.dataDescBuffer, dataDescOffset, batch.dataDescSizes[i], descriptors, i);
      result := Decode(id, m, d, topic, log);
    }

    /** The string_view of one entry in a packed buffer, and the offset of the next. */
    static method EntryBytes(buffer: Bytes, offset: nat, size: nat, ghost parts: seq<Blob>, ghost i: nat)
      returns (entry: Bytes, next: nat)
      requires i < |parts| && buffer == Concat(parts) && offset == Start(parts, i) && size == |parts[i]|
      ensures entry == parts[i] && next == Start(parts, i + 1)
    {
      ConcatPart(parts, i);
      entry, next := buffer[offset..offset + size], offset + size;
    }

    /**
     * recvBatch: the events of the batch, in order, go to the next cells of the deque. Other callers run between the
     * critical sections; module Pairing has their interleavings.
     */
    method RecvBatch(feed: Feed, topic: MemoryTopicManager, ghost log: seq<Event>)
      returns (results: seq<Result<Delivered>>)
      requires Valid() && Stores(topic.Contents(), log) && HoldsRange(feed, log)
      modifies this, pulled
      ensures Valid() && pulled == old(pulled) && old(received) <= received
      ensures results == Outcomes(options, log, feed.firstId, feed.count)
      ensures Hold(|old(received)|, results)
      ensures forall j :: 0 <= j < |old(received)| ==> received[j].value == old(received[j].value)
    {
      var batch := Scatter(feed, log);
      results := Walk(batch, feed.firstId, feed.count, topic, log);
      HandOutAll(results);
    }

    method HandOutAll(results: seq<Result<Delivered>>)
      requires Valid()
      modifies this, pulled
      ensures Valid() && pulled == old(pulled) && old(received) <= received
      ensures Hold(|old(received)|, results)
      ensures forall j :: 0 <= j < |old(received)| ==> received[j].value == old(received[j].value)
    {
      for i := 0 to |results|
        modifies this, pulled
        invariant Valid() && pulled == old(pulled) && old(received) <= received
        invariant Hold(|old(received)|, results[..i])
        invariant forall j :: 0 <= j < |old(received)| ==> received[j].value == old(received[j].value)
      {
        HandOut(results[i]);
      }
      assert results[..|results|] == results;
    }
  }

  lemma IssuedReadsStored(a: Arrays, log: seq<Event>, i: nat)
    requires Stores(a, log) && i < |log|
    ensures Located(a, IssuedFor(log, i)) && DataAt(a, IssuedFor(log, i)) == log[i].data
  {
    assert log + [] == log;
    IssuedReadsData(a, log, [], i);
  }

  lemma IssuedParses(log: seq<Event>, i: nat)
    requires i < |log|
    ensures Parse(DescriptorsOf(Datas(log))[i]) == Success(Parsed(IssuedFor(log, i), []))
  {
    var d := IssuedFor(log, i);
    SelfDelimiting(d, []);
    assert Encode(d) + [] == Encode(d);
  }
}
