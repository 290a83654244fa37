/** The in-memory topic manager: the nine arrays, the consumer cursors, and the four operations on them. */
module MemoryTopicManagers {
  import opened Bytes
  import opened Wrappers
  import opened BufferWrapperArchive
  import opened BulkRefs
  import opened DataDescriptors
  import opened DataDescriptorImpls
  import opened TopicLog

  // ----- What feedConsumer exposes -----

  /** The four references of one feed() call. */
  datatype Feed = Feed(count: nat, firstId: nat,
                       metadataSizes: BulkRef, metadata: BulkRef, descriptorSizes: BulkRef, descriptors: BulkRef)

  /** A column exposes a range of its sizes, then the content from the offset of the first entry. */
  predicate Exposable(col: Column, first: nat, count: nat) {
    && first + count <= |col.sizes| && first < |col.offsets|
    && col.offsets[first] + Sum(col.sizes[first..first + count]) <= |col.bytes|
  }

  function Exposed(col: Column, first: nat, count: nat): Bytes
    requires Exposable(col, first, count)
  {
    var size := Sum(col.sizes[first..first + count]);
    EncodeSizes(col.sizes[first..first + count]) + col.bytes[col.offsets[first]..col.offsets[first] + size]
  }

  function SizesRef(col: Column, first: nat, count: nat): BulkRef
    requires Exposable(col, first, count)
  {
    BulkRef(Exposed(col, first, count), 0, SIZE_T_BYTES * count)
  }

  function ContentRef(col: Column, first: nat, count: nat): BulkRef
    requires Exposable(col, first, count)
  {
    BulkRef(Exposed(col, first, count), SIZE_T_BYTES * count, Sum(col.sizes[first..first + count]))
  }

  function FeedOf(a: Arrays, first: nat, count: nat): Feed
    requires Exposable(a.metadata, first, count) && Exposable(a.descriptors, first, count)
  {
    Feed(count, first,
         SizesRef(a.metadata, first, count), ContentRef(a.metadata, first, count),
         SizesRef(a.descriptors, first, count), ContentRef(a.descriptors, first, count))
  }

  lemma SumOfRange(parts: seq<Blob>, first: nat, count: nat)
    requires first + count <= |parts|
    ensures Sizes(parts)[first..first + count] == Sizes(parts[first..first + count])
    ensures Sum(Sizes(parts)[first..first + count]) == |Concat(parts[first..first + count])|
  {
    var range := parts[first..first + count];
    assert Sizes(parts)[first..first + count] == Sizes(range);
    SizesAreLengths(range);
    ConcatLength(range);
  }

  /** The two references of a column that stores the parts hold the sizes and the content of the range of parts. */
  lemma ExposedRange(col: Column, parts: seq<Blob>, first: nat, count: nat)
    requires Packs(col, parts) && first + count <= |parts| && first < |parts|
    ensures Exposable(col, first, count)
    ensures var range := parts[first..first + count];
            && SizesRef(col, first, count).Valid()
            && SizesRef(col, first, count).Content() == EncodeSizes(Sizes(range))
            && ContentRef(col, first, count).Valid()
            && ContentRef(col, first, count).Content() == Concat(range)
  {
    var range := parts[first..first + count];
    SumOfRange(parts, first, count);
    ConcatSlice(parts, first, first + count);
    SplitAt(EncodeSizes(Sizes(range)), Concat(range));
  }

  /** The references announce and hold the entries of the log from firstId on, count of them. */
  predicate HoldsRange(f: Feed, log: seq<Event>) {
    && f.firstId + f.count <= |log|
    && var metadata, descriptors := MetaRange(log, f.firstId, f.count), DescriptorRange(log, f.firstId, f.count);
    && f.metadataSizes.Valid() && f.metadataSizes.Content() == EncodeSizes(Sizes(metadata))
    && f.metadata.Valid() && f.metadata.Content() == Concat(metadata)
    && f.descriptorSizes.Valid() && f.descriptorSizes.Content() == EncodeSizes(Sizes(descriptors))
    && f.descriptors.Valid() && f.descriptors.Content() == Concat(descriptors)
  }

  lemma FeedHoldsRange(a: Arrays, log: seq<Event>, first: nat, count: nat)
    requires Stores(a, log) && first + count <= |log| && first < |log|
    ensures Exposable(a.metadata, first, count) && Exposable(a.descriptors, first, count)
    ensures HoldsRange(FeedOf(a, first, count), log)
  {
    ExposedRange(a.metadata, Metas(log), first, count);
    ExposedRange(a.descriptors, DescriptorsOf(Datas(log)), first, count);
  }

  /** The number of events a pass of the feeding loop sends; the subtraction is one of size_t values. */
  function EventsToSend(batchSize: SizeT, available: SizeT, firstId: SizeT): SizeT {
    Min(if batchSize == 0 then SIZE_T_LIMIT - 1 else batchSize, Minus(available, firstId))
  }

  /** What a push of data into remote memory leaves there: the shorter of the two sizes is copied. */
  function Pushed(remote: Bytes, data: Bytes): Bytes {
    var n := Min(|remote|, |data|);
    data[..n] + remote[n..]
  }

  /** after is the memory before with the data written over its front, as far as it goes. */
  predicate Copied(before: Bytes, data: Bytes, after: Bytes) {
    && |after| == |before|
    && forall k :: 0 <= k < |before| ==> after[k] == if k < |data| then data[k] else before[k]
  }

  lemma PushedIsCopied(remote: Bytes, data: Bytes)
    ensures Copied(remote, data, Pushed(remote, data))
  {
  }

  const EXPECTED_ONE := "Expected 1 descriptor"

  class MemoryTopicManager {
    /** Three of the nine arrays each: content, offsets and sizes. */
    var metadata: Column
    var data: Column
    var dataDesc: Column
    var consumerCursor: map<string, SizeT>

    ghost function Contents(): Arrays
      reads this
    {
      Arrays(metadata, data, dataDesc)
    }

    constructor ()
      ensures Aligned(Contents()) && Stores(Contents(), []) && consumerCursor == map[]
    {
      var empty := Column([], [], []);
      metadata, data, dataDesc := empty, empty, empty;
      consumerCursor := map[];
    }

    /** The offset loop of receiveBatch: offsets of the entries from first on, starting at start. */
    static method FillOffsets(offsets: seq<SizeT>, sizes: seq<SizeT>, first: nat, start: SizeT)
      returns (r: seq<SizeT>)
      requires first <= |offsets| == |sizes|
      ensures r == offsets[..first] + OffsetsFrom(start, sizes[first..])
    {
      r := offsets;
      var offset := start;
      for i := first to |sizes|
        invariant |r| == |sizes|
        invariant r[..i] + OffsetsFrom(offset, sizes[i..]) == offsets[..first] + OffsetsFrom(start, sizes[first..])
      {
        assert sizes[i..][0] == sizes[i] && sizes[i..][1..] == sizes[i + 1..];
        ghost var before, rest := r[..i], OffsetsFrom(Add(offset, sizes[i]), sizes[i + 1..]);
        r := r[i := offset];
        assert r[..i + 1] == before + [offset];
        Assoc(before, [offset], rest);
        offset := Add(offset, sizes[i]);
      }
      assert r[..|sizes|] == r;
    }

    /** Receiving one bulk: sizes, then content, in one transfer; then the offsets. */
    static method ReceiveColumn(col: Column, numEvents: nat, bulk: BulkRef) returns (r: Column)
      requires |col.offsets| == |col.sizes| && bulk.Valid() && Room(col, numEvents, bulk.Content())
      ensures r == AppendBulk(col, numEvents, bulk.Content())
    {
      var received := bulk.Content();
      var added := DecodeSizes(numEvents, received[..SIZE_T_BYTES * numEvents]);
      var sizes := col.sizes + added;
      var offsets := FillOffsets(col.offsets + seq(numEvents, _ => 0), sizes, |col.sizes|, |col.bytes|);
      assert (col.offsets + seq(numEvents, _ => 0))[..|col.sizes|] == col.offsets;
      assert sizes[|col.sizes|..] == added;
      r := Column(col.bytes + received[SIZE_T_BYTES * numEvents..], offsets, sizes);
    }

    /** One descriptor per new event, saved one after the other behind those already there. */
    static method IssueDescriptors(col: Column, offsets: seq<SizeT>, sizes: seq<SizeT>) returns (r: Column)
      requires |col.offsets| == |col.sizes| && |offsets| == |sizes|
      requires |col.bytes| + |Concat(IssuedAll(offsets, sizes))| < SIZE_T_LIMIT
      ensures r == AppendParts(col, NextDescriptorOffset(col), IssuedAll(offsets, sizes))
    {
      ghost var parts := IssuedAll(offsets, sizes);
      ghost var goal := AppendParts(col, NextDescriptorOffset(col), parts);
      var descOffset := NextDescriptorOffset(col);
      var archive := new OutputArchive(col.bytes);
      var descOffsets, descSizes := col.offsets, col.sizes;
      for i := 0 to |sizes|
        modifies archive
        invariant archive.buffer + Concat(parts[i..]) == goal.bytes
        invariant descSizes + Sizes(parts[i..]) == goal.sizes
        invariant descOffsets + OffsetsFrom(descOffset, Sizes(parts[i..])) == goal.offsets
      {
        RemainingParts(parts, i, archive.buffer, descSizes, descOffsets, descOffset);
        var size := IssueDescriptor(archive, offsets[i], sizes[i]);
        descSizes := descSizes + [size];
        descOffsets := descOffsets + [descOffset];
        descOffset := Add(descOffset, size);
      }
      r := Column(archive.buffer, descOffsets, descSizes);
    }

    static method IssueDescriptor(archive: OutputArchive, offset: SizeT, size: SizeT) returns (saved: SizeT)
      modifies archive
      ensures archive.buffer == old(archive.buffer) + IssuedBytes(offset, size)
      ensures saved == |IssuedBytes(offset, size)|
    {
      var descriptor := new DataDescriptorImpl(Location(offset, size), size);
      var before := |archive.buffer|;
      descriptor.Save(archive);
      saved := |archive.buffer| - before;
    }

    /** Both bulks carry numEvents sizes, then the content. Returns the id of the first new event. */
    method ReceiveBatch(numEvents: nat, metadataBulk: BulkRef, dataBulk: BulkRef) returns (firstId: nat)
      requires Aligned(Contents()) && metadataBulk.Valid() && dataBulk.Valid()
      requires RoomForBatch(Contents(), numEvents, metadataBulk.Content(), dataBulk.Content())
      modifies this
      ensures firstId == old(|metadata.sizes|)
      ensures Contents() == Receive(old(Contents()), numEvents, metadataBulk.Content(), dataBulk.Content())
      ensures consumerCursor == old(consumerCursor)
    {
      firstId := |metadata.sizes|;
      metadata := ReceiveColumn(metadata, numEvents, metadataBulk);
      data := ReceiveColumn(data, numEvents, dataBulk);
      IssuedAllLength(data.offsets[firstId..], data.sizes[firstId..]);
      dataDesc := IssueDescriptors(dataDesc, data.offsets[firstId..], data.sizes[firstId..]);
    }

    /** The cursor lookup of feedConsumer: operator[] on the map inserts 0 for a name it does not hold. */
    method ReadCursor(name: string) returns (firstId: SizeT)
      modifies this`consumerCursor
      ensures firstId == if name in old(consumerCursor) then old(consumerCursor)[name] else 0
      ensures consumerCursor == old(consumerCursor)[name := firstId]
    {
      if name !in consumerCursor {
        consumerCursor := consumerCursor[name := 0];
      }
      firstId := consumerCursor[name];
    }

    static method Accumulate(sizes: seq<SizeT>) returns (sum: SizeT)
      requires Sum(sizes) < SIZE_T_LIMIT
      ensures sum == Sum(sizes)
    {
      sum := 0;
      for i := 0 to |sizes|
        invariant sum + Sum(sizes[i..]) == Sum(sizes)
      {
        assert sizes[i..][0] == sizes[i] && sizes[i..][1..] == sizes[i + 1..];
        sum := Add(sum, sizes[i]);
      }
    }

    static method Expose(col: Column, first: nat, count: nat) returns (sizes: BulkRef, content: BulkRef)
      requires Exposable(col, first, count)
      ensures sizes == SizesRef(col, first, count) && content == ContentRef(col, first, count)
    {
      var range := col.sizes[first..first + count];
      var size := Accumulate(range);
      var handle := EncodeSizes(range) + col.bytes[col.offsets[first]..col.offsets[first] + size];
      sizes := BulkRef(handle, 0, SIZE_T_BYTES * count);
      content := BulkRef(handle, SIZE_T_BYTES * count, size);
    }

    /**
     * One pass of the feeding loop, under the lock on the log: nothing to send (the loop then waits), or the
     * references of the next feed() call, after which the loop continues at nextId.
     */
    method NextFeed(firstId: SizeT, batchSize: SizeT, ghost log: seq<Event>)
      returns (feed: Option<Feed>, nextId: SizeT)
      requires Stores(Contents(), log) && firstId <= |log| < SIZE_T_LIMIT
      ensures feed.None? <==> firstId == |log|
      ensures firstId <= nextId <= |log| && nextId == firstId + EventsToSend(batchSize, |log|, firstId)
      ensures batchSize == 0 ==> nextId == |log|
      ensures batchSize > 0 ==>
                nextId - firstId <= batchSize && (nextId - firstId == batchSize || nextId == |log|)
      ensures feed.Some? ==>
                && feed.value.firstId == firstId && feed.value.count == nextId - firstId
                && HoldsRange(feed.value, log)
    {
      var n := EventsToSend(batchSize, |metadata.sizes|, firstId);
      nextId := firstId + n;
      if n == 0 {
        return None, nextId;
      }
      FeedHoldsRange(Contents(), log, firstId, n);
      var sizes, content := Expose(metadata, firstId, n);
      var descSizes, desc := Expose(dataDesc, firstId, n);
      feed := Some(Feed(n, firstId, sizes, content, descSizes, desc));
    }

    /** Stores the id after the last acknowledged one, whether or not it is ahead of an earlier acknowledgement. */
    method Acknowledge(name: string, eventId: SizeT)
      modifies this`consumerCursor
      ensures consumerCursor == old(consumerCursor)[name := Add(eventId, 1)]
    {
      consumerCursor := consumerCursor[name := Add(eventId, 1)];
    }

    /** The transfer happens before the number of descriptors is looked at. */
    method GetData(descriptors: seq<Descriptor>, remote: Bytes) returns (r: Result<()>, remote': Bytes)
      requires descriptors != [] && Located(Contents(), descriptors[0])
      ensures remote' == Pushed(remote, DataAt(Contents(), descriptors[0]))
      ensures Copied(remote, DataAt(Contents(), descriptors[0]), remote')
      ensures r == if |descriptors| == 1 then Success(()) else Failure(EXPECTED_ONE)
    {
      var offset, size := LocationOffset(descriptors[0]), LocationSize(descriptors[0]);
      remote' := Pushed(remote, data.bytes[offset..offset + size]);
      if |descriptors| != 1 {
        return Failure(EXPECTED_ONE), remote';
      }
      return Success(()), remote';
    }
  }

  /** What appending part i does to the three invariants of the loop that issues descriptors. */
  lemma RemainingParts(parts: seq<Blob>, i: nat, bytes: Bytes, sizes: seq<SizeT>, offsets: seq<SizeT>, offset: SizeT)
    requires i < |parts|
    ensures bytes + Concat(parts[i..]) == (bytes + parts[i]) + Concat(parts[i + 1..])
    ensures sizes + Sizes(parts[i..]) == (sizes + [|parts[i]|]) + Sizes(parts[i + 1..])
    ensures offsets + OffsetsFrom(offset, Sizes(parts[i..]))
         == (offsets + [offset]) + OffsetsFrom(Add(offset, |parts[i]|), Sizes(parts[i + 1..]))
  {
    var rest, restSizes := parts[i + 1..], Sizes(parts[i + 1..]);
    assert parts[i..] == [parts[i]] + rest;
    assert parts[i..][1..] == rest;
    assert Sizes(parts[i..]) == [|parts[i]|] + restSizes;
    assert Sizes(parts[i..])[1..] == restSizes;
    Assoc(bytes, parts[i], Concat(rest));
    Assoc(sizes, [|parts[i]| as SizeT], restSizes);
    Assoc(offsets, [offset], OffsetsFrom(Add(offset, |parts[i]|), restSizes));
  }
}
