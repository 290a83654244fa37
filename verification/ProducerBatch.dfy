/** A batch being filled by a producer: packed metadata, data segments, and the promises to fulfil. */
module ProducerBatches {
  import opened Bytes
  import opened Wrappers
  import opened BufferWrapperArchive
  import opened BulkRefs
  import opened DefaultSerializer
  import opened Promises
  import opened TopicLog

  type EventId = SizeT

  /** A push to come: serialized metadata and the segments of its data. */
  function PushedEvent(metadata: Blob, segments: seq<Bytes>): Event
    requires |EncodeBlock(metadata)| < SIZE_T_LIMIT && |Concat(segments)| < SIZE_T_LIMIT
  {
    Event(EncodeBlock(metadata), Concat(segments))
  }

  /** The promises that still have a future hold consecutive ids. */
  ghost predicate Resolved(promises: seq<Promise<EventId>>, firstId: EventId)
    requires firstId + |promises| < SIZE_T_LIMIT
    reads promises
  {
    forall i :: 0 <= i < |promises| && !promises[i].abandoned ==> promises[i].value == Some(Success(firstId + i))
  }

  /** They hold the exception, or what is left of it once it was moved into the first one. */
  ghost predicate Failed(promises: seq<Promise<EventId>>, error: string, movedFrom: string)
    reads promises
  {
    forall i :: 0 <= i < |promises| && !promises[i].abandoned ==>
      promises[i].value == Some(Failure(if i == 0 then error else movedFrom))
  }

  class ProducerBatch {
    var metaSizes: seq<SizeT>
    var metaBuffer: Bytes
    var dataSizes: seq<SizeT>
    var dataSegments: seq<Bytes>
    var totalDataSize: SizeT
    var promises: seq<Promise<EventId>>
    ghost var events: seq<Event>

    /** The arrays are the packed form of the pushed events; this is what receiveBatch takes on trust. */
    ghost predicate Valid()
      reads this
    {
      && metaSizes == Sizes(Metas(events)) && metaBuffer == Concat(Metas(events))
      && dataSizes == Sizes(Datas(events)) && Concat(dataSegments) == Concat(Datas(events))
      && totalDataSize == |Concat(Datas(events))|
      && |promises| == |events|
    }

    constructor ()
      ensures Valid() && events == [] && promises == []
    {
      metaSizes, metaBuffer, dataSizes, dataSegments, totalDataSize := [], [], [], [], 0;
      promises, events := [], [];
    }

    method Push(metadata: Metadata, segments: seq<Blob>, promise: Promise<EventId>)
      requires Valid()
      requires SIZE_T_BYTES + |metadata| < SIZE_T_LIMIT && totalDataSize + |Concat(segments)| < SIZE_T_LIMIT
      modifies this
      ensures Valid()
      ensures events == old(events) + [PushedEvent(metadata, segments)]
      ensures promises == old(promises) + [promise]
    {
      ghost var event := PushedEvent(metadata, segments);
      PackOneMore(events, event);
      var archive := new OutputArchive(metaBuffer);
      Serialize(archive, metadata);
      metaSizes := metaSizes + [|archive.buffer| - |metaBuffer|];
      metaBuffer := archive.buffer;
      var dataSize := TotalSize(segments);
      ConcatAppend(dataSegments, segments);
      dataSegments := dataSegments + segments;
      dataSizes := dataSizes + [dataSize];
      totalDataSize := Add(totalDataSize, dataSize);
      promises := promises + [promise];
      events := events + [event];
    }

    static method TotalSize(segments: seq<Blob>) returns (size: SizeT)
      requires |Concat(segments)| < SIZE_T_LIMIT
      ensures size == |Concat(segments)|
    {
      size := 0;
      for i := 0 to |segments|
        invariant size + |Concat(segments[i..])| == |Concat(segments)|
      {
        assert segments[i..][0] == segments[i] && segments[i..][1..] == segments[i + 1..];
        size := Add(size, |segments[i]|);
      }
    }

    function Count(): nat
      reads this
    {
      |metaSizes|
    }

    /** The bulk reference sent for the metadata; an empty batch exposes nothing. */
    method ExposeMetadata() returns (bulk: BulkRef)
      requires Valid()
      ensures bulk.Valid() && bulk.Content() == BulkBytes(Metas(events))
      ensures bulk.Content() == EncodeSizes(metaSizes) + metaBuffer
    {
      var handle := if Count() == 0 then [] else EncodeSizes(metaSizes) + metaBuffer;
      bulk := BulkRef(handle, 0, SIZE_T_BYTES * Count() + |metaBuffer|);
      assert Count() == 0 ==> BulkBytes(Metas(events)) == [];
      assert bulk.Content() == handle;
    }

    /** The bulk reference sent for the data; empty segments are not exposed. */
    method ExposeData() returns (bulk: BulkRef)
      requires Valid()
      ensures bulk.Valid() && bulk.Content() == BulkBytes(Datas(events))
      ensures bulk.Content() == EncodeSizes(dataSizes) + Concat(dataSegments)
    {
      var handle := [];
      if Count() != 0 {
        var content := NonEmptySegments(dataSegments);
        handle := EncodeSizes(dataSizes) + content;
      }
      bulk := BulkRef(handle, 0, SIZE_T_BYTES * Count() + totalDataSize);
      assert Count() == 0 ==> BulkBytes(Datas(events)) == [];
      assert bulk.Content() == handle;
    }

    static method NonEmptySegments(segments: seq<Bytes>) returns (content: Bytes)
      ensures content == Concat(segments)
    {
      content := [];
      for i := 0 to |segments|
        invariant content + Concat(segments[i..]) == Concat(segments)
      {
        assert segments[i..][0] == segments[i] && segments[i..][1..] == segments[i + 1..];
        Assoc(content, segments[i], Concat(segments[i + 1..]));
        if |segments[i]| == 0 {
          assert content + segments[i] == content;
          continue;
        }
        content := content + segments[i];
      }
    }

    /**
     * Promise i gets the id firstId + i, or an exception if the batch was not delivered. The exception is moved into
     * the first promise; the others get what a moved-from exception says.
     */
    method SetPromises(result: Result<EventId>, movedFrom: string)
      requires Valid() && Distinct(promises) && forall p :: p in promises ==> p.Open()
      requires result.Success? ==> result.value + |promises| < SIZE_T_LIMIT
      modifies promises
      ensures forall p :: p in promises ==> p.abandoned == old(p.abandoned)
      ensures result.Success? ==> Resolved(promises, result.value)
      ensures result.Failure? ==> Failed(promises, result.error, movedFrom)
      ensures forall p :: p in promises && p.abandoned ==> p.value == old(p.value)
    {
      for i := 0 to |promises|
        invariant forall p :: p in promises ==> p.abandoned == old(p.abandoned)
        invariant forall j :: i <= j < |promises| ==> promises[j].Open()
        invariant forall j :: 0 <= j < i && !promises[j].abandoned ==>
                    promises[j].value == Some(PromisedId(result, j, movedFrom))
        invariant forall p :: p in promises && p.abandoned ==> p.value == old(p.value)
      {
        promises[i].Set(PromisedId(result, i, movedFrom));
      }
    }
  }

  function PromisedId(result: Result<EventId>, i: nat, movedFrom: string): Result<EventId>
    requires result.Success? ==> result.value + i < SIZE_T_LIMIT
  {
    match result
    case Success(firstId) => Success(firstId + i)
    case Failure(e) => Failure(if i == 0 then e else movedFrom)
  }

  lemma PackOneMore(events: seq<Event>, event: Event)
    ensures Sizes(Metas(events + [event])) == Sizes(Metas(events)) + [|event.metadata|]
    ensures Concat(Metas(events + [event])) == Concat(Metas(events)) + event.metadata
    ensures Sizes(Datas(events + [event])) == Sizes(Datas(events)) + [|event.data|]
    ensures Concat(Datas(events + [event])) == Concat(Datas(events)) + event.data
  {
    assert Metas(events + [event]) == Metas(events) + [event.metadata];
    assert Datas(events + [event]) == Datas(events) + [event.data];
    ConcatSnoc(Metas(events), event.metadata);
    ConcatSnoc(Datas(events), event.data);
  }
}
