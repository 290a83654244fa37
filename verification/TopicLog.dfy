/**
 * The log of a topic partition: a sequence of events, and the nine arrays that store it packed.
 *
 * The functions here say what one call does to the arrays, for any bytes it is given; the lemmas say when
 * the arrays still store a log.
 */
module TopicLog {
  import opened Bytes
  import opened Wrappers
  import opened BufferWrapperArchive
  import opened DataDescriptors

  /** An event as it is stored: its serialized metadata and its data. */
  datatype Event = Event(metadata: Blob, data: Blob)

  function Metas(events: seq<Event>): (parts: seq<Blob>)
    ensures |parts| == |events|
    ensures forall i :: 0 <= i < |events| ==> parts[i] == events[i].metadata
  {
    seq(|events|, i requires 0 <= i < |events| => events[i].metadata)
  }

  function Datas(events: seq<Event>): (parts: seq<Blob>)
    ensures |parts| == |events|
    ensures forall i :: 0 <= i < |events| ==> parts[i] == events[i].data
  {
    seq(|events|, i requires 0 <= i < |events| => events[i].data)
  }

  lemma MetasAppend(a: seq<Event>, b: seq<Event>)
    ensures Metas(a + b) == Metas(a) + Metas(b)
  {
  }

  lemma DatasAppend(a: seq<Event>, b: seq<Event>)
    ensures Datas(a + b) == Datas(a) + Datas(b)
  {
  }

  // ----- One packed column: content, offsets, sizes -----

  datatype Column = Column(bytes: Blob, offsets: seq<SizeT>, sizes: seq<SizeT>)

  /** The column stores exactly the parts, each at the sum of the sizes before it. */
  predicate Packs(col: Column, parts: seq<Blob>) {
    && col.bytes == Concat(parts)
    && col.sizes == Sizes(parts)
    && |col.offsets| == |parts|
    && forall i :: 0 <= i < |parts| ==> col.offsets[i] == Start(parts, i)
  }

  /** The running offsets of the loops in receiveBatch. */
  function OffsetsFrom(start: SizeT, sizes: seq<SizeT>): (offsets: seq<SizeT>)
    ensures |offsets| == |sizes|
    decreases |sizes|
  {
    if sizes == [] then [] else [start] + OffsetsFrom(Add(start, sizes[0]), sizes[1..])
  }

  /** Room for the content of a bulk of n entries behind the bytes of the column. */
  predicate Room(col: Column, n: nat, bulk: Bytes) {
    SIZE_T_BYTES * n <= |bulk| && |col.bytes| + |bulk| - SIZE_T_BYTES * n < SIZE_T_LIMIT
  }

  /** The first n size_t values of the bulk go to the sizes array, the rest to the content. */
  function AppendBulk(col: Column, n: nat, bulk: Bytes): Column
    requires Room(col, n, bulk)
  {
    var sizes := DecodeSizes(n, bulk[..SIZE_T_BYTES * n]);
    Column(col.bytes + bulk[SIZE_T_BYTES * n..], col.offsets + OffsetsFrom(|col.bytes|, sizes), col.sizes + sizes)
  }

  /** The documented format of a bulk: all sizes, then all content. */
  function BulkBytes(parts: seq<Blob>): Bytes {
    EncodeSizes(Sizes(parts)) + Concat(parts)
  }

  lemma BulkOfParts(parts: seq<Blob>)
    ensures |BulkBytes(parts)| == SIZE_T_BYTES * |parts| + |Concat(parts)|
    ensures DecodeSizes(|parts|, BulkBytes(parts)[..SIZE_T_BYTES * |parts|]) == Sizes(parts)
    ensures BulkBytes(parts)[SIZE_T_BYTES * |parts|..] == Concat(parts)
  {
    DecodeOfEncodeSizes(Sizes(parts));
    assert BulkBytes(parts)[..SIZE_T_BYTES * |parts|] == EncodeSizes(Sizes(parts));
  }

  lemma {:induction false} OffsetsAreStarts(start: SizeT, parts: seq<Blob>, i: nat)
    requires i < |parts| && start + |Concat(parts)| < SIZE_T_LIMIT
    ensures OffsetsFrom(start, Sizes(parts))[i] == start + Start(parts, i)
    decreases |parts|
  {
    assert Sizes(parts)[1..] == Sizes(parts[1..]);
    if i > 0 {
      OffsetsAreStarts(start + |parts[0]|, parts[1..], i - 1);
      assert parts[..i][1..] == parts[1..][..i - 1];
    }
  }

  /** Offsets of appended entries are the prefix sums of the whole column. */
  lemma AppendedOffsets(parts: seq<Blob>, more: seq<Blob>, offsets: seq<SizeT>)
    requires |Concat(parts)| + |Concat(more)| < SIZE_T_LIMIT
    requires |offsets| == |parts| && forall i :: 0 <= i < |parts| ==> offsets[i] == Start(parts, i)
    ensures var all := offsets + OffsetsFrom(|Concat(parts)|, Sizes(more));
            |all| == |parts + more| && forall i :: 0 <= i < |all| ==> all[i] == Start(parts + more, i)
  {
    var all := offsets + OffsetsFrom(|Concat(parts)|, Sizes(more));
    forall i | 0 <= i < |all| ensures all[i] == Start(parts + more, i) {
      if i < |parts| {
        StartOfPrefix(parts, more, i);
      } else {
        OffsetsAreStarts(|Concat(parts)|, more, i - |parts|);
        StartOfSuffix(parts, more, i - |parts|);
      }
    }
  }

  /** Appending a well-formed bulk packs its parts behind those already there, and moves none of them. */
  lemma AppendPacks(col: Column, parts: seq<Blob>, more: seq<Blob>)
    requires Packs(col, parts) && |col.bytes| + |Concat(more)| < SIZE_T_LIMIT
    ensures Room(col, |more|, BulkBytes(more))
    ensures Packs(AppendBulk(col, |more|, BulkBytes(more)), parts + more)
  {
    BulkOfParts(more);
    ConcatAppend(parts, more);
    SizesAppend(parts, more);
    AppendedOffsets(parts, more, col.offsets);
  }

  /**
   * receiveBatch does not check that the sizes it is sent add up to the content it is sent. For any bulk, the
   * column still stores a sequence of n more parts if and only if they do.
   */
  lemma AppendPacksIff(col: Column, parts: seq<Blob>, n: nat, bulk: Bytes)
    requires Packs(col, parts) && Room(col, n, bulk)
    ensures (exists more: seq<Blob> :: |more| == n && Packs(AppendBulk(col, n, bulk), parts + more))
       <==> Sum(DecodeSizes(n, bulk[..SIZE_T_BYTES * n])) == |bulk| - SIZE_T_BYTES * n
  {
    var sizes, content := DecodeSizes(n, bulk[..SIZE_T_BYTES * n]), bulk[SIZE_T_BYTES * n..];
    if Sum(sizes) == |content| {
      var more := SplitBlobs(content, sizes);
      EncodeOfDecodeSizes(n, bulk[..SIZE_T_BYTES * n]);
      assert bulk == BulkBytes(more);
      AppendPacks(col, parts, more);
    }
    forall more: seq<Blob> | |more| == n && Packs(AppendBulk(col, n, bulk), parts + more)
      ensures Sum(sizes) == |content|
    {
      SumsAgree(parts, more, col.bytes, sizes, content);
    }
  }

  /** The new length of the content array for a bulk with n sizes: receiveBatch subtracts size_t values. */
  function ResizedTo(col: Column, n: nat, bulkSize: SizeT): SizeT
    requires SIZE_T_BYTES * n < SIZE_T_LIMIT
  {
    Add(|col.bytes|, Minus(bulkSize, SIZE_T_BYTES * n))
  }

  /**
   * Nor does it check that a bulk is as long as the sizes it announces. If it is, the content grows by the rest. If it
   * is shorter, the content is cut below what the log needs, or asked to grow to almost all of the address space.
   */
  lemma ShortBulkCutsLog(col: Column, parts: seq<Blob>, n: nat, bulkSize: SizeT)
    requires Packs(col, parts) && SIZE_T_BYTES * n < SIZE_T_LIMIT && |col.bytes| + bulkSize < SIZE_T_LIMIT
    ensures SIZE_T_BYTES * n <= bulkSize ==> ResizedTo(col, n, bulkSize) == |col.bytes| + (bulkSize - SIZE_T_BYTES * n)
    ensures bulkSize < SIZE_T_BYTES * n <= bulkSize + |col.bytes| ==>
              forall c: Column, more: seq<Blob> :: |c.bytes| == ResizedTo(col, n, bulkSize) ==> !Packs(c, parts + more)
    ensures bulkSize + |col.bytes| < SIZE_T_BYTES * n ==> ResizedTo(col, n, bulkSize) >= SIZE_T_LIMIT - SIZE_T_BYTES * n
  {
    forall c: Column, more: seq<Blob> | Packs(c, parts + more) ensures |c.bytes| >= |col.bytes| {
      ConcatAppend(parts, more);
    }
  }

  lemma SplitBlobs(content: Blob, sizes: seq<SizeT>) returns (parts: seq<Blob>)
    requires Sum(sizes) == |content|
    ensures Concat(parts) == content && Sizes(parts) == sizes
  {
    var split := Split(content, sizes);
    SplitIsInverse(content, sizes);
    forall i | 0 <= i < |split| ensures |split[i]| < SIZE_T_LIMIT {
      assert Lengths(split)[i] == sizes[i];
    }
    parts := split;
  }

  lemma SumsAgree(parts: seq<Blob>, more: seq<Blob>, bytes: Bytes, sizes: seq<SizeT>, content: Bytes)
    requires bytes == Concat(parts) && bytes + content == Concat(parts + more)
    requires |sizes| == |more| && Sizes(parts) + sizes == Sizes(parts + more)
    ensures Sum(sizes) == |content|
  {
    ConcatAppend(parts, more);
    SizesAppend(parts, more);
    assert sizes == (Sizes(parts) + sizes)[|parts|..] == Sizes(more);
    ConcatLength(more);
    SizesAreLengths(more);
  }

  /** The arithmetic of a column: offsets are prefix sums of the sizes, and the content has their total length. */
  predicate Sums(col: Column) {
    && |col.offsets| == |col.sizes| && |col.bytes| == Sum(col.sizes)
    && forall i :: 0 <= i < |col.sizes| ==> col.offsets[i] == Sum(col.sizes[..i])
  }

  lemma PartsSum(parts: seq<Blob>, i: nat)
    requires i <= |parts|
    ensures Start(parts, i) == Sum(Sizes(parts)[..i])
  {
    StartIsSum(parts, i);
    SizesAreLengths(parts);
  }

  /** Three arrays store some sequence of parts if and only if their sums are right; offsets then follow from sizes. */
  lemma PacksIffSums(col: Column)
    ensures (exists parts: seq<Blob> :: Packs(col, parts)) <==> Sums(col)
  {
    if parts: seq<Blob> :| Packs(col, parts) {
      forall i | 0 <= i < |parts| ensures col.offsets[i] == Sum(col.sizes[..i]) {
        PartsSum(parts, i);
      }
      ConcatLength(parts);
      SizesAreLengths(parts);
    }
    if Sums(col) {
      var parts := SplitBlobs(col.bytes, col.sizes);
      forall i | 0 <= i < |parts| ensures col.offsets[i] == Start(parts, i) {
        PartsSum(parts, i);
      }
      assert Packs(col, parts);
    }
  }

  // ----- Descriptors of the stored data -----

  /** What OffsetSize::toString yields: the two fields of the struct as they lie in memory. */
  function Location(offset: nat, size: nat): (b: Blob)
    ensures |b| == 2 * SIZE_T_BYTES
  {
    EncodeSize(offset) + EncodeSize(size)
  }

  /** The descriptor issued for data at the given offset. */
  function Issued(offset: nat, size: SizeT): Descriptor {
    Descriptor(Location(offset, size), [], size)
  }

  lemma IssuedLength(offset: nat, size: SizeT)
    ensures |Encode(Issued(offset, size))| == 5 * SIZE_T_BYTES
  {
  }

  function IssuedBytes(offset: nat, size: SizeT): Blob {
    IssuedLength(offset, size);
    Encode(Issued(offset, size))
  }

  function IssuedAll(offsets: seq<SizeT>, sizes: seq<SizeT>): (parts: seq<Blob>)
    requires |offsets| == |sizes|
    ensures |parts| == |offsets|
    ensures forall i :: 0 <= i < |offsets| ==> parts[i] == IssuedBytes(offsets[i], sizes[i])
  {
    seq(|offsets|, i requires 0 <= i < |offsets| => IssuedBytes(offsets[i], sizes[i]))
  }

  /** The descriptors that a log should store. */
  function DescriptorsOf(datas: seq<Blob>): (parts: seq<Blob>)
    ensures |parts| == |datas|
    ensures forall i :: 0 <= i < |datas| ==> parts[i] == IssuedBytes(Start(datas, i), |datas[i]|)
  {
    seq(|datas|, i requires 0 <= i < |datas| => IssuedBytes(Start(datas, i), |datas[i]|))
  }

  /** The stored metadata and descriptors of count entries of a log. */
  function MetaRange(log: seq<Event>, first: nat, count: nat): (parts: seq<Blob>)
    requires first + count <= |log|
    ensures |parts| == count
    ensures forall i :: 0 <= i < count ==> parts[i] == log[first + i].metadata
  {
    Metas(log)[first..first + count]
  }

  function DescriptorRange(log: seq<Event>, first: nat, count: nat): (parts: seq<Blob>)
    requires first + count <= |log|
    ensures |parts| == count
    ensures forall i :: 0 <= i < count ==> parts[i] == DescriptorsOf(Datas(log))[first + i]
  {
    DescriptorsOf(Datas(log))[first..first + count]
  }

  lemma DescriptorsAppend(a: seq<Blob>, b: seq<Blob>)
    ensures |DescriptorsOf(a + b)| == |a| + |b|
    ensures DescriptorsOf(a + b)[..|a|] == DescriptorsOf(a)
  {
    forall i | 0 <= i < |a| ensures DescriptorsOf(a + b)[i] == DescriptorsOf(a)[i] {
      StartOfPrefix(a, b, i);
    }
  }

  /** receiveBatch continues the descriptor offsets from the last entry. */
  function NextDescriptorOffset(col: Column): SizeT
    requires |col.offsets| == |col.sizes|
  {
    if col.offsets == [] then 0 else Add(col.offsets[|col.offsets| - 1], col.sizes[|col.sizes| - 1])
  }

  function AppendParts(col: Column, start: SizeT, parts: seq<Blob>): Column
    requires |col.bytes| + |Concat(parts)| < SIZE_T_LIMIT
  {
    Column(col.bytes + Concat(parts), col.offsets + OffsetsFrom(start, Sizes(parts)), col.sizes + Sizes(parts))
  }

  lemma NextOffsetIsEnd(col: Column, parts: seq<Blob>)
    requires Packs(col, parts)
    ensures NextDescriptorOffset(col) == |col.bytes|
  {
    if parts != [] {
      var last := |parts| - 1;
      ConcatPart(parts, last);
      assert parts[..last + 1] == parts;
    }
  }

  lemma AppendPartsPacks(col: Column, parts: seq<Blob>, more: seq<Blob>)
    requires Packs(col, parts) && |col.bytes| + |Concat(more)| < SIZE_T_LIMIT
    ensures Packs(AppendParts(col, NextDescriptorOffset(col), more), parts + more)
  {
    NextOffsetIsEnd(col, parts);
    ConcatAppend(parts, more);
    SizesAppend(parts, more);
    AppendedOffsets(parts, more, col.offsets);
  }

  // ----- The nine arrays -----

  datatype Arrays = Arrays(metadata: Column, data: Column, descriptors: Column)

  /** The arrays store the log: every entry of every column is where its offset says, and nothing else is there. */
  predicate Stores(a: Arrays, log: seq<Event>) {
    && Packs(a.metadata, Metas(log))
    && Packs(a.data, Datas(log))
    && Packs(a.descriptors, DescriptorsOf(Datas(log)))
  }

  /** All arrays have one entry per event, whatever the entries are. */
  predicate Aligned(a: Arrays) {
    && |a.metadata.offsets| == |a.metadata.sizes|
    && |a.data.offsets| == |a.data.sizes| == |a.metadata.sizes|
    && |a.descriptors.offsets| == |a.descriptors.sizes| == |a.metadata.sizes|
  }

  predicate RoomForBatch(a: Arrays, n: nat, metadata: Bytes, data: Bytes) {
    && Room(a.metadata, n, metadata)
    && Room(a.data, n, data)
    && |a.descriptors.bytes| + 5 * SIZE_T_BYTES * n < SIZE_T_LIMIT
  }

  lemma {:induction false} IssuedConcatLength(parts: seq<Blob>)
    requires forall i :: 0 <= i < |parts| ==> |parts[i]| == 5 * SIZE_T_BYTES
    ensures |Concat(parts)| == 5 * SIZE_T_BYTES * |parts|
  {
    if parts == [] {
    } else {
      IssuedConcatLength(parts[1..]);
    }
  }

  lemma IssuedAllLength(offsets: seq<SizeT>, sizes: seq<SizeT>)
    requires |offsets| == |sizes|
    ensures |Concat(IssuedAll(offsets, sizes))| == 5 * SIZE_T_BYTES * |offsets|
  {
    forall i | 0 <= i < |offsets| ensures |IssuedAll(offsets, sizes)[i]| == 5 * SIZE_T_BYTES {
      IssuedLength(offsets[i], sizes[i]);
    }
    IssuedConcatLength(IssuedAll(offsets, sizes));
  }

  /** What receiveBatch does to the arrays, for any two bulks of n entries. */
  function Receive(a: Arrays, n: nat, metadata: Bytes, data: Bytes): (r: Arrays)
    requires Aligned(a) && RoomForBatch(a, n, metadata, data)
    ensures Aligned(r) && |r.metadata.sizes| == |a.metadata.sizes| + n
  {
    var first := |a.metadata.sizes|;
    var data' := AppendBulk(a.data, n, data);
    var parts := IssuedAll(data'.offsets[first..], data'.sizes[first..]);
    IssuedAllLength(data'.offsets[first..], data'.sizes[first..]);
    Arrays(AppendBulk(a.metadata, n, metadata), data',
           AppendParts(a.descriptors, NextDescriptorOffset(a.descriptors), parts))
  }

  /** receiveBatch of a well-formed batch appends exactly its events to the log. */
  lemma ReceiveStores(a: Arrays, log: seq<Event>, events: seq<Event>)
    requires Stores(a, log)
    requires RoomForBatch(a, |events|, BulkBytes(Metas(events)), BulkBytes(Datas(events)))
    ensures Stores(Receive(a, |events|, BulkBytes(Metas(events)), BulkBytes(Datas(events))), log + events)
  {
    BulkOfParts(Metas(events));
    BulkOfParts(Datas(events));
    MetasAppend(log, events);
    DatasAppend(log, events);
    AppendPacks(a.metadata, Metas(log), Metas(events));
    AppendPacks(a.data, Datas(log), Datas(events));
    ReceiveDescriptors(a, log, events, AppendBulk(a.data, |events|, BulkBytes(Datas(events))));
  }

  lemma ReceiveDescriptors(a: Arrays, log: seq<Event>, events: seq<Event>, data': Column)
    requires Stores(a, log) && Packs(data', Datas(log) + Datas(events))
    requires |a.descriptors.bytes| + 5 * SIZE_T_BYTES * |events| < SIZE_T_LIMIT
    ensures var parts := IssuedAll(data'.offsets[|log|..], data'.sizes[|log|..]);
            && |a.descriptors.bytes| + |Concat(parts)| < SIZE_T_LIMIT
            && Packs(AppendParts(a.descriptors, NextDescriptorOffset(a.descriptors), parts),
                     DescriptorsOf(Datas(log) + Datas(events)))
  {
    var before, added := Datas(log), Datas(events);
    var parts := IssuedAll(data'.offsets[|log|..], data'.sizes[|log|..]);
    IssuedAllLength(data'.offsets[|log|..], data'.sizes[|log|..]);
    AppendPartsPacks(a.descriptors, DescriptorsOf(before), parts);
    IssuedAreDescriptors(data', before, added);
  }

  lemma IssuedAreDescriptors(data': Column, before: seq<Blob>, added: seq<Blob>)
    requires Packs(data', before + added)
    ensures DescriptorsOf(before) + IssuedAll(data'.offsets[|before|..], data'.sizes[|before|..])
         == DescriptorsOf(before + added)
  {
    var parts := IssuedAll(data'.offsets[|before|..], data'.sizes[|before|..]);
    var all := DescriptorsOf(before + added);
    DescriptorsAppend(before, added);
    forall i | 0 <= i < |added| ensures parts[i] == all[|before| + i] {
    }
    assert all == all[..|before|] + parts;
  }

  // ----- Reading data back through a descriptor -----

  /** fromDataDescriptor copies two size_t values out of the location, which has to hold them. */
  predicate HasLocation(d: Descriptor) {
    |d.location| >= 2 * SIZE_T_BYTES
  }

  function LocationOffset(d: Descriptor): SizeT
    requires HasLocation(d)
  {
    DecodeSize(d.location[..SIZE_T_BYTES])
  }

  function LocationSize(d: Descriptor): SizeT
    requires HasLocation(d)
  {
    DecodeSize(d.location[SIZE_T_BYTES..2 * SIZE_T_BYTES])
  }

  /** getData exposes this range of the data array, unchecked. */
  predicate Located(a: Arrays, d: Descriptor) {
    HasLocation(d) && LocationOffset(d) + LocationSize(d) <= |a.data.bytes|
  }

  function DataAt(a: Arrays, d: Descriptor): Bytes
    requires Located(a, d)
  {
    a.data.bytes[LocationOffset(d)..LocationOffset(d) + LocationSize(d)]
  }

  lemma IssuedLocation(offset: SizeT, size: SizeT)
    ensures var d := Issued(offset, size);
            HasLocation(d) && LocationOffset(d) == offset && LocationSize(d) == size
  {
    DecodeOfEncodeSize(offset);
    DecodeOfEncodeSize(size);
    var d := Issued(offset, size);
    assert d.location[..SIZE_T_BYTES] == EncodeSize(offset);
    assert d.location[SIZE_T_BYTES..2 * SIZE_T_BYTES] == EncodeSize(size);
  }

  /** The descriptor issued for event i reads that event's data, from these arrays and from any later ones. */
  lemma IssuedReadsData(a: Arrays, log: seq<Event>, later: seq<Event>, i: nat)
    requires Stores(a, log + later) && i < |log|
    ensures var d := Issued(Start(Datas(log), i), |log[i].data|);
            Located(a, d) && DataAt(a, d) == log[i].data
  {
    var datas := Datas(log + later);
    DatasAppend(log, later);
    StartOfPrefix(Datas(log), Datas(later), i);
    ConcatPart(datas, i);
    IssuedLocation(Start(datas, i), |log[i].data|);
  }
}
