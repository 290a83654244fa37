/**
 * The bytes themselves: how numbers, blocks and descriptors lie in memory and on the wire, and what loading makes of
 * bytes that end too early or carry tags it does not know.
 */
module WireFormats {
  import opened Bytes
  import opened Wrappers
  import opened BufferWrapperArchive
  import opened DataDescriptors
  import opened TopicLog

  // ----- Layout -----

  /** A size_t lies in memory with its low byte first. */
  lemma SizeLayout(n: SizeT)
    ensures var b: seq<int> := EncodeSize(n);
            n == b[0] + 0x100 * b[1] + 0x1_0000 * b[2] + 0x100_0000 * b[3] + 0x1_0000_0000 * b[4]
                 + 0x100_0000_0000 * b[5] + 0x1_0000_0000_0000 * b[6] + 0x100_0000_0000_0000 * b[7]
  {
    var b := EncodeSize(n);
    var n1, b1 := OneByteLess(n, 8, b);
    var n2, b2 := OneByteLess(n1, 7, b1);
    var n3, b3 := OneByteLess(n2, 6, b2);
    var n4, b4 := OneByteLess(n3, 5, b3);
    var n5, b5 := OneByteLess(n4, 4, b4);
    var n6, b6 := OneByteLess(n5, 3, b5);
    var n7, b7 := OneByteLess(n6, 2, b6);
    var n8, b8 := OneByteLess(n7, 1, b7);
  }

  lemma OneByteLess(n: nat, k: nat, b: Bytes) returns (n': nat, b': Bytes)
    requires k > 0 && b == EncodeLE(n, k)
    ensures b' == b[1..] == EncodeLE(n', k - 1) && n == b[0] + 0x100 * n'
  {
    n', b' := n / 0x100, b[1..];
  }

  /** A saved descriptor: its size, the length of its location, the location, the number of its views, the views. */
  lemma DescriptorLayout(d: Descriptor)
    ensures var n, b := |d.location|, Encode(d);
            && |b| >= 24 + n
            && b[..8] == EncodeSize(d.size) && b[8..16] == EncodeSize(n) && b[16..16 + n] == d.location
            && b[16 + n..24 + n] == EncodeSize(|d.views|) && b[24 + n..] == EncodeViews(d.views)
  {
    var n, b := |d.location|, Encode(d);
    assert EncodeBlock(d.location)[..8] == EncodeSize(n) && EncodeBlock(d.location)[8..] == d.location;
    assert b[8..][..8 + n] == EncodeBlock(d.location);
    assert b[8..16] == EncodeBlock(d.location)[..8];
    assert b[16..16 + n] == EncodeBlock(d.location)[8..];
    assert b[16 + n..] == EncodeSize(|d.views|) + EncodeViews(d.views);
    assert b[16 + n..24 + n] == b[16 + n..][..8] && b[24 + n..] == b[16 + n..][8..];
  }

  /** A view starts with one byte for its kind, and its fields follow in the order of the structure. */
  lemma ViewLayout(offset: SizeT, size: SizeT, numBlocks: SizeT, blockSize: SizeT, gapSize: SizeT, segments: seq<Segment>)
    ensures EncodeView(Sub(offset, size)) == [0] + EncodeSizes([offset, size])
    ensures EncodeView(Strided(offset, numBlocks, blockSize, gapSize))
         == [1] + EncodeSizes([offset, numBlocks, blockSize, gapSize])
    ensures EncodeView(Unstructured(segments)) == [2] + (EncodeSize(|segments|) + EncodeSegments(segments))
  {
  }

  lemma FirstSegment(segments: seq<Segment>)
    requires segments != []
    ensures var b := EncodeSegments(segments);
            && |b| == 16 * |segments| && b[16..|b|] == EncodeSegments(segments[1..])
            && b[0..8] == EncodeSize(segments[0].offset) && b[8..16] == EncodeSize(segments[0].size)
  {
    DecodeOfEncodeSegments(segments);
  }

  lemma {:induction false} SegmentsLayout(segments: seq<Segment>, i: nat)
    requires i < |segments|
    ensures |EncodeSegments(segments)| == 16 * |segments|
    ensures EncodeSegments(segments)[16 * i..16 * i + 8] == EncodeSize(segments[i].offset)
    ensures EncodeSegments(segments)[16 * i + 8..16 * i + 16] == EncodeSize(segments[i].size)
    decreases i
  {
    var b := EncodeSegments(segments);
    FirstSegment(segments);
    if i > 0 {
      SegmentsLayout(segments[1..], i - 1);
      var j := 16 * (i - 1);
      SliceOfSlice(b, 16, |b|, j, j + 8);
      SliceOfSlice(b, 16, |b|, j + 8, j + 16);
    }
  }

  /** An array of size_t values is one after the other. */
  lemma {:induction false} SizesLayout(ns: seq<SizeT>, i: nat)
    requires i < |ns|
    ensures EncodeSizes(ns)[8 * i..8 * i + 8] == EncodeSize(ns[i])
    decreases i
  {
    var b := EncodeSizes(ns);
    assert b[8..|b|] == EncodeSizes(ns[1..]) && b[0..8] == EncodeSize(ns[0]);
    if i > 0 {
      SizesLayout(ns[1..], i - 1);
      SliceOfSlice(b, 8, |b|, 8 * (i - 1), 8 * (i - 1) + 8);
    }
  }

  /** The descriptor of stored data is five numbers: size, length of the location, offset, size, and no views. */
  lemma IssuedLayout(offset: SizeT, size: SizeT)
    ensures IssuedBytes(offset, size)
         == EncodeSize(size) + EncodeSize(16) + EncodeSize(offset) + EncodeSize(size) + EncodeSize(0)
  {
    var a, b, c, d := EncodeSize(size), EncodeSize(16), EncodeSize(offset), EncodeSize(0);
    assert EncodeViews([]) == [] && d + [] == d;
    Assoc(b, c, a);
    Assoc(a, (b + c) + a, d);
    Assoc(a, b + c, a);
    Assoc(a, b, c);
  }

  // ----- More bytes do not change what was loaded -----

  /** Reading takes a front of the bytes and does not look at what is behind it. */
  ghost predicate Extends<T>(before: Result<Parsed<T>>, after: Result<Parsed<T>>, more: Bytes) {
    before.Success? ==> after == Success(Parsed(before.value.content, before.value.rest + more))
  }

  lemma SizeExtends(b: Bytes, more: Bytes)
    ensures Extends(ParseSize(b), ParseSize(b + more), more)
  {
    if |b| >= SIZE_T_BYTES {
      assert (b + more)[..SIZE_T_BYTES] == b[..SIZE_T_BYTES] && (b + more)[SIZE_T_BYTES..] == b[SIZE_T_BYTES..] + more;
    }
  }

  lemma BytesExtend(b: Bytes, n: nat, more: Bytes)
    ensures Extends(ParseBytes(b, n), ParseBytes(b + more, n), more)
  {
    if |b| >= n {
      assert (b + more)[..n] == b[..n] && (b + more)[n..] == b[n..] + more;
    }
  }

  lemma BlockExtends(b: Bytes, more: Bytes)
    ensures Extends(ParseBlock(b), ParseBlock(b + more), more)
  {
    SizeExtends(b, more);
    if ParseSize(b).Success? {
      var size := ParseSize(b).value;
      BytesExtend(size.rest, size.content, more);
    }
  }

  lemma {:induction false} SizesExtend(k: nat, b: Bytes, more: Bytes)
    ensures Extends(ParseSizes(k, b), ParseSizes(k, b + more), more)
    decreases k
  {
    if k > 0 {
      SizeExtends(b, more);
      if ParseSize(b).Success? {
        SizesExtend(k - 1, ParseSize(b).value.rest, more);
      }
    }
  }

  lemma SegmentsExtend(b: Bytes, more: Bytes)
    ensures Extends(ParseSegments(b), ParseSegments(b + more), more)
  {
    SizeExtends(b, more);
    if ParseSize(b).Success? {
      var n := ParseSize(b).value;
      BytesExtend(n.rest, 2 * SIZE_T_BYTES * n.content, more);
    }
  }

  lemma ViewExtends(b: Bytes, more: Bytes)
    ensures Extends(ParseView(b), ParseView(b + more), more)
  {
    if b != [] {
      assert (b + more)[0] == b[0] && (b + more)[1..] == b[1..] + more;
      SizesExtend(2, b[1..], more);
      SizesExtend(4, b[1..], more);
      SegmentsExtend(b[1..], more);
    }
  }

  lemma {:induction false} ViewsExtend(n: nat, views: seq<View>, b: Bytes, more: Bytes)
    ensures Extends(ParseViews(n, views, b), ParseViews(n, views, b + more), more)
    decreases n
  {
    if n > 0 {
      ViewExtends(b, more);
      if ParseView(b).Success? {
        var v := ParseView(b).value;
        ViewsExtend(n - 1, Push(views, v.content), v.rest, more);
      }
    }
  }

  lemma HeaderExtends(b: Bytes, more: Bytes)
    ensures Extends(ParseHeader(b), ParseHeader(b + more), more)
  {
    SizeExtends(b, more);
    if ParseSize(b).Success? {
      var size := ParseSize(b).value;
      BlockExtends(size.rest, more);
      if ParseBlock(size.rest).Success? {
        SizeExtends(ParseBlock(size.rest).value.rest, more);
      }
    }
  }

  /** Loading a descriptor does not look at the bytes behind it. */
  lemma LoadExtends(b: Bytes, more: Bytes)
    ensures Extends(Parse(b), Parse(b + more), more)
  {
    HeaderExtends(b, more);
    if ParseHeader(b).Success? {
      var h := ParseHeader(b).value;
      ViewsExtend(h.content.numViews, [], h.rest, more);
    }
  }

  // ----- Bytes that end too early -----

  lemma {:induction false} ViewsFail(n: nat, views: seq<View>, b: Bytes)
    ensures ParseViews(n, views, b).Failure? ==> ParseViews(n, views, b).error == READ_PAST_END
    decreases n
  {
    if n > 0 {
      SizesFail(2, if b == [] then [] else b[1..]);
      SizesFail(4, if b == [] then [] else b[1..]);
      if ParseView(b).Success? {
        var v := ParseView(b).value;
        ViewsFail(n - 1, Push(views, v.content), v.rest);
      }
    }
  }

  lemma {:induction false} SizesFail(k: nat, b: Bytes)
    ensures ParseSizes(k, b).Failure? ==> ParseSizes(k, b).error == READ_PAST_END
    decreases k
  {
    if k > 0 && ParseSize(b).Success? {
      SizesFail(k - 1, ParseSize(b).value.rest);
    }
  }

  /** The one error of loading is that of reading past the end. */
  lemma LoadFails(b: Bytes)
    ensures Parse(b).Failure? ==> Parse(b).error == READ_PAST_END
  {
    if ParseHeader(b).Success? {
      var h := ParseHeader(b).value;
      ViewsFail(h.content.numViews, [], h.rest);
    }
  }

  /** The first k bytes of a saved descriptor load if and only if they are all of it; otherwise reading ends too early. */
  lemma TruncatedFails(d: Descriptor, k: nat)
    requires d.Valid() && k <= |Encode(d)|
    ensures Parse(Encode(d)[..k]) == if k == |Encode(d)| then Success(Parsed(d, [])) else Failure(READ_PAST_END)
  {
    var b := Encode(d);
    SelfDelimiting(d, []);
    assert b + [] == b && b[..|b|] == b && b[..k] + b[k..] == b;
    LoadExtends(b[..k], b[k..]);
    LoadFails(b[..k]);
  }

  // ----- Tags that load does not know -----

  /** A view with a tag above 2 is its tag alone: nothing else is read for it, and no view is kept. */
  lemma UnknownTagIsSkipped(n: nat, views: seq<View>, tag: Byte, b: Bytes)
    requires tag > 2
    ensures ParseViews(n + 1, views, [tag] + b) == ParseViews(n, views, b)
  {
    assert ([tag] + b)[0] == tag && ([tag] + b)[1..] == b;
  }
}
