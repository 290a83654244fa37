/** Data descriptors: a location, a stack of views on the data found there, and the size of the viewed data. */
module DataDescriptors {
  import opened Bytes
  import opened Wrappers
  import opened BufferWrapperArchive

  datatype View =
    | Sub(offset: SizeT, size: SizeT)
    | Strided(offset: SizeT, numBlocks: SizeT, blockSize: SizeT, gapSize: SizeT)
    | Unstructured(segments: seq<Segment>)

  datatype Segment = Segment(offset: SizeT, size: SizeT)

  datatype Descriptor = Descriptor(location: Bytes, views: seq<View>, size: SizeT) {
    /** Vector lengths are size_t values. */
    predicate Valid() {
      && |location| < SIZE_T_LIMIT
      && |views| < SIZE_T_LIMIT
      && ValidViews(views)
    }
  }

  predicate ValidViews(views: seq<View>) {
    views == [] || ((views[0].Unstructured? ==> |views[0].segments| < SIZE_T_LIMIT) && ValidViews(views[1..]))
  }

  const NULL_DESCRIPTOR := Descriptor([], [], 0)

  // ----- The wire format -----

  const SUB: Byte := 0
  const STRIDED: Byte := 1
  const UNSTRUCTURED: Byte := 2

  function EncodeSegments(segments: seq<Segment>): Bytes {
    if segments == [] then []
    else EncodeSize(segments[0].offset) + EncodeSize(segments[0].size) + EncodeSegments(segments[1..])
  }

  function Tag(v: View): Byte {
    match v
    case Sub(_, _) => SUB
    case Strided(_, _, _, _) => STRIDED
    case Unstructured(_) => UNSTRUCTURED
  }

  function EncodeFields(v: View): Bytes {
    match v
    case Sub(offset, size) => EncodeSizes([offset, size])
    case Strided(offset, numBlocks, blockSize, gapSize) => EncodeSizes([offset, numBlocks, blockSize, gapSize])
    case Unstructured(segments) => EncodeSize(|segments|) + EncodeSegments(segments)
  }

  function EncodeView(v: View): Bytes {
    [Tag(v)] + EncodeFields(v)
  }

  function EncodeViews(views: seq<View>): Bytes {
    if views == [] then [] else EncodeView(views[0]) + EncodeViews(views[1..])
  }

  function Encode(d: Descriptor): Bytes {
    EncodeSize(d.size) + (EncodeBlock(d.location) + (EncodeSize(|d.views|) + EncodeViews(d.views)))
  }

  // ----- Reading it back -----

  /** The segment array is read in one piece, so a short buffer is refused before any segment is decoded. */
  function ParseSegments(b: Bytes): Result<Parsed<seq<Segment>>> {
    var n :- ParseSize(b);
    var data :- ParseBytes(n.rest, 2 * SIZE_T_BYTES * n.content);
    Success(Parsed(DecodeSegments(n.content, data.content), data.rest))
  }

  function DecodeSegments(n: nat, b: Bytes): (segments: seq<Segment>)
    requires |b| == 2 * SIZE_T_BYTES * n
    ensures |segments| == n
  {
    if n == 0 then []
    else
      [Segment(DecodeSize(b[..SIZE_T_BYTES]), DecodeSize(b[SIZE_T_BYTES..2 * SIZE_T_BYTES]))]
      + DecodeSegments(n - 1, b[2 * SIZE_T_BYTES..])
  }

  /** One iteration of the loop in load; a tag that names no view type is skipped without pushing a view. */
  function ParseView(b: Bytes): Result<Parsed<Option<View>>> {
    if b == [] then Failure(READ_PAST_END) else ParseTagged(b[0], b[1..])
  }

  function ParseTagged(tag: Byte, b: Bytes): Result<Parsed<Option<View>>> {
    if tag == SUB then
      var f :- ParseSizes(2, b);
      Success(Parsed(Some(Sub(f.content[0], f.content[1])), f.rest))
    else if tag == STRIDED then
      var f :- ParseSizes(4, b);
      Success(Parsed(Some(Strided(f.content[0], f.content[1], f.content[2], f.content[3])), f.rest))
    else if tag == UNSTRUCTURED then
      var s :- ParseSegments(b);
      Success(Parsed(Some(Unstructured(s.content)), s.rest))
    else
      Success(Parsed(None, b))
  }

  function Push(views: seq<View>, v: Option<View>): seq<View> {
    if v.Some? then views + [v.value] else views
  }

  /** The loop of load with n views to go, after the views already pushed. */
  function ParseViews(n: nat, views: seq<View>, b: Bytes): Result<Parsed<seq<View>>> {
    if n == 0 then Success(Parsed(views, b))
    else
      var v :- ParseView(b);
      ParseViews(n - 1, Push(views, v.content), v.rest)
  }

  /** The bytes up to and including the announced number of views. */
  datatype Header = Header(size: SizeT, location: Bytes, numViews: SizeT)

  function ParseHeader(b: Bytes): Result<Parsed<Header>> {
    var size :- ParseSize(b);
    var location :- ParseBlock(size.rest);
    var numViews :- ParseSize(location.rest);
    Success(Parsed(Header(size.content, location.content, numViews.content), numViews.rest))
  }

  function Parse(b: Bytes): Result<Parsed<Descriptor>> {
    var h :- ParseHeader(b);
    var views :- ParseViews(h.content.numViews, [], h.rest);
    Success(Parsed(Descriptor(h.content.location, views.content, h.content.size), views.rest))
  }

  // ----- The codec is self-delimiting -----

  lemma {:induction false} DecodeOfEncodeSegments(segments: seq<Segment>)
    ensures |EncodeSegments(segments)| == 2 * SIZE_T_BYTES * |segments|
    ensures DecodeSegments(|segments|, EncodeSegments(segments)) == segments
  {
    if segments == [] {
    } else {
      var s := segments[0];
      var b := EncodeSegments(segments);
      DecodeOfEncodeSegments(segments[1..]);
      assert b[..SIZE_T_BYTES] == EncodeSize(s.offset);
      assert b[SIZE_T_BYTES..2 * SIZE_T_BYTES] == EncodeSize(s.size);
      assert b[2 * SIZE_T_BYTES..] == EncodeSegments(segments[1..]);
      DecodeOfEncodeSize(s.offset);
      DecodeOfEncodeSize(s.size);
    }
  }

  lemma ParseSegmentsOfEncode(segments: seq<Segment>, tail: Bytes)
    requires |segments| < SIZE_T_LIMIT
    ensures ParseSegments(EncodeSize(|segments|) + (EncodeSegments(segments) + tail)) == Success(Parsed(segments, tail))
  {
    DecodeOfEncodeSegments(segments);
    ParseBytesOfConcat(EncodeSegments(segments), tail);
    ParseSizeOfEncode(|segments|, EncodeSegments(segments) + tail);
  }

  lemma ParseFieldsOfEncode(v: View, tail: Bytes)
    requires v.Unstructured? ==> |v.segments| < SIZE_T_LIMIT
    ensures ParseTagged(Tag(v), EncodeFields(v) + tail) == Success(Parsed(Some(v), tail))
  {
    match v
    case Sub(offset, size) =>
      ParseSizesOfEncode([offset, size], tail);
    case Strided(offset, numBlocks, blockSize, gapSize) =>
      ParseSizesOfEncode([offset, numBlocks, blockSize, gapSize], tail);
    case Unstructured(segments) =>
      Assoc(EncodeSize(|segments|), EncodeSegments(segments), tail);
      ParseSegmentsOfEncode(segments, tail);
  }

  lemma ParseViewOfEncode(v: View, tail: Bytes)
    requires v.Unstructured? ==> |v.segments| < SIZE_T_LIMIT
    ensures ParseView(EncodeView(v) + tail) == Success(Parsed(Some(v), tail))
  {
    var b := EncodeView(v) + tail;
    Assoc([Tag(v)], EncodeFields(v), tail);
    assert b[0] == Tag(v) && b[1..] == EncodeFields(v) + tail;
    ParseFieldsOfEncode(v, tail);
  }

  lemma EncodeViewsStep(views: seq<View>, tail: Bytes)
    requires views != []
    ensures EncodeViews(views) + tail == EncodeView(views[0]) + (EncodeViews(views[1..]) + tail)
  {
    Assoc(EncodeView(views[0]), EncodeViews(views[1..]), tail);
  }

  lemma ParseFirstView(before: seq<View>, views: seq<View>, tail: Bytes)
    requires views != [] && ValidViews(views)
    ensures ParseViews(|views|, before, EncodeViews(views) + tail)
         == ParseViews(|views| - 1, before + [views[0]], EncodeViews(views[1..]) + tail)
  {
    EncodeViewsStep(views, tail);
    ParseViewOfEncode(views[0], EncodeViews(views[1..]) + tail);
  }

  lemma {:induction false} ParseViewsOfEncode(before: seq<View>, views: seq<View>, tail: Bytes)
    requires ValidViews(views)
    ensures ParseViews(|views|, before, EncodeViews(views) + tail) == Success(Parsed(before + views, tail))
    decreases |views|
  {
    if views == [] {
      assert [] + tail == tail && before + [] == before;
    } else {
      ParseFirstView(before, views, tail);
      ParseViewsOfEncode(before + [views[0]], views[1..], tail);
      MoveFirst(before, views);
    }
  }

  lemma ParseHeaderOfEncode(size: SizeT, location: Bytes, numViews: SizeT, tail: Bytes)
    requires |location| < SIZE_T_LIMIT
    ensures ParseHeader(EncodeSize(size) + (EncodeBlock(location) + (EncodeSize(numViews) + tail)))
         == Success(Parsed(Header(size, location, numViews), tail))
  {
    ParseSizeOfEncode(size, EncodeBlock(location) + (EncodeSize(numViews) + tail));
    ParseBlockOfEncode(location, EncodeSize(numViews) + tail);
    ParseSizeOfEncode(numViews, tail);
  }

  /** Loading a saved descriptor, whatever bytes follow it, gives it back and leaves exactly those bytes. */
  lemma SelfDelimiting(d: Descriptor, tail: Bytes)
    requires d.Valid()
    ensures Parse(Encode(d) + tail) == Success(Parsed(d, tail))
  {
    var t := EncodeViews(d.views) + tail;
    Regroup(d, tail);
    ParseHeaderOfEncode(d.size, d.location, |d.views|, t);
    ParseViewsOfEncode([], d.views, tail);
    assert [] + d.views == d.views;
  }

  lemma Regroup(d: Descriptor, tail: Bytes)
    ensures Encode(d) + tail
         == EncodeSize(d.size) + (EncodeBlock(d.location) + (EncodeSize(|d.views|) + (EncodeViews(d.views) + tail)))
  {
    var v := EncodeSize(|d.views|) + EncodeViews(d.views);
    Assoc(EncodeSize(d.size), EncodeBlock(d.location) + v, tail);
    Assoc(EncodeBlock(d.location), v, tail);
    Assoc(EncodeSize(|d.views|), EncodeViews(d.views), tail);
  }

  // ----- ... and canonical, up to the tags that load skips -----

  lemma {:induction false} EncodeOfDecodeSegments(n: nat, b: Bytes)
    requires |b| == 2 * SIZE_T_BYTES * n
    ensures EncodeSegments(DecodeSegments(n, b)) == b
  {
    if n == 0 {
    } else {
      var first, second, rest := b[..SIZE_T_BYTES], b[SIZE_T_BYTES..2 * SIZE_T_BYTES], b[2 * SIZE_T_BYTES..];
      EncodeOfDecodeSegments(n - 1, rest);
      EncodeOfDecodeSize(first);
      EncodeOfDecodeSize(second);
      var segments := DecodeSegments(n, b);
      assert segments[1..] == DecodeSegments(n - 1, rest);
      assert EncodeSegments(segments) == first + second + rest;
      assert b == first + second + rest;
    }
  }

  lemma EncodeOfParseSegments(b: Bytes)
    requires ParseSegments(b).Success?
    ensures var p := ParseSegments(b).value;
            EncodeSize(|p.content|) + (EncodeSegments(p.content) + p.rest) == b
  {
    var n := ParseSize(b).value;
    EncodeOfParseSize(b);
    var data := ParseBytes(n.rest, 2 * SIZE_T_BYTES * n.content).value;
    EncodeOfDecodeSegments(n.content, data.content);
    assert n.rest == data.content + data.rest;
  }

  lemma EncodeOfParseFields(tag: Byte, b: Bytes)
    requires ParseTagged(tag, b).Success? && ParseTagged(tag, b).value.content.Some?
    ensures var p := ParseTagged(tag, b).value;
            Tag(p.content.value) == tag && EncodeFields(p.content.value) + p.rest == b
  {
    var p := ParseTagged(tag, b).value;
    match p.content.value
    case Sub(offset, size) =>
      EncodeOfParseSizes(2, b);
      assert ParseSizes(2, b).value.content == [offset, size];
    case Strided(offset, numBlocks, blockSize, gapSize) =>
      EncodeOfParseSizes(4, b);
      assert ParseSizes(4, b).value.content == [offset, numBlocks, blockSize, gapSize];
    case Unstructured(segments) =>
      EncodeOfParseSegments(b);
      Assoc(EncodeSize(|segments|), EncodeSegments(segments), p.rest);
  }

  lemma EncodeOfParseView(b: Bytes)
    requires ParseView(b).Success? && ParseView(b).value.content.Some?
    ensures EncodeView(ParseView(b).value.content.value) + ParseView(b).value.rest == b
  {
    EncodeOfParseFields(b[0], b[1..]);
    Assoc([b[0]], EncodeFields(ParseView(b).value.content.value), ParseView(b).value.rest);
    assert b == [b[0]] + b[1..];
  }

  lemma {:induction false} EncodeOfParseViews(n: nat, before: seq<View>, b: Bytes)
    requires ParseViews(n, before, b).Success?
    ensures var p := ParseViews(n, before, b).value;
            && before <= p.content
            && |p.content| <= |before| + n
            && (|p.content| == |before| + n ==> EncodeViews(p.content[|before|..]) + p.rest == b)
  {
    var p := ParseViews(n, before, b).value;
    if n == 0 {
      assert p.content[|before|..] == [];
    } else {
      var v := ParseView(b).value;
      EncodeOfParseViews(n - 1, Push(before, v.content), v.rest);
      if |p.content| == |before| + n {
        EncodeOfParseView(b);
        EncodeViewsStep(p.content[|before|..], p.rest);
        assert p.content[|before|..][1..] == p.content[|before| + 1..];
      }
    }
  }

  lemma EncodeOfParseHeader(b: Bytes)
    requires ParseHeader(b).Success?
    ensures var p := ParseHeader(b).value;
            b == EncodeSize(p.content.size)
                 + (EncodeBlock(p.content.location) + (EncodeSize(p.content.numViews) + p.rest))
  {
    EncodeOfParseSize(b);
    var size := ParseSize(b).value;
    EncodeOfParseBlock(size.rest);
    EncodeOfParseSize(ParseBlock(size.rest).value.rest);
  }

  /** Each of the next n views in the bytes has a tag that load knows: 0, 1 or 2. */
  predicate KnownTags(n: nat, b: Bytes) {
    n == 0 || (b != [] && b[0] <= UNSTRUCTURED && ParseView(b).Success? && KnownTags(n - 1, ParseView(b).value.rest))
  }

  lemma {:induction false} KeptIffKnown(n: nat, before: seq<View>, b: Bytes)
    requires ParseViews(n, before, b).Success?
    ensures |ParseViews(n, before, b).value.content| <= |before| + n
    ensures |ParseViews(n, before, b).value.content| == |before| + n <==> KnownTags(n, b)
  {
    if n > 0 {
      var v := ParseView(b).value;
      TagIsKnownIff(b);
      KeptIffKnown(n - 1, Push(before, v.content), v.rest);
    }
  }

  lemma TagIsKnownIff(b: Bytes)
    requires ParseView(b).Success?
    ensures b != [] && (ParseView(b).value.content.Some? <==> b[0] <= UNSTRUCTURED)
  {
  }

  /**
   * Saving what was loaded reproduces the bytes that were read if and only if every announced view has a known tag:
   * one it does not know is consumed, but the count written back is that of the views it kept.
   */
  lemma CanonicalIff(b: Bytes)
    requires Parse(b).Success?
    ensures var p, h := Parse(b).value, ParseHeader(b).value;
            Encode(p.content) + p.rest == b <==> KnownTags(h.content.numViews, h.rest)
  {
    var p := Parse(b).value;
    var h := ParseHeader(b).value;
    KeptIffKnown(h.content.numViews, [], h.rest);
    CanonicalIffKept(b);
  }

  lemma CanonicalIffKept(b: Bytes)
    requires Parse(b).Success?
    ensures var p := Parse(b).value;
            Encode(p.content) + p.rest == b <==> |p.content.views| == ParseHeader(b).value.content.numViews
  {
    var p := Parse(b).value;
    var d := p.content;
    var h := ParseHeader(b).value;
    EncodeOfParseHeader(b);
    EncodeOfParseViews(h.content.numViews, [], h.rest);
    assert d.views[0..] == d.views;
    Regroup(d, p.rest);
    if Encode(d) + p.rest == b {
      ParseHeaderOfEncode(d.size, d.location, |d.views|, EncodeViews(d.views) + p.rest);
    }
  }
}
