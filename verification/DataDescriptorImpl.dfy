/** The descriptor object: save, load, flatten and makeSubView as the program runs them. */
module DataDescriptorImpls {
  import opened Bytes
  import opened Wrappers
  import opened BufferWrapperArchive
  import opened DataDescriptors
  import opened DescriptorViews

  class DataDescriptorImpl {
    var location: Bytes
    var views: seq<View>
    var size: SizeT

    ghost function Value(): Descriptor
      reads this
    {
      Descriptor(location, views, size)
    }

    constructor (location: Bytes, size: SizeT)
      ensures Value() == Descriptor(location, [], size)
    {
      this.location, this.views, this.size := location, [], size;
    }

    method Save(ar: OutputArchive)
      modifies ar
      ensures ar.buffer == old(ar.buffer) + Encode(Value())
    {
      ghost var start := ar.buffer;
      ar.Write(EncodeSize(size));
      ar.Write(EncodeSize(|location|));
      ar.Write(location);
      ar.Write(EncodeSize(|views|));
      ghost var goal := ar.buffer + EncodeViews(views);
      HeaderThenViews(start, Value());
      for i := 0 to |views|
        invariant ar.buffer + EncodeViews(views[i..]) == goal
      {
        assert views[i..][0] == views[i] && views[i..][1..] == views[i + 1..];
        Assoc(ar.buffer, EncodeView(views[i]), EncodeViews(views[i + 1..]));
        SaveView(ar, views[i]);
      }
    }

    /** The visitor of save. */
    static method SaveView(ar: OutputArchive, view: View)
      modifies ar
      ensures ar.buffer == old(ar.buffer) + EncodeView(view)
    {
      ghost var start := ar.buffer;
      ar.Write([Tag(view)]);
      match view {
        case Sub(offset, size) =>
          ar.WriteSizes([offset, size]);
        case Strided(offset, numBlocks, blockSize, gapSize) =>
          ar.WriteSizes([offset, numBlocks, blockSize, gapSize]);
        case Unstructured(segments) =>
          Assoc(ar.buffer, EncodeSize(|segments|), EncodeSegments(segments));
          ar.Write(EncodeSize(|segments|));
          ar.Write(EncodeSegments(segments));
      }
      Assoc(start, [Tag(view)], EncodeFields(view));
    }

    /** On an exception the fields hold whatever had been read; callers drop the object. */
    method Load(ar: InputArchive) returns (r: Result<()>)
      modifies this, ar
      ensures match Parse(old(ar.buffer))
              case Success(p) => r.Success? && Value() == p.content && ar.buffer == p.rest
              case Failure(e) => r == Failure(e)
    {
      var h :- LoadHeader(ar);
      size, location := h.size, h.location;
      views :- LoadViews(ar, h.numViews);
      return Success(());
    }

    static method LoadHeader(ar: InputArchive) returns (r: Result<Header>)
      modifies ar
      ensures match ParseHeader(old(ar.buffer))
              case Success(p) => r == Success(p.content) && ar.buffer == p.rest
              case Failure(e) => r == Failure(e)
    {
      var size :- ar.ReadSize();
      var location :- ar.ReadBlock();
      var numViews :- ar.ReadSize();
      return Success(Header(size, location, numViews));
    }

    static method LoadViews(ar: InputArchive, numViews: SizeT) returns (r: Result<seq<View>>)
      modifies ar
      ensures match ParseViews(numViews, [], old(ar.buffer))
              case Success(p) => r == Success(p.content) && ar.buffer == p.rest
              case Failure(e) => r == Failure(e)
    {
      var views := [];
      for i := 0 to numViews
        invariant ParseViews(numViews - i, views, ar.buffer) == ParseViews(numViews, [], old(ar.buffer))
      {
        var view :- LoadView(ar);
        views := Push(views, view);
      }
      return Success(views);
    }

    /** The body of the loop in load. */
    static method LoadView(ar: InputArchive) returns (r: Result<Option<View>>)
      modifies ar
      ensures match ParseView(old(ar.buffer))
              case Success(p) => r == Success(p.content) && ar.buffer == p.rest
              case Failure(e) => r == Failure(e)
    {
      ghost var before := ar.buffer;
      var tag :- ar.Read(1);
      assert tag[0] == before[0] && ar.buffer == before[1..];
      if tag[0] == SUB {
        var f :- ar.ReadSizes(2);
        return Success(Some(Sub(f[0], f[1])));
      } else if tag[0] == STRIDED {
        var f :- ar.ReadSizes(4);
        return Success(Some(Strided(f[0], f[1], f[2], f[3])));
      } else if tag[0] == UNSTRUCTURED {
        var segments :- LoadSegments(ar);
        return Success(Some(Unstructured(segments)));
      } else {
        return Success(None);
      }
    }

    static method LoadSegments(ar: InputArchive) returns (r: Result<seq<Segment>>)
      modifies ar
      ensures match ParseSegments(old(ar.buffer))
              case Success(p) => r == Success(p.content) && ar.buffer == p.rest
              case Failure(e) => r == Failure(e)
    {
      var n :- ar.ReadSize();
      ghost var before := ar.buffer;
      var data :- ar.Read(2 * SIZE_T_BYTES * n);
      assert data == before[..2 * SIZE_T_BYTES * n] && ar.buffer == before[2 * SIZE_T_BYTES * n..];
      return Success(DecodeSegments(n, data));
    }

    /** The views turned into segments of the root data, starting from [0, start). */
    method Flatten(variant: Variant, start: SizeT) returns (r: Result<seq<Segment>>)
      ensures r == FlattenFrom(variant, [Segment(0, start)], views)
    {
      var current := [Segment(0, start)];
      for i := 0 to |views|
        invariant FlattenFrom(variant, current, views[i..]) == FlattenFrom(variant, [Segment(0, start)], views)
      {
        assert views[i..][0] == views[i] && views[i..][1..] == views[i + 1..];
        match views[i] {
          case Sub(offset, size) => current := FlattenSub(variant, current, Segment(offset, size));
          case Strided(_, _, _, _) => return Failure(STRIDED_UNSUPPORTED);
          case Unstructured(_) => return Failure(UNSTRUCTURED_UNSUPPORTED);
        }
      }
      return Success(current);
    }

    /** The visitor of flatten for a sub-view. */
    static method FlattenSub(variant: Variant, current: seq<Segment>, sub: Segment) returns (result: seq<Segment>)
      ensures result == SubPass(variant, current, sub, 0, sub.size)
    {
      result := [];
      var sizeRead: SizeT, remaining: SizeT := 0, sub.size;
      var i := 0;
      while i < |current|
        invariant 0 <= i <= |current|
        invariant result + SubPass(variant, current[i..], sub, sizeRead, remaining)
               == SubPass(variant, current, sub, 0, sub.size)
      {
        var s := current[i];
        assert current[i..][0] == s && current[i..][1..] == current[i + 1..];
        if sizeRead >= Add(sub.offset, sub.size) {
          return;
        }
        var e := Emitted(variant, s, sub, sizeRead, remaining);
        if e.Some? {
          Assoc(result, [e.value], SubPass(variant, current[i + 1..], sub, Add(sizeRead, s.size), remaining - e.value.size));
          result := result + [e.value];
          remaining := remaining - e.value.size;
        }
        sizeRead := Add(sizeRead, s.size);
        i := i + 1;
      }
    }

    /** The view is a new object; this one keeps its views and its size. */
    method MakeSubView(offset: SizeT, size: SizeT) returns (d: DataDescriptorImpl)
      ensures fresh(d) && d.Value() == SubView(Value(), offset, size)
      ensures d.location == (if offset > this.size || size == 0 || this.size == 0 then [] else location)
    {
      if offset > this.size || size == 0 || this.size == 0 {
        d := new DataDescriptorImpl([], 0);
        return;
      }
      d := new DataDescriptorImpl(location, this.size);
      d.views := views;
      var s := Min(d.size - offset, size);
      d.views := d.views + [Sub(offset, s)];
      d.size := s;
    }
  }

  lemma HeaderThenViews(start: Bytes, d: Descriptor)
    ensures (((start + EncodeSize(d.size)) + EncodeSize(|d.location|)) + d.location + EncodeSize(|d.views|))
            + EncodeViews(d.views)
         == start + Encode(d)
  {
    var n := EncodeSize(|d.views|);
    Assoc(start, EncodeSize(d.size), EncodeSize(|d.location|));
    calc {
      (((start + EncodeSize(d.size)) + EncodeSize(|d.location|)) + d.location + n) + EncodeViews(d.views);
      { Assoc(start + EncodeSize(d.size), EncodeSize(|d.location|), d.location); }
      ((start + EncodeSize(d.size)) + EncodeBlock(d.location) + n) + EncodeViews(d.views);
      { Assoc((start + EncodeSize(d.size)) + EncodeBlock(d.location), n, EncodeViews(d.views)); }
      (start + EncodeSize(d.size)) + EncodeBlock(d.location) + (n + EncodeViews(d.views));
      { Assoc(start + EncodeSize(d.size), EncodeBlock(d.location), n + EncodeViews(d.views)); }
      (start + EncodeSize(d.size)) + (EncodeBlock(d.location) + (n + EncodeViews(d.views)));
      { Assoc(start, EncodeSize(d.size), EncodeBlock(d.location) + (n + EncodeViews(d.views))); }
      start + Encode(d);
    }
  }
}
