/**
 * What the views of a descriptor select, and what flatten makes of them.
 *
 * The meaning of a stack of sub-views is to slice the data by each view in turn (SliceAll). flatten computes
 * segments of the root data instead. The code that ships departs from that meaning in two places; the other
 * variant corrects both and computes it exactly.
 */
module DescriptorViews {
  import opened Bytes
  import opened Wrappers
  import opened DataDescriptors

  // ----- Meaning -----

  /** The part of b in [offset, offset + size), cut at the end of b. */
  function Clamp(b: Bytes, offset: nat, size: nat): Bytes {
    if offset >= |b| then [] else if offset + size <= |b| then b[offset..offset + size] else b[offset..]
  }

  predicate AllSub(views: seq<View>) {
    views == [] || (views[0].Sub? && AllSub(views[1..]))
  }

  /** Only stacks of sub-views are given a meaning. */
  function SliceAll(root: Bytes, views: seq<View>): Bytes
    decreases |views|
  {
    if views == [] then root
    else match views[0]
      case Sub(offset, size) => SliceAll(Clamp(root, offset, size), views[1..])
      case _ => []
  }

  /** Every view lies inside the extent that the views before it left. */
  predicate Stacked(extent: nat, views: seq<View>) {
    views == [] ||
    (views[0].Sub? && views[0].offset + views[0].size <= extent && Stacked(views[0].size, views[1..]))
  }

  function StackSize(extent: nat, views: seq<View>): nat
    requires Stacked(extent, views)
  {
    if views == [] then extent else StackSize(views[0].size, views[1..])
  }

  function TotalOffset(views: seq<View>): nat {
    if views == [] then 0
    else (if views[0].Sub? then views[0].offset else 0) + TotalOffset(views[1..])
  }

  function SubSize(v: View): nat {
    if v.Sub? then v.size else 0
  }

  lemma {:induction false} StackedIsAllSub(extent: nat, views: seq<View>)
    requires Stacked(extent, views)
    ensures AllSub(views)
  {
    if views == [] {
    } else {
      StackedIsAllSub(views[0].size, views[1..]);
    }
  }

  lemma {:induction false} StackFits(extent: nat, views: seq<View>)
    requires Stacked(extent, views)
    ensures TotalOffset(views) + StackSize(extent, views) <= extent
  {
    if views == [] {
    } else {
      StackFits(views[0].size, views[1..]);
    }
  }

  /** A stack selects one contiguous range of the root, of exactly the size its last view says. */
  lemma {:induction false} SliceOfStack(root: Bytes, views: seq<View>)
    requires Stacked(|root|, views)
    ensures TotalOffset(views) + StackSize(|root|, views) <= |root|
    ensures SliceAll(root, views)
         == root[TotalOffset(views)..TotalOffset(views) + StackSize(|root|, views)]
    decreases |views|
  {
    StackFits(|root|, views);
    if views == [] {
      assert root[0..|root|] == root;
    } else {
      SliceOfStackStep(root, views[0], views[1..]);
      SliceOfStack(root[views[0].offset..views[0].offset + views[0].size], views[1..]);
    }
  }

  lemma SliceOfStackStep(root: Bytes, v: View, views: seq<View>)
    requires v.Sub? && v.offset + v.size <= |root| && Stacked(v.size, views)
    ensures Clamp(root, v.offset, v.size) == root[v.offset..v.offset + v.size]
    ensures var start, size := TotalOffset(views), StackSize(v.size, views);
            && start + size <= v.size
            && root[v.offset..v.offset + v.size][start..start + size] == root[v.offset + start..v.offset + start + size]
  {
    StackFits(v.size, views);
    var start := TotalOffset(views);
    SliceOfSlice(root, v.offset, v.offset + v.size, start, start + StackSize(v.size, views));
  }

  // ----- makeSubView -----

  function SubView(d: Descriptor, offset: SizeT, size: SizeT): Descriptor {
    if offset > d.size || size == 0 || d.size == 0 then NULL_DESCRIPTOR
    else
      var s := Min(d.size - offset, size);
      Descriptor(d.location, d.views + [Sub(offset, s)], s)
  }

  /** d views data of the given extent: its stack is nested and its size is that of the selected data. */
  predicate Views(d: Descriptor, extent: nat) {
    Stacked(extent, d.views) && d.size == StackSize(extent, d.views)
  }

  lemma {:induction false} StackSnoc(extent: nat, views: seq<View>, v: View)
    requires Stacked(extent, views) && v.Sub?
    requires v.offset + v.size <= StackSize(extent, views)
    ensures Stacked(extent, views + [v]) && StackSize(extent, views + [v]) == v.size
  {
    var all := views + [v];
    if views == [] {
      assert all[1..] == [];
    } else {
      StackSnoc(views[0].size, views[1..], v);
      assert all[1..] == views[1..] + [v];
    }
  }

  lemma {:induction false} SliceSnoc(root: Bytes, views: seq<View>, v: View)
    requires AllSub(views) && v.Sub?
    ensures AllSub(views + [v])
    ensures SliceAll(root, views + [v]) == Clamp(SliceAll(root, views), v.offset, v.size)
    decreases |views|
  {
    var all := views + [v];
    if views == [] {
      assert all[1..] == [];
    } else {
      SliceSnoc(Clamp(root, views[0].offset, views[0].size), views[1..], v);
      assert all[1..] == views[1..] + [v];
    }
  }

  /** d stands for the bytes b of the root data. */
  predicate Selects(d: Descriptor, root: Bytes, b: Bytes) {
    Views(d, |root|) && AllSub(d.views) && SliceAll(root, d.views) == b && |b| == d.size
  }

  lemma ViewsSelect(d: Descriptor, root: Bytes)
    requires Views(d, |root|)
    ensures TotalOffset(d.views) + d.size <= |root|
    ensures Selects(d, root, root[TotalOffset(d.views)..TotalOffset(d.views) + d.size])
  {
    SliceOfStack(root, d.views);
    StackedIsAllSub(|root|, d.views);
  }

  /**
   * makeSubView on a descriptor of bytes b stands for b cut to [offset, offset + size), at the same location. It is the
   * null descriptor exactly when that range starts outside b, or b or the range is empty, and then there is nothing to
   * select.
   */
  lemma SubViewSelects(d: Descriptor, root: Bytes, b: Bytes, offset: SizeT, size: SizeT)
    requires Selects(d, root, b)
    ensures var r := SubView(d, offset, size);
            if offset > |b| || size == 0 || b == [] then r == NULL_DESCRIPTOR && Clamp(b, offset, size) == []
            else
              && r != NULL_DESCRIPTOR && r.location == d.location && Selects(r, root, Clamp(b, offset, size))
              && r.size == (if offset + size <= |b| then size else |b| - offset)
              && Clamp(b, offset, size) == b[offset..offset + r.size]
  {
    if !(offset > d.size || size == 0 || d.size == 0) {
      var v := Sub(offset, Min(d.size - offset, size));
      StackSnoc(|root|, d.views, v);
      SliceSnoc(root, d.views, v);
      assert Clamp(b, v.offset, v.size) == Clamp(b, offset, size);
    }
  }

  /** Any chain of makeSubView calls. */
  function Cut(d: Descriptor, cuts: seq<Segment>): Descriptor
    decreases |cuts|
  {
    if cuts == [] then d else Cut(SubView(d, cuts[0].offset, cuts[0].size), cuts[1..])
  }

  function SliceCuts(b: Bytes, cuts: seq<Segment>): Bytes
    decreases |cuts|
  {
    if cuts == [] then b else SliceCuts(Clamp(b, cuts[0].offset, cuts[0].size), cuts[1..])
  }

  lemma {:induction false} CutOfNothing(cuts: seq<Segment>)
    ensures SliceCuts([], cuts) == [] && Cut(NULL_DESCRIPTOR, cuts) == NULL_DESCRIPTOR
  {
    if cuts == [] {
    } else {
      CutOfNothing(cuts[1..]);
    }
  }

  /** Every chain of makeSubView calls stands for cutting the same data in turn; only an empty result can be null. */
  lemma {:induction false} CutSelects(d: Descriptor, root: Bytes, b: Bytes, cuts: seq<Segment>)
    requires Selects(d, root, b)
    ensures var r := Cut(d, cuts);
            || (r.location == d.location && Selects(r, root, SliceCuts(b, cuts)))
            || (r == NULL_DESCRIPTOR && SliceCuts(b, cuts) == [])
    decreases |cuts|
  {
    if cuts == [] {
    } else {
      var r := SubView(d, cuts[0].offset, cuts[0].size);
      SubViewSelects(d, root, b, cuts[0].offset, cuts[0].size);
      if r == NULL_DESCRIPTOR {
        CutOfNothing(cuts[1..]);
      } else {
        CutSelects(r, root, Clamp(b, cuts[0].offset, cuts[0].size), cuts[1..]);
      }
    }
  }

  // ----- flatten -----

  /**
   * Shipped: starts from [0, m_size) although m_size already counts the views, and skips a segment when the
   * bytes read so far end before that segment's own offset.
   * Intended: starts from the extent of the root data, and skips a segment that ends before the view starts.
   */
  datatype Variant = Shipped | Intended

  /** What one turn of the loop for a sub-view appends for segment s: nothing if it is skipped, else one segment. */
  function Emitted(variant: Variant, s: Segment, sub: Segment, sizeRead: SizeT, remaining: SizeT): (e: Option<Segment>)
    ensures e.Some? ==> e.value.size <= remaining
  {
    if Add(sizeRead, s.size) < (if variant == Shipped then s.offset else sub.offset) then None
    else
      var offset := if sizeRead < sub.offset then Minus(Add(s.offset, sub.offset), sizeRead) else s.offset;
      Some(Segment(offset, Min(Minus(s.size, Minus(offset, s.offset)), remaining)))
  }

  /** The pass over the current segments for one sub-view, with the accumulators of its loop. */
  function SubPass(variant: Variant, segments: seq<Segment>, sub: Segment,
                   sizeRead: SizeT, remaining: SizeT): seq<Segment>
  {
    if segments == [] || sizeRead >= Add(sub.offset, sub.size) then []
    else
      var read := Add(sizeRead, segments[0].size);
      match Emitted(variant, segments[0], sub, sizeRead, remaining)
      case None => SubPass(variant, segments[1..], sub, read, remaining)
      case Some(e) => [e] + SubPass(variant, segments[1..], sub, read, remaining - e.size)
  }

  const STRIDED_UNSUPPORTED := "\"Strided\" descriptor type not yet supported"
  const UNSTRUCTURED_UNSUPPORTED := "\"Unstructured\" descriptor type not yet supported"

  function FlattenFrom(variant: Variant, current: seq<Segment>, views: seq<View>): Result<seq<Segment>>
    decreases |views|
  {
    if views == [] then Success(current)
    else match views[0]
      case Sub(offset, size) => FlattenFrom(variant, SubPass(variant, current, Segment(offset, size), 0, size), views[1..])
      case Strided(_, _, _, _) => Failure(STRIDED_UNSUPPORTED)
      case Unstructured(_) => Failure(UNSTRUCTURED_UNSUPPORTED)
  }

  /** Flattening fails exactly if some view is not a sub-view, and the first such view decides the message. */
  lemma {:induction false} FlattenFailsIff(variant: Variant, current: seq<Segment>, views: seq<View>)
    ensures FlattenFrom(variant, current, views).Failure? <==> exists i :: 0 <= i < |views| && !views[i].Sub?
    ensures forall i :: 0 <= i < |views| && !views[i].Sub? && AllSub(views[..i]) ==>
              FlattenFrom(variant, current, views)
              == Failure(if views[i].Strided? then STRIDED_UNSUPPORTED else UNSTRUCTURED_UNSUPPORTED)
    decreases |views|
  {
    if views != [] && views[0].Sub? {
      var pass := SubPass(variant, current, Segment(views[0].offset, views[0].size), 0, views[0].size);
      FlattenFailsIff(variant, pass, views[1..]);
      forall i | 0 < i < |views| ensures AllSub(views[..i]) <==> AllSub(views[1..][..i - 1]) {
        assert views[..i][1..] == views[1..][..i - 1];
      }
      assert forall i :: 0 < i < |views| ==> views[i] == views[1..][i - 1];
    }
  }

  predicate InRange(root: Bytes, segments: seq<Segment>) {
    segments == [] || (segments[0].offset + segments[0].size <= |root| && InRange(root, segments[1..]))
  }

  function Piece(root: Bytes, s: Segment): Bytes {
    if s.offset + s.size <= |root| then root[s.offset..s.offset + s.size] else []
  }

  /** The bytes that reading segments in range one after the other yields. */
  function SegmentBytes(root: Bytes, segments: seq<Segment>): Bytes {
    if segments == [] then [] else Piece(root, segments[0]) + SegmentBytes(root, segments[1..])
  }

  // ----- The intended variant computes the meaning -----

  lemma {:induction false} EmptyStaysEmpty(variant: Variant, views: seq<View>)
    requires AllSub(views)
    ensures FlattenFrom(variant, [], views) == Success([])
    ensures SliceAll([], views) == []
  {
    if views == [] {
    } else {
      EmptyStaysEmpty(variant, views[1..]);
    }
  }

  /** The pass over a single segment; no pass over sub-views makes two segments out of one. */
  lemma OnePass(variant: Variant, s: Segment, sub: Segment)
    ensures SubPass(variant, [s], sub, 0, sub.size)
         == var e := Emitted(variant, s, sub, 0, sub.size);
            if Add(sub.offset, sub.size) == 0 || e.None? then [] else [e.value]
  {
    assert [s][1..] == [];
  }

  /** One view applied to a single segment. */
  function OneTurn(variant: Variant, s: Segment, v: View): Option<Segment> {
    if !v.Sub? || Add(v.offset, v.size) == 0 then None
    else Emitted(variant, s, Segment(v.offset, v.size), 0, v.size)
  }

  /** All views, each applied to the one segment the view before it left. */
  function Chain(variant: Variant, s: Segment, views: seq<View>): Option<Segment>
    decreases |views|
  {
    if views == [] then Some(s)
    else match OneTurn(variant, s, views[0])
      case None => None
      case Some(e) => Chain(variant, e, views[1..])
  }

  function OneOrNone(s: Option<Segment>): seq<Segment> {
    if s.None? then [] else [s.value]
  }

  lemma FlattenOne(variant: Variant, s: Segment, views: seq<View>)
    requires views != [] && views[0].Sub?
    ensures FlattenFrom(variant, [s], views) == FlattenFrom(variant, OneOrNone(OneTurn(variant, s, views[0])), views[1..])
  {
    OnePass(variant, s, Segment(views[0].offset, views[0].size));
  }

  lemma {:induction false} FlattenIsChain(variant: Variant, s: Segment, views: seq<View>)
    requires AllSub(views)
    ensures FlattenFrom(variant, [s], views) == Success(OneOrNone(Chain(variant, s, views)))
    decreases |views|
  {
    if views != [] {
      FlattenOne(variant, s, views);
      match OneTurn(variant, s, views[0]) {
        case None => EmptyStaysEmpty(variant, views[1..]);
        case Some(e) => FlattenIsChain(variant, e, views[1..]);
      }
    }
  }

  lemma EmptySegments(root: Bytes)
    ensures InRange(root, []) && SegmentBytes(root, []) == []
  {
  }

  /** One turn of the loop emits exactly the part of the segment that the view covers. */
  lemma IntendedTurn(root: Bytes, s: Segment, sub: Segment)
    requires s.offset + s.size <= |root| < SIZE_T_LIMIT
    ensures var cut := Clamp(Piece(root, s), sub.offset, sub.size);
            match Emitted(Intended, s, sub, 0, sub.size)
            case None => cut == []
            case Some(e) => e.offset + e.size <= |root| && Piece(root, e) == cut
  {
    if sub.offset <= s.size {
      SliceOfSlice(root, s.offset, s.offset + s.size, sub.offset, sub.offset + Min(s.size - sub.offset, sub.size));
    }
  }

  /** No view's end wraps to exactly 0, which the loop would take for an end already reached. */
  predicate NoEndWrapsToZero(views: seq<View>) {
    views == [] ||
    ((views[0].Sub? ==> views[0].offset + views[0].size != SIZE_T_LIMIT) && NoEndWrapsToZero(views[1..]))
  }

  lemma {:induction false} StackNeverWraps(extent: SizeT, views: seq<View>)
    requires Stacked(extent, views)
    ensures NoEndWrapsToZero(views)
  {
    if views == [] {
    } else {
      StackNeverWraps(views[0].size, views[1..]);
    }
  }

  lemma {:induction false} IntendedChain(root: Bytes, s: Segment, views: seq<View>)
    requires s.offset + s.size <= |root| < SIZE_T_LIMIT && AllSub(views)
    ensures var r := OneOrNone(Chain(Intended, s, views));
            && InRange(root, r)
            && SegmentBytes(root, r) == if NoEndWrapsToZero(views) then SliceAll(Piece(root, s), views) else []
    decreases |views|
  {
    EmptySegments(root);
    if views == [] {
      OneSegment(root, s);
    } else {
      IntendedTurn(root, s, Segment(views[0].offset, views[0].size));
      EmptyStaysEmpty(Intended, views[1..]);
      var e := OneTurn(Intended, s, views[0]);
      if e.Some? {
        IntendedChain(root, e.value, views[1..]);
      }
    }
  }

  lemma OneSegment(root: Bytes, s: Segment)
    requires s.offset + s.size <= |root|
    ensures InRange(root, [s]) && SegmentBytes(root, [s]) == Piece(root, s)
  {
    assert [s][1..] == [];
    assert Piece(root, s) + [] == Piece(root, s);
  }

  /**
   * Flattening any sub-views from the extent of the data reads exactly what slicing by each in turn selects, if and
   * only if no end wraps to 0 or nothing is selected anyway. For stacks built by makeSubView no end does.
   */
  lemma FlattenMeansSlicing(root: Bytes, views: seq<View>)
    requires |root| < SIZE_T_LIMIT && AllSub(views)
    ensures var r := FlattenFrom(Intended, [Segment(0, |root|)], views);
            && r.Success? && InRange(root, r.value)
            && (SegmentBytes(root, r.value) == SliceAll(root, views)
                <==> NoEndWrapsToZero(views) || SliceAll(root, views) == [])
    ensures Stacked(|root|, views) ==> NoEndWrapsToZero(views)
  {
    FlattenIsChain(Intended, Segment(0, |root|), views);
    IntendedChain(root, Segment(0, |root|), views);
    assert Piece(root, Segment(0, |root|)) == root;
    if Stacked(|root|, views) {
      StackNeverWraps(|root|, views);
    }
  }

  // ----- When the shipped variant does -----

  /**
   * What has to hold of the offsets for the shipped flatten of a descriptor of size m to be right: they are all
   * zero, or they add up to more than m (the subtraction then wraps, and min() restores the size of the view) and
   * no partial sum makes a later pass skip the only segment there is.
   */
  predicate ShippedFlattenSafe(m: nat, views: seq<View>) {
    || m == 0
    || TotalOffset(views) == 0
    || (&& TotalOffset(views) > m
        && forall j :: 0 < j < |views| ==> SafeAt(m, 0, views, j))
  }

  /** The j-th pass does not skip, when there are offsets adding up to o before the views. */
  predicate SafeAt(m: nat, o: nat, views: seq<View>, j: nat)
    requires 0 < j < |views|
  {
    PrefixSafe(m, o + TotalOffset(views[..j]), SubSize(views[j - 1]))
  }

  predicate PrefixSafe(m: nat, offsetSoFar: nat, size: nat) {
    if offsetSoFar <= m then 2 * offsetSoFar <= m else offsetSoFar <= size
  }

  /** No pass skips the segment, when the views so far have offsets adding up to o and the last has the given size. */
  predicate NeverSkips(m: nat, o: nat, size: nat, views: seq<View>)
    decreases |views|
  {
    views == [] || (PrefixSafe(m, o, size) && views[0].Sub? && NeverSkips(m, o + views[0].offset, views[0].size, views[1..]))
  }

  /** The segment the shipped loop holds after offsets adding up to o, if it has not been skipped. */
  function ShippedSegment(m: SizeT, o: SizeT, size: SizeT): Segment {
    if o <= m then Segment(o, m - o) else Segment(o, size)
  }

  lemma ShippedTurn(m: SizeT, o: SizeT, extent: SizeT, v: View)
    requires v.Sub? && m <= v.size && v.offset + v.size <= extent && o + extent < SIZE_T_LIMIT
    ensures OneTurn(Shipped, ShippedSegment(m, o, extent), v)
         == if v.offset + v.size == 0 || !PrefixSafe(m, o, extent) then None
            else Some(ShippedSegment(m, o + v.offset, v.size))
  {
  }

  /** What the shipped loop holds after all views, told by the offsets alone. */
  function ShippedWalk(m: SizeT, o: SizeT, extent: SizeT, views: seq<View>): Option<Segment>
    requires Stacked(extent, views) && o + extent < SIZE_T_LIMIT
    decreases |views|
  {
    if views == [] then Some(ShippedSegment(m, o, extent))
    else if views[0].offset + views[0].size == 0 || !PrefixSafe(m, o, extent) then None
    else ShippedWalk(m, o + views[0].offset, views[0].size, views[1..])
  }

  lemma {:induction false} ShippedChain(m: SizeT, o: SizeT, extent: SizeT, views: seq<View>)
    requires Stacked(extent, views) && StackSize(extent, views) == m && o + extent < SIZE_T_LIMIT
    ensures Chain(Shipped, ShippedSegment(m, o, extent), views) == ShippedWalk(m, o, extent, views)
    decreases |views|
  {
    if views != [] {
      var v := views[0];
      StackFits(v.size, views[1..]);
      ShippedTurn(m, o, extent, v);
      ShippedChain(m, o + v.offset, v.size, views[1..]);
    }
  }

  lemma {:induction false} ShippedWalkEnds(m: SizeT, o: SizeT, extent: SizeT, views: seq<View>)
    requires Stacked(extent, views) && StackSize(extent, views) == m && AllSub(views)
    requires o + extent < SIZE_T_LIMIT && TotalOffset(views) + m <= extent
    ensures var r := ShippedWalk(m, o, extent, views);
            var end := Some(ShippedSegment(m, o + TotalOffset(views), m));
            && (m > 0 ==> r == if NeverSkips(m, o, extent, views) then end else None)
            && (r == end || r == None)
    decreases |views|
  {
    if views != [] {
      StackFits(views[0].size, views[1..]);
      ShippedWalkEnds(m, o + views[0].offset, views[0].size, views[1..]);
    }
  }

  lemma {:induction false} NeverSkipsIff(m: nat, o: nat, size: nat, views: seq<View>)
    requires AllSub(views)
    ensures NeverSkips(m, o, size, views)
       <==> (views != [] ==> PrefixSafe(m, o, size)) && forall j :: 0 < j < |views| ==> SafeAt(m, o, views, j)
    decreases |views|
  {
    if views == [] {
    } else {
      var v := views[0];
      NeverSkipsIff(m, o + v.offset, v.size, views[1..]);
      forall j | 0 < j < |views|
        ensures SafeAt(m, o, views, j)
           <==> if j == 1 then PrefixSafe(m, o + v.offset, v.size) else SafeAt(m, o + v.offset, views[1..], j - 1)
      {
        assert views[..j][1..] == views[1..][..j - 1];
      }
      if forall j :: 0 < j < |views| ==> SafeAt(m, o, views, j) {
        var next, others := o + v.offset, views[1..];
        forall j | 0 < j < |others| ensures SafeAt(m, next, others, j) {
          assert SafeAt(m, o, views, j + 1);
        }
        assert |views| > 1 ==> SafeAt(m, o, views, 1);
      }
    }
  }

  /**
   * The shipped flatten of a descriptor built by makeSubView reads the bytes the descriptor stands for if and
   * only if its offsets pass ShippedFlattenSafe.
   */
  lemma ShippedFlattenIff(d: Descriptor, root: Bytes, b: Bytes)
    requires Selects(d, root, b) && |root| < SIZE_T_LIMIT
    ensures var r := FlattenFrom(Shipped, [Segment(0, d.size)], d.views);
            && r.Success? && InRange(root, r.value)
            && (SegmentBytes(root, r.value) == b <==> ShippedFlattenSafe(d.size, d.views))
  {
    SliceOfStack(root, d.views);
    ShippedResult(d, |root|);
    ShippedSegmentBytes(root, d.size, TotalOffset(d.views));
    EmptySegments(root);
  }

  lemma ShippedResult(d: Descriptor, extent: SizeT)
    requires Views(d, extent) && AllSub(d.views) && TotalOffset(d.views) + d.size <= extent
    ensures var r := FlattenFrom(Shipped, [Segment(0, d.size)], d.views);
            var total := TotalOffset(d.views);
            var end := ShippedSegment(d.size, total, d.size);
            && (r == Success([]) || r == Success([end]))
            && (d.size > 0 ==>
                  (ShippedFlattenSafe(d.size, d.views) <==> r == Success([end]) && (total == 0 || total > d.size)))
  {
    assert ShippedSegment(d.size, 0, extent) == Segment(0, d.size);
    FlattenIsChain(Shipped, Segment(0, d.size), d.views);
    ShippedChain(d.size, 0, extent, d.views);
    ShippedWalkEnds(d.size, 0, extent, d.views);
    if d.size > 0 {
      NeverSkipsIff(d.size, 0, extent, d.views);
      SafeIff(d.size, d.views);
    }
  }

  lemma ShippedSegmentBytes(root: Bytes, m: SizeT, total: SizeT)
    requires total + m <= |root| < SIZE_T_LIMIT
    ensures var r := [ShippedSegment(m, total, m)];
            InRange(root, r) && (SegmentBytes(root, r) == root[total..total + m] <==> m == 0 || total == 0 || total > m)
  {
    OneSegment(root, ShippedSegment(m, total, m));
    assert |root[total..total + m]| == m;
  }

  lemma SafeIff(m: nat, views: seq<View>)
    requires AllSub(views) && m > 0
    ensures ShippedFlattenSafe(m, views)
       <==> (TotalOffset(views) == 0 || TotalOffset(views) > m) && forall j :: 0 < j < |views| ==> SafeAt(m, 0, views, j)
  {
    if TotalOffset(views) == 0 {
      ZeroOffsets(views);
    }
  }

  lemma {:induction false} ZeroOffsets(views: seq<View>)
    requires AllSub(views) && TotalOffset(views) == 0
    ensures forall j :: 0 <= j <= |views| ==> TotalOffset(views[..j]) == 0
  {
    forall j | 0 <= j <= |views| ensures TotalOffset(views[..j]) == 0 {
      TotalOffsetPrefix(views, j);
    }
  }

  lemma {:induction false} TotalOffsetPrefix(views: seq<View>, j: nat)
    requires AllSub(views) && j <= |views|
    ensures TotalOffset(views[..j]) <= TotalOffset(views)
  {
    if j == 0 {
    } else {
      TotalOffsetPrefix(views[1..], j - 1);
      assert views[..j][1..] == views[1..][..j - 1];
    }
  }

  /** A plain failing input: the second half of ten bytes is flattened to nothing. */
  lemma ShippedFlattenFails()
    ensures var d := SubView(Descriptor([], [], 10), 5, 5);
            && Views(d, 10) && AllSub(d.views) && !ShippedFlattenSafe(d.size, d.views)
            && FlattenFrom(Shipped, [Segment(0, d.size)], d.views) == Success([Segment(5, 0)])
  {
    var d := SubView(Descriptor([], [], 10), 5, 5);
    assert d.views == [Sub(5, 5)];
    assert d.views[1..] == [];
    OnePass(Shipped, Segment(0, 5), Segment(5, 5));
  }
}
