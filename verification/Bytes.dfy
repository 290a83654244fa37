/**
 * Byte strings, size_t values and packed buffers.
 *
 * A size_t is eight bytes, stored little-endian, and its arithmetic wraps at 2^64 (functions Add and Minus).
 */
module Bytes {
  type Byte = n: int | 0 <= n < 256
  type Bytes = seq<Byte>

  const SIZE_T_LIMIT: int := 0x1_0000_0000_0000_0000
  const SIZE_T_BYTES: nat := 8

  type SizeT = n: int | 0 <= n < SIZE_T_LIMIT

  /** A byte string that fits in memory: its length is a size_t. */
  type Blob = b: Bytes | |b| < SIZE_T_LIMIT

  /** a + b in size_t arithmetic. */
  function Add(a: SizeT, b: SizeT): SizeT {
    if a + b < SIZE_T_LIMIT then a + b else a + b - SIZE_T_LIMIT
  }

  /** a - b in size_t arithmetic. */
  function Minus(a: SizeT, b: SizeT): SizeT {
    if b <= a then a - b else a - b + SIZE_T_LIMIT
  }

  /** Sums and differences are those of the integers, modulo 2^64. */
  lemma Wraps(a: SizeT, b: SizeT)
    ensures Add(a, b) == (a + b) % SIZE_T_LIMIT
    ensures Minus(a, b) == (a - b) % SIZE_T_LIMIT
  {
  }

  // ----- Fixed-width integers -----

  function Pow256(k: nat): (p: nat)
    ensures p >= 1
  {
    if k == 0 then 1 else 256 * Pow256(k - 1)
  }

  /** The k low-order bytes of n; higher ones are dropped. */
  function EncodeLE(n: nat, k: nat): (b: Bytes)
    ensures |b| == k
    decreases k, n
  {
    if k == 0 then [] else [n % 256] + EncodeLE(n / 256, k - 1)
  }

  function DecodeLE(b: Bytes): (n: nat)
    ensures n < Pow256(|b|)
  {
    if b == [] then 0 else b[0] + 256 * DecodeLE(b[1..])
  }

  lemma {:induction false} DecodeOfEncodeLE(n: nat, k: nat)
    requires n < Pow256(k)
    ensures DecodeLE(EncodeLE(n, k)) == n
    decreases k
  {
    if k == 0 {
    } else {
      DecodeOfEncodeLE(n / 256, k - 1);
      assert EncodeLE(n, k)[1..] == EncodeLE(n / 256, k - 1);
    }
  }

  lemma LowByte(low: Byte, high: nat)
    ensures (low + 256 * high) % 256 == low && (low + 256 * high) / 256 == high
  {
  }

  lemma {:induction false} EncodeOfDecodeLE(b: Bytes)
    ensures EncodeLE(DecodeLE(b), |b|) == b
  {
    if b == [] {
    } else {
      EncodeOfDecodeLE(b[1..]);
      LowByte(b[0], DecodeLE(b[1..]));
      assert EncodeLE(DecodeLE(b), |b|) == [b[0]] + b[1..];
    }
  }

  /** The bytes of a size_t in memory. */
  function EncodeSize(n: nat): (b: Bytes)
    ensures |b| == SIZE_T_BYTES
  {
    EncodeLE(n, SIZE_T_BYTES)
  }

  function DecodeSize(b: Bytes): SizeT
    requires |b| == SIZE_T_BYTES
  {
    assert Pow256(SIZE_T_BYTES) == SIZE_T_LIMIT;
    DecodeLE(b)
  }

  lemma DecodeOfEncodeSize(n: SizeT)
    ensures DecodeSize(EncodeSize(n)) == n
  {
    assert Pow256(SIZE_T_BYTES) == SIZE_T_LIMIT;
    DecodeOfEncodeLE(n, SIZE_T_BYTES);
  }

  lemma EncodeOfDecodeSize(b: Bytes)
    requires |b| == SIZE_T_BYTES
    ensures EncodeSize(DecodeSize(b)) == b
  {
    EncodeOfDecodeLE(b);
  }

  // ----- Arrays of size_t viewed as bytes -----

  function EncodeSizes(ns: seq<SizeT>): (b: Bytes)
    ensures |b| == SIZE_T_BYTES * |ns|
  {
    if ns == [] then [] else EncodeSize(ns[0]) + EncodeSizes(ns[1..])
  }

  function DecodeSizes(n: nat, b: Bytes): (ns: seq<SizeT>)
    requires |b| == SIZE_T_BYTES * n
    ensures |ns| == n
  {
    if n == 0 then []
    else [DecodeSize(b[..SIZE_T_BYTES])] + DecodeSizes(n - 1, b[SIZE_T_BYTES..])
  }

  lemma {:induction false} DecodeOfEncodeSizes(ns: seq<SizeT>)
    ensures DecodeSizes(|ns|, EncodeSizes(ns)) == ns
  {
    if ns == [] {
    } else {
      DecodeOfEncodeSize(ns[0]);
      DecodeOfEncodeSizes(ns[1..]);
      var b := EncodeSizes(ns);
      assert b[..SIZE_T_BYTES] == EncodeSize(ns[0]);
      assert b[SIZE_T_BYTES..] == EncodeSizes(ns[1..]);
    }
  }

  lemma {:induction false} EncodeOfDecodeSizes(n: nat, b: Bytes)
    requires |b| == SIZE_T_BYTES * n
    ensures EncodeSizes(DecodeSizes(n, b)) == b
  {
    if n == 0 {
    } else {
      var ns := DecodeSizes(n, b);
      EncodeOfDecodeSize(b[..SIZE_T_BYTES]);
      EncodeOfDecodeSizes(n - 1, b[SIZE_T_BYTES..]);
      assert ns[1..] == DecodeSizes(n - 1, b[SIZE_T_BYTES..]);
      assert b == b[..SIZE_T_BYTES] + b[SIZE_T_BYTES..];
    }
  }

  lemma Assoc<T>(a: seq<T>, b: seq<T>, c: seq<T>)
    ensures (a + b) + c == a + (b + c)
  {
  }

  lemma MoveFirst<T>(a: seq<T>, b: seq<T>)
    requires b != []
    ensures (a + [b[0]]) + b[1..] == a + b
  {
  }

  lemma SplitAt<T>(a: seq<T>, b: seq<T>)
    ensures (a + b)[0..0 + |a|] == a && (a + b)[|a|..|a| + |b|] == b
  {
  }

  lemma Middle<T>(a: seq<T>, b: seq<T>, c: seq<T>)
    ensures ((a + b) + c)[|a|..|a + b|] == b
  {
  }

  lemma SliceOfSlice<T>(s: seq<T>, i: nat, j: nat, k: nat, l: nat)
    requires i <= j <= |s| && k <= l <= j - i
    ensures s[i..j][k..l] == s[i + k..i + l]
  {
    assert |s[i..j][k..l]| == |s[i + k..i + l]|;
    assert forall x :: 0 <= x < l - k ==> s[i..j][k..l][x] == s[i + k..i + l][x];
  }

  // ----- Sums and concatenations -----

  function Sum(ns: seq<nat>): nat {
    if ns == [] then 0 else ns[0] + Sum(ns[1..])
  }

  lemma {:induction false} SumAppend(a: seq<nat>, b: seq<nat>)
    ensures Sum(a + b) == Sum(a) + Sum(b)
  {
    if a == [] {
      assert a + b == b;
    } else {
      SumAppend(a[1..], b);
      assert (a + b)[1..] == a[1..] + b;
    }
  }

  function Concat<T>(parts: seq<seq<T>>): seq<T> {
    if parts == [] then [] else parts[0] + Concat(parts[1..])
  }

  function Lengths<T>(parts: seq<seq<T>>): (ns: seq<nat>)
    ensures |ns| == |parts|
    ensures forall i :: 0 <= i < |parts| ==> ns[i] == |parts[i]|
  {
    seq(|parts|, i requires 0 <= i < |parts| => |parts[i]|)
  }

  lemma {:induction false} ConcatAppend<T>(a: seq<seq<T>>, b: seq<seq<T>>)
    ensures Concat(a + b) == Concat(a) + Concat(b)
  {
    if a == [] {
      assert a + b == b;
    } else {
      ConcatAppend(a[1..], b);
      assert (a + b)[1..] == a[1..] + b && (a + b)[0] == a[0];
      Assoc(a[0], Concat(a[1..]), Concat(b));
    }
  }

  lemma ConcatOne<T>(p: seq<T>)
    ensures Concat([p]) == p
  {
    assert Concat([p]) == p + Concat([]);
  }

  lemma ConcatSnoc<T>(a: seq<seq<T>>, p: seq<T>)
    ensures Concat(a + [p]) == Concat(a) + p
  {
    ConcatAppend(a, [p]);
    ConcatOne(p);
  }

  lemma {:induction false} ConcatLength<T>(parts: seq<seq<T>>)
    ensures |Concat(parts)| == Sum(Lengths(parts))
  {
    if parts == [] {
    } else {
      ConcatLength(parts[1..]);
      assert Lengths(parts)[1..] == Lengths(parts[1..]);
    }
  }

  /** Where part i starts in Concat(parts). */
  function Start<T>(parts: seq<seq<T>>, i: nat): nat
    requires i <= |parts|
  {
    |Concat(parts[..i])|
  }

  /** A range of parts is a slice of the packed buffer: the fact behind every offset in this system. */
  lemma ConcatSlice<T>(parts: seq<seq<T>>, i: nat, j: nat)
    requires i <= j <= |parts|
    ensures Start(parts, i) <= Start(parts, j) <= |Concat(parts)|
    ensures Concat(parts)[Start(parts, i)..Start(parts, j)] == Concat(parts[i..j])
  {
    var a, b, c := parts[..i], parts[i..j], parts[j..];
    assert parts[..j] == a + b && parts == (a + b) + c;
    ConcatAppend(a, b);
    ConcatAppend(a + b, c);
    Middle(Concat(a), Concat(b), Concat(c));
  }

  lemma ConcatPart<T>(parts: seq<seq<T>>, i: nat)
    requires i < |parts|
    ensures Start(parts, i + 1) == Start(parts, i) + |parts[i]|
    ensures Start(parts, i) + |parts[i]| <= |Concat(parts)|
    ensures Concat(parts)[Start(parts, i)..Start(parts, i) + |parts[i]|] == parts[i]
  {
    ConcatSlice(parts, i, i + 1);
    assert parts[i..i + 1] == [parts[i]];
    ConcatOne(parts[i]);
    assert parts[..i + 1] == parts[..i] + [parts[i]];
    ConcatSnoc(parts[..i], parts[i]);
  }

  lemma StartIsSum<T>(parts: seq<seq<T>>, i: nat)
    requires i <= |parts|
    ensures Start(parts, i) == Sum(Lengths(parts)[..i])
  {
    ConcatLength(parts[..i]);
    assert Lengths(parts)[..i] == Lengths(parts[..i]);
  }

  /** Appending parts moves no earlier part. */
  lemma StartOfPrefix<T>(parts: seq<seq<T>>, more: seq<seq<T>>, i: nat)
    requires i <= |parts|
    ensures Start(parts + more, i) == Start(parts, i)
  {
    assert (parts + more)[..i] == parts[..i];
  }

  lemma StartOfSuffix<T>(parts: seq<seq<T>>, more: seq<seq<T>>, i: nat)
    requires i <= |more|
    ensures Start(parts + more, |parts| + i) == |Concat(parts)| + Start(more, i)
  {
    assert (parts + more)[..|parts| + i] == parts + more[..i];
    ConcatAppend(parts, more[..i]);
  }

  /** The sizes array that goes with a packed buffer. */
  function Sizes(parts: seq<Blob>): (ns: seq<SizeT>)
    ensures |ns| == |parts|
    ensures forall i :: 0 <= i < |parts| ==> ns[i] == |parts[i]|
  {
    seq(|parts|, i requires 0 <= i < |parts| => |parts[i]|)
  }

  lemma SizesAppend(a: seq<Blob>, b: seq<Blob>)
    ensures Sizes(a + b) == Sizes(a) + Sizes(b)
  {
  }

  lemma SizesAreLengths(parts: seq<Blob>)
    ensures Sizes(parts) == Lengths(parts)
  {
  }

  /** Splitting a byte string by a list of lengths; the inverse of Concat once the lengths are known. */
  function Split<T>(b: seq<T>, ns: seq<nat>): (parts: seq<seq<T>>)
    requires Sum(ns) == |b|
    ensures |parts| == |ns|
    decreases |ns|
  {
    if ns == [] then [] else [b[..ns[0]]] + Split(b[ns[0]..], ns[1..])
  }

  lemma {:induction false} SplitIsInverse<T>(b: seq<T>, ns: seq<nat>)
    requires Sum(ns) == |b|
    ensures Concat(Split(b, ns)) == b
    ensures Lengths(Split(b, ns)) == ns
    decreases |ns|
  {
    if ns == [] {
    } else {
      var n, rest := ns[0], Split(b[ns[0]..], ns[1..]);
      SplitIsInverse(b[n..], ns[1..]);
      PartFirst(b[..n], rest);
      assert ns == [n] + ns[1..];
      assert b == b[..n] + b[n..];
    }
  }

  lemma PartFirst<T>(part: seq<T>, parts: seq<seq<T>>)
    ensures Concat([part] + parts) == part + Concat(parts)
    ensures Lengths([part] + parts) == [|part|] + Lengths(parts)
  {
    assert ([part] + parts)[1..] == parts;
  }
}
