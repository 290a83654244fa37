/** A batch on the consumer's side: four arrays filled by one scatter from four remote regions. */
module ConsumerBatches {
  import opened Bytes
  import opened BulkRefs

  /** Writes data into the exposed local memory at the given offset. */
  function Overwritten(local: Bytes, offset: nat, data: Bytes): (r: Bytes)
    requires offset + |data| <= |local|
    ensures |r| == |local|
  {
    local[..offset] + data + local[offset + |data|..]
  }

  class ConsumerBatch {
    var metaSizes: seq<SizeT>
    var metaBuffer: Bytes
    var dataDescSizes: seq<SizeT>
    var dataDescBuffer: Bytes

    constructor (count: nat, metadataSize: nat, dataDescSize: nat)
      ensures |metaSizes| == |dataDescSizes| == count
      ensures |metaBuffer| == metadataSize && |dataDescBuffer| == dataDescSize
    {
      metaSizes, dataDescSizes := seq(count, _ => 0), seq(count, _ => 0);
      metaBuffer, dataDescBuffer := seq(metadataSize, _ => 0), seq(dataDescSize, _ => 0);
    }

    /** The memory of the four vectors, exposed as one bulk. */
    function Exposed(): Bytes
      reads this
    {
      EncodeSizes(metaSizes) + metaBuffer + EncodeSizes(dataDescSizes) + dataDescBuffer
    }

    /**
     * The four transfers, at running offsets in the local bulk. The references are those a feed() call announces:
     * count sizes each, and contents of the lengths this batch was made for.
     */
    method PullFrom(remoteMetaSizes: BulkRef, remoteMeta: BulkRef, remoteDescSizes: BulkRef, remoteDesc: BulkRef)
      requires remoteMetaSizes.Valid() && remoteMeta.Valid() && remoteDescSizes.Valid() && remoteDesc.Valid()
      requires remoteMetaSizes.size == SIZE_T_BYTES * |metaSizes| && remoteMeta.size == |metaBuffer|
      requires remoteDescSizes.size == SIZE_T_BYTES * |dataDescSizes| && remoteDesc.size == |dataDescBuffer|
      modifies this
      ensures metaSizes == DecodeSizes(old(|metaSizes|), remoteMetaSizes.Content())
      ensures metaBuffer == remoteMeta.Content()
      ensures dataDescSizes == DecodeSizes(old(|dataDescSizes|), remoteDescSizes.Content())
      ensures dataDescBuffer == remoteDesc.Content()
    {
      var n, m, k := SIZE_T_BYTES * |metaSizes|, |metaBuffer|, SIZE_T_BYTES * |dataDescSizes|;
      var local := Transfer(Exposed(), n, m, k, remoteMetaSizes, remoteMeta, remoteDescSizes, remoteDesc);
      metaSizes := DecodeSizes(|metaSizes|, local[..n]);
      metaBuffer := local[n..n + m];
      dataDescSizes := DecodeSizes(|dataDescSizes|, local[n + m..n + m + k]);
      dataDescBuffer := local[n + m + k..];
    }

    static method Transfer(exposed: Bytes, n: nat, m: nat, k: nat, metaSizes: BulkRef, meta: BulkRef,
                           descSizes: BulkRef, desc: BulkRef) returns (local: Bytes)
      requires metaSizes.Valid() && meta.Valid() && descSizes.Valid() && desc.Valid()
      requires metaSizes.size == n && meta.size == m && descSizes.size == k && |exposed| == n + m + k + desc.size
      ensures |local| == |exposed|
      ensures local[..n] == metaSizes.Content() && local[n..n + m] == meta.Content()
      ensures local[n + m..n + m + k] == descSizes.Content() && local[n + m + k..] == desc.Content()
    {
      local := exposed;
      var offset := 0;
      local := PullBulkRef(local, offset, metaSizes);
      offset := offset + n;
      local := PullBulkRef(local, offset, meta);
      offset := offset + m;
      local := PullBulkRef(local, offset, descSizes);
      offset := offset + k;
      local := PullBulkRef(local, offset, desc);
      FourWrites(exposed, metaSizes.Content(), meta.Content(), descSizes.Content(), desc.Content());
    }

    static method PullBulkRef(local: Bytes, offset: nat, remote: BulkRef) returns (r: Bytes)
      requires remote.Valid() && offset + remote.size <= |local|
      ensures r == Overwritten(local, offset, remote.Content())
    {
      if remote.size == 0 {
        assert remote.Content() == [] && local[..offset] + [] + local[offset..] == local;
        return local;
      }
      r := Overwritten(local, offset, remote.Content());
    }
  }

  lemma WriteAfter(done: Bytes, rest: Bytes, data: Bytes)
    requires |data| <= |rest|
    ensures Overwritten(done + rest, |done|, data) == (done + data) + rest[|data|..]
  {
  }

  /** Four writes at running offsets that fill the memory exactly leave the four pieces one after the other. */
  lemma FourWrites(local: Bytes, a: Bytes, b: Bytes, c: Bytes, d: Bytes)
    requires |local| == |a| + |b| + |c| + |d|
    ensures var w := Overwritten(Overwritten(Overwritten(Overwritten(local, 0, a), |a|, b), |a| + |b|, c),
                                 |a| + |b| + |c|, d);
            && w[..|a|] == a && w[|a|..|a| + |b|] == b
            && w[|a| + |b|..|a| + |b| + |c|] == c && w[|a| + |b| + |c|..] == d
  {
    assert local == [] + local;
    WriteAfter([], local, a);
    WriteAfter([] + a, local[|a|..], b);
    WriteAfter([] + a + b, local[|a|..][|b|..], c);
    WriteAfter([] + a + b + c, local[|a|..][|b|..][|c|..], d);
    FourPieces(a, b, c, d);
    assert local[|a|..][|b|..][|c|..][|d|..] == [];
    assert [] + a == a;
  }

  lemma FourPieces(a: Bytes, b: Bytes, c: Bytes, d: Bytes)
    ensures var w := (((a + b) + c) + d) + [];
            && w[..|a|] == a && w[|a|..|a| + |b|] == b
            && w[|a| + |b|..|a| + |b| + |c|] == c && w[|a| + |b| + |c|..] == d
  {
  }
}
