/** Bulk references: a range of the memory exposed by another process. */
module BulkRefs {
  import opened Bytes

  /** The handle is the concatenation of the segments that were exposed; the address is not modelled. */
  datatype BulkRef = BulkRef(handle: Bytes, offset: nat, size: nat) {
    predicate Valid() {
      offset + size <= |handle|
    }

    /** What a transfer of the whole reference copies. */
    function Content(): Bytes
      requires Valid()
    {
      handle[offset..offset + size]
    }
  }
}
