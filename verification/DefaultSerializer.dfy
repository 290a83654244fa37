/** The default metadata serializer: the metadata string behind its length. */
module DefaultSerializer {
  import opened Bytes
  import opened Wrappers
  import opened BufferWrapperArchive

  /** A metadata string; std::string::size() is a size_t. */
  type Metadata = Blob

  method Serialize(archive: OutputArchive, metadata: Metadata)
    modifies archive
    ensures archive.buffer == old(archive.buffer) + EncodeBlock(metadata)
    ensures archive.buffer == old(archive.buffer) + (EncodeSize(|metadata|) + metadata)
  {
    archive.Write(EncodeSize(|metadata|));
    archive.Write(metadata);
  }

  method Deserialize(archive: InputArchive) returns (r: Result<Metadata>)
    modifies archive
    ensures match ParseBlock(old(archive.buffer))
            case Success(p) => r == Success(p.content) && archive.buffer == p.rest
            case Failure(e) => r == Failure(e)
  {
    var size :- archive.ReadSize();
    ghost var before := archive.buffer;
    var str :- archive.Read(size);
    assert str == before[..size] && archive.buffer == before[size..];
    return Success(str);
  }
}
