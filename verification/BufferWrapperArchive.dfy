/** The two byte archives: an output archive that grows a buffer and an input archive that consumes a view. */
module BufferWrapperArchive {
  import opened Bytes
  import opened Wrappers

  const READ_PAST_END := "BufferWrapperInputArchive error: trying to read more than the buffer size"

  class OutputArchive {
    var buffer: Bytes

    constructor (buffer: Bytes)
      ensures this.buffer == buffer
    {
      this.buffer := buffer;
    }

    method Write(data: Bytes)
      modifies this
      ensures buffer == old(buffer) + data
    {
      buffer := buffer + data;
    }

    /** Writes size_t fields one after the other. */
    method WriteSizes(ns: seq<SizeT>)
      modifies this
      ensures buffer == old(buffer) + EncodeSizes(ns)
    {
      for i := 0 to |ns|
        invariant buffer + EncodeSizes(ns[i..]) == old(buffer) + EncodeSizes(ns)
      {
        Assoc(buffer, EncodeSize(ns[i]), EncodeSizes(ns[i + 1..]));
        assert ns[i..][0] == ns[i] && ns[i..][1..] == ns[i + 1..];
        Write(EncodeSize(ns[i]));
      }
    }
  }

  class InputArchive {
    var buffer: Bytes

    constructor (buffer: Bytes)
      ensures this.buffer == buffer
    {
      this.buffer := buffer;
    }

    /** Takes the next size bytes; a failing read consumes nothing. */
    method Read(size: nat) returns (r: Result<Bytes>)
      modifies this
      ensures r.Success? <==> size <= |old(buffer)|
      ensures r.Success? ==> |r.value| == size && old(buffer) == r.value + buffer
      ensures r.Failure? ==> r.error == READ_PAST_END && buffer == old(buffer)
    {
      if size > |buffer| {
        return Failure(READ_PAST_END);
      }
      r := Success(buffer[..size]);
      buffer := buffer[size..];
    }

    /** Reads a size_t: the pattern ar.read(&n, sizeof(n)). */
    method ReadSize() returns (r: Result<SizeT>)
      modifies this
      ensures ParseSize(old(buffer)) == if r.Success? then Success(Parsed(r.value, buffer)) else Failure(r.error)
      ensures r.Failure? ==> buffer == old(buffer)
    {
      ghost var before := buffer;
      var b :- Read(SIZE_T_BYTES);
      assert b == before[..SIZE_T_BYTES] && buffer == before[SIZE_T_BYTES..];
      return Success(DecodeSize(b));
    }

    /** Reads k size_t fields one after the other. */
    method ReadSizes(k: nat) returns (r: Result<seq<SizeT>>)
      modifies this
      ensures match ParseSizes(k, old(buffer))
              case Success(p) => r == Success(p.content) && buffer == p.rest
              case Failure(e) => r == Failure(e)
      decreases k
    {
      if k == 0 {
        return Success([]);
      }
      var first :- ReadSize();
      var others :- ReadSizes(k - 1);
      return Success([first] + others);
    }

    /** Reads a length, then that many bytes. */
    method ReadBlock() returns (r: Result<Bytes>)
      modifies this
      ensures match ParseBlock(old(buffer))
              case Success(p) => r == Success(p.content) && buffer == p.rest
              case Failure(e) => r == Failure(e)
    {
      var size :- ReadSize();
      ghost var before := buffer;
      var data :- Read(size);
      assert data == before[..size] && buffer == before[size..];
      return Success(data);
    }
  }

  // ----- Readers as functions: what was read, and the bytes that remain -----

  datatype Parsed<+T> = Parsed(content: T, rest: Bytes)

  function ParseBytes(b: Bytes, size: nat): Result<Parsed<Bytes>> {
    if size > |b| then Failure(READ_PAST_END) else Success(Parsed(b[..size], b[size..]))
  }

  function ParseSize(b: Bytes): Result<Parsed<SizeT>> {
    if SIZE_T_BYTES > |b| then Failure(READ_PAST_END)
    else Success(Parsed(DecodeSize(b[..SIZE_T_BYTES]), b[SIZE_T_BYTES..]))
  }

  /** k size_t values, read one after the other. */
  function ParseSizes(k: nat, b: Bytes): (r: Result<Parsed<seq<SizeT>>>)
    ensures r.Success? ==> |r.value.content| == k
    decreases k, b
  {
    if k == 0 then Success(Parsed([], b))
    else
      var first :- ParseSize(b);
      var others :- ParseSizes(k - 1, first.rest);
      Success(Parsed([first.content] + others.content, others.rest))
  }

  /** A block of bytes behind its length: the framing of strings and of descriptor locations. */
  function EncodeBlock(data: Bytes): Bytes {
    EncodeSize(|data|) + data
  }

  function ParseBlock(b: Bytes): Result<Parsed<Bytes>> {
    var size :- ParseSize(b);
    ParseBytes(size.rest, size.content)
  }

  lemma ParseSizeOfEncode(n: SizeT, tail: Bytes)
    ensures ParseSize(EncodeSize(n) + tail) == Success(Parsed(n, tail))
  {
    var b := EncodeSize(n) + tail;
    assert b[..SIZE_T_BYTES] == EncodeSize(n) && b[SIZE_T_BYTES..] == tail;
    DecodeOfEncodeSize(n);
  }

  lemma EncodeOfParseSize(b: Bytes)
    requires ParseSize(b).Success?
    ensures EncodeSize(ParseSize(b).value.content) + ParseSize(b).value.rest == b
  {
    EncodeOfDecodeSize(b[..SIZE_T_BYTES]);
  }

  lemma {:induction false} ParseSizesOfEncode(ns: seq<SizeT>, tail: Bytes)
    ensures ParseSizes(|ns|, EncodeSizes(ns) + tail) == Success(Parsed(ns, tail))
  {
    if ns == [] {
      assert EncodeSizes(ns) + tail == tail;
    } else {
      ParseSizeOfEncode(ns[0], EncodeSizes(ns[1..]) + tail);
      ParseSizesOfEncode(ns[1..], tail);
      Assoc(EncodeSize(ns[0]), EncodeSizes(ns[1..]), tail);
      assert [ns[0]] + ns[1..] == ns;
    }
  }

  lemma {:induction false} EncodeOfParseSizes(k: nat, b: Bytes)
    requires ParseSizes(k, b).Success?
    ensures EncodeSizes(ParseSizes(k, b).value.content) + ParseSizes(k, b).value.rest == b
    decreases k
  {
    var p := ParseSizes(k, b).value;
    if k == 0 {
    } else {
      var first := ParseSize(b).value;
      EncodeOfParseSize(b);
      EncodeOfParseSizes(k - 1, first.rest);
      assert p.content[1..] == ParseSizes(k - 1, first.rest).value.content;
      Assoc(EncodeSize(p.content[0]), EncodeSizes(p.content[1..]), p.rest);
    }
  }

  /** A block is self-delimiting: what follows it is left exactly. */
  lemma ParseBlockOfEncode(data: Bytes, tail: Bytes)
    requires |data| < SIZE_T_LIMIT
    ensures ParseBlock(EncodeBlock(data) + tail) == Success(Parsed(data, tail))
  {
    Assoc(EncodeSize(|data|), data, tail);
    ParseSizeOfEncode(|data|, data + tail);
    ParseBytesOfConcat(data, tail);
  }

  /** ... and canonical: no two byte strings are read as the same block and rest. */
  lemma EncodeOfParseBlock(b: Bytes)
    requires ParseBlock(b).Success?
    ensures EncodeBlock(ParseBlock(b).value.content) + ParseBlock(b).value.rest == b
  {
    EncodeOfParseSize(b);
    var size := ParseSize(b).value;
    var p := ParseBlock(b).value;
    assert size.rest == p.content + p.rest;
    Assoc(EncodeSize(size.content), p.content, p.rest);
  }

  lemma ParseBytesOfConcat(data: Bytes, tail: Bytes)
    ensures ParseBytes(data + tail, |data|) == Success(Parsed(data, tail))
  {
    assert (data + tail)[..|data|] == data && (data + tail)[|data|..] == tail;
  }
}
