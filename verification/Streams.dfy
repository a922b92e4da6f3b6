/** Reading in chunks of any length: the hashing reader of a stream upload, and copying a
    document to a sink. The digest is a parameter. */
module Streams {
  import opened Domain

  type Digest = seq<Byte> -> string

  /** A finite byte stream: a read gives a non-empty piece until the end, as short as it likes, or raises. */
  class Source {
    ghost const content: seq<Byte>
    var rest: seq<Byte>
    ghost var raised: bool

    ghost predicate Valid()
      reads this
    {
      |rest| <= |content| && rest == content[|content| - |rest|..]
    }

    ghost function Delivered(): seq<Byte>
      reads this
      requires Valid()
    {
      content[..|content| - |rest|]
    }

    constructor (content: seq<Byte>)
      ensures Valid() && this.content == content && rest == content && !raised
    {
      this.content := content;
      rest := content;
      raised := false;
    }

    /** `read(size)`; a negative size reads all. */
    method Read(size: int) returns (r: Option<seq<Byte>>)
      requires Valid()
      modifies this
      ensures Valid()
      ensures r.None? ==> rest == old(rest) && raised
      ensures r.Some? ==> raised == old(raised)
      ensures r.Some? ==> Delivered() == old(Delivered()) + r.value
      ensures r.Some? && 0 <= size ==> |r.value| <= size
      ensures r.Some? && size != 0 && r.value == [] ==> rest == []
    {
      var raises: bool := *;
      if raises {
        raised := true;
        return None;
      }
      var n: int := *;
      var most := if 0 <= size < |rest| then size else |rest|;
      if !(1 <= n <= most) { n := most; }
      r := Some(rest[..n]);
      rest := rest[n..];
    }
  }

  /** Counts and hashes what passes through it. */
  class HashingReader {
    const stream: Source
    var bytesRead: nat
    var hashed: seq<Byte>

    ghost predicate Valid()
      reads this, stream
    {
      stream.Valid() && hashed == stream.Delivered() && bytesRead == |hashed|
    }

    constructor (stream: Source)
      requires stream.Valid() && stream.Delivered() == []
      ensures Valid() && this.stream == stream
    {
      this.stream := stream;
      bytesRead := 0;
      hashed := [];
    }

    method Read(size: int) returns (r: Option<seq<Byte>>)
      requires Valid()
      modifies this, stream
      ensures Valid()
      ensures r.Some? ==> hashed == old(hashed) + r.value && bytesRead == old(bytesRead) + |r.value|
      ensures r.None? ==> hashed == old(hashed) && bytesRead == old(bytesRead)
      ensures r.Some? && 0 <= size ==> |r.value| <= size
      ensures r.Some? && size != 0 && r.value == [] ==> stream.rest == []
    {
      r := stream.Read(size);
      if r.Some? {
        bytesRead := bytesRead + |r.value|;
        hashed := hashed + r.value;
      }
    }

    method HexDigest(digest: Digest) returns (d: string)
      requires Valid()
      ensures d == digest(stream.Delivered())
    {
      d := digest(hashed);
    }
  }

  /** A content stream, with a close callback or without: closing it the first time runs the
      callback, or closes the underlying stream if there is none. */
  class ContentStream {
    const source: Source
    const size: nat
    const checksum: Option<string>
    const hasCallback: bool
    var closed: bool
    var callbackPending: bool
    var callbackRuns: nat
    var streamCloses: nat
    ghost var raised: bool

    ghost predicate Valid()
      reads this, source
    {
      && source.Valid() && callbackPending == (hasCallback && !closed)
      && callbackRuns == (if closed && hasCallback then 1 else 0)
      && streamCloses == (if closed && !hasCallback then 1 else 0)
    }

    constructor (source: Source, size: nat, checksum: Option<string>, hasCallback: bool)
      requires source.Valid()
      ensures Valid() && !closed && !raised
      ensures this.source == source && this.size == size && this.checksum == checksum
      ensures this.hasCallback == hasCallback
    {
      this.source := source;
      this.size := size;
      this.checksum := checksum;
      this.hasCallback := hasCallback;
      closed, callbackPending, callbackRuns, streamCloses, raised := false, hasCallback, 0, 0, false;
    }

    /** Idempotent; what closes may raise, but it is not run again. */
    method Close() returns (raises: bool)
      requires Valid()
      modifies this
      ensures Valid() && closed && callbackRuns + streamCloses == 1
      ensures old(closed) ==> !raises && unchanged(this)
      ensures raised == (old(raised) || raises)
    {
      if closed { return false; }
      closed := true;
      if callbackPending {
        callbackPending := false;
        callbackRuns := callbackRuns + 1;
      } else {
        streamCloses := streamCloses + 1;
      }
      raises := *;
      raised := raised || raises;
    }
  }

  /** The caller's sink; a write that raises may have written some of the chunk. */
  class Sink {
    var written: seq<Byte>
    ghost var raised: bool

    constructor ()
      ensures written == [] && !raised
    {
      written := [];
      raised := false;
    }

    method Write(chunk: seq<Byte>) returns (ok: bool)
      modifies this
      ensures ok ==> written == old(written) + chunk && raised == old(raised)
      ensures !ok ==> raised && old(written) <= written && written <= old(written) + chunk
    {
      ok := *;
      var n: int := *;
      if ok || !(0 <= n <= |chunk|) { n := |chunk|; }
      written := written + chunk[..n];
      raised := raised || !ok;
    }
  }

  datatype CopyError = ReadFailed | WriteFailed | CloseFailed | SizeMismatch | ChecksumMismatch

  datatype CopyResult = CopyResult(bytesCopied: nat, checksum: string, checksumVerified: bool)

  /** What the copied content is compared with: the row's checksum, or else the stream's. */
  function Expected(rowChecksum: Option<string>, streamChecksum: Option<string>): Option<string> {
    if rowChecksum.Some? && rowChecksum.value != "" then rowChecksum else streamChecksum
  }

  /** Copies chunk by chunk, closes the source on every way out, then compares size and checksum. */
  method CopyDocumentTo(source: ContentStream, sink: Sink, chunkSize: nat, verify: bool, rowChecksum: Option<string>,
                        digest: Digest)
    returns (r: Result<CopyResult, CopyError>)
    requires source.Valid() && !source.closed && source.source.Delivered() == [] && chunkSize > 0
    requires !source.source.raised && !sink.raised && !source.raised
    modifies source, source.source, sink
    ensures source.Valid() && source.closed && source.callbackRuns == (if source.hasCallback then 1 else 0)
    ensures old(sink.written) <= sink.written && sink.written <= old(sink.written) + source.source.content
    ensures r == Err(ReadFailed) <==> source.source.raised
    ensures r == Err(WriteFailed) <==> sink.raised
    ensures r == Err(CloseFailed) <==> source.raised && !source.source.raised && !sink.raised
    ensures !source.source.raised && !sink.raised ==> sink.written == old(sink.written) + source.source.content
    ensures !source.source.raised && !sink.raised && !source.raised ==>
              var content := source.source.content;
              var expected := if !verify then None
                              else if rowChecksum.Some? && rowChecksum.value != "" then rowChecksum
                              else source.checksum;
              && (r == Err(SizeMismatch) <==> |content| != source.size)
              && (r == Err(ChecksumMismatch) <==>
                    |content| == source.size && expected.Some? && digest(content) != expected.value)
              && (r.Ok? <==> |content| == source.size && (expected.Some? ==> digest(content) == expected.value))
              && (r.Ok? ==> r.value == CopyResult(|content|, digest(content), expected.Some?))
  {
    var copied: nat := 0;
    var hashed: seq<Byte> := [];
    var failure: Option<CopyError> := None;
    var ended := false;
    while !ended && failure.None?
      invariant source.Valid() && !source.closed && !source.raised
      invariant copied == |hashed| && (failure.None? ==> hashed == source.source.Delivered())
      invariant failure.None? ==> sink.written == old(sink.written) + hashed
      invariant old(sink.written) <= sink.written && sink.written <= old(sink.written) + source.source.content
      invariant ended ==> failure.None? && source.source.rest == []
      invariant failure.Some? ==> failure.value.ReadFailed? || failure.value.WriteFailed?
      invariant source.source.raised == (failure == Some(ReadFailed)) && sink.raised == (failure == Some(WriteFailed))
      decreases !ended && failure.None?, |source.source.rest|
    {
      var chunk := source.source.Read(chunkSize);
      if chunk.None? {
        failure := Some(ReadFailed);
      } else if chunk.value == [] {
        ended := true;
      } else {
        DeliveredIsPrefix(source.source);
        var ok := sink.Write(chunk.value);
        if !ok {
          failure := Some(WriteFailed);
        } else {
          copied := copied + |chunk.value|;
          hashed := hashed + chunk.value;
        }
      }
    }
    var raises := source.Close();
    if failure.Some? { return Err(failure.value); }
    assert source.source.Delivered() == source.source.content;
    if raises { return Err(CloseFailed); }
    if copied != source.size { return Err(SizeMismatch); }
    var expected := Expected(rowChecksum, source.checksum);
    if verify && expected.Some? {
      if digest(hashed) != expected.value { return Err(ChecksumMismatch); }
      return Ok(CopyResult(copied, digest(hashed), true));
    }
    r := Ok(CopyResult(copied, digest(hashed), false));
  }

  lemma DeliveredIsPrefix(s: Source)
    requires s.Valid()
    ensures s.Delivered() <= s.content && |s.Delivered()| + |s.rest| == |s.content|
  {
  }
}
