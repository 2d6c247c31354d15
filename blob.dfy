/**
  Size-limited blob reads over a `git cat-file --batch` channel.

  `GetBlob` writes the requested sha to the batch process and reads back one header line
  `<sha> <type> <size>`. It checks the header against the request and returns a reader that
  yields at most `ContentSize` bytes of the object. Closing that reader cancels the batch process.
  Every error path cancels it too.

  The batch process is a `CatFileBatch` object. What it answers is given: whether the write fails,
  the parsed header line (or the reason it could not be read), and the bytes after the header.
  `cancelCalls` counts the calls of its cancel function.
*/
module Blob {
  import opened Wrappers

  const MinInt64: int := -0x8000_0000_0000_0000
  const MaxInt64: int := 0x7fff_ffff_ffff_ffff

  /** Go's int64, the type of object sizes and size limits. */
  type Int64 = x: int | MinInt64 <= x <= MaxInt64

  const GitObjectTypeBlob: string := "blob"

  /** A parsed `cat-file --batch` header line. */
  datatype BatchHeader = BatchHeader(sha: string, objectType: string, size: Int64)

  datatype BlobError =
    | WriteFailed(cause: string)                       // writing the sha to stdin failed
    | HeaderReadFailed(cause: string)                  // the header line could not be read
    | ShaMismatch(returned: string, expected: string)  // the channel answered for another object
    | InvalidObjectType(returned: string)              // an InvalidArgument error: not a blob

  /** The sizes and id of a `BlobReader`, without its content stream. */
  datatype BlobInfo = BlobInfo(sha: string, size: Int64, contentSize: Int64)

  /**
    The number of bytes the content reader delivers: the object size, capped by the limit when
    the limit is positive.
  */
  function ContentSize(objectSize: Int64, sizeLimit: Int64): (r: Int64)
    ensures sizeLimit <= 0 ==> r == objectSize
    ensures sizeLimit > 0 ==> r <= objectSize && r <= sizeLimit && (r == objectSize || r == sizeLimit)
  {
    if sizeLimit > 0 && sizeLimit < objectSize then sizeLimit else objectSize
  }

  /** The checks `GetBlob` makes of the header line read back for the request `sha`. */
  function ValidateHeader(sha: string, h: BatchHeader, sizeLimit: Int64): (r: Result<BlobInfo, BlobError>)
    ensures r.Ok? <==> h.sha == sha && h.objectType == GitObjectTypeBlob
    ensures h.sha != sha ==> r == Err(ShaMismatch(h.sha, sha))
    ensures h.sha == sha && h.objectType != GitObjectTypeBlob ==> r == Err(InvalidObjectType(h.objectType))
    ensures r.Ok? ==>
      && r.value.sha == sha
      && r.value.size == h.size
      && r.value.contentSize == ContentSize(h.size, sizeLimit)
      && (sizeLimit > 0 ==> r.value.contentSize <= r.value.size && r.value.contentSize <= sizeLimit)
      && (sizeLimit <= 0 ==> r.value.contentSize == r.value.size)
  {
    if h.sha != sha then Err(ShaMismatch(h.sha, sha))
    else if h.objectType != GitObjectTypeBlob then Err(InvalidObjectType(h.objectType))
    else Ok(BlobInfo(sha, h.size, ContentSize(h.size, sizeLimit)))
  }

  /** The outcome of `GetBlob`, given what the batch channel answers. */
  function OpenBlob(sha: string, writeError: Option<string>, header: Result<BatchHeader, string>, sizeLimit: Int64)
    : (r: Result<BlobInfo, BlobError>)
    ensures writeError.Some? ==> r == Err(WriteFailed(writeError.value))
    ensures writeError.None? && header.Err? ==> r == Err(HeaderReadFailed(header.error))
    ensures r.Ok? <==>
      writeError.None? && header.Ok? && header.value.sha == sha && header.value.objectType == GitObjectTypeBlob
    ensures r.Ok? ==>
      && r.value.sha == sha
      && r.value.size == header.value.size
      && r.value.contentSize == ContentSize(header.value.size, sizeLimit)
  {
    if writeError.Some? then Err(WriteFailed(writeError.value))
    else if header.Err? then Err(HeaderReadFailed(header.error))
    else ValidateHeader(sha, header.value, sizeLimit)
  }

  /** A reader over a fixed byte sequence: the batch process's stdout after the header line. */
  class Pipe {
    const data: seq<bv8>
    var pos: nat

    ghost predicate Valid()
      reads this
    {
      pos <= |data|
    }

    /**
      Reads up to `n` bytes. Like any io.Reader it may return fewer than asked, but at least one
      byte unless `n` is zero or the data is exhausted (then it reports end of file).
    */
    method Read(n: nat) returns (chunk: seq<bv8>, eof: bool)
      requires Valid()
      modifies this
      ensures Valid() && old(pos) <= pos
      ensures chunk == data[old(pos)..pos] && |chunk| <= n
      ensures eof <==> n > 0 && old(pos) == |data|
      ensures n > 0 && !eof ==> |chunk| > 0
    {
      if n == 0 {
        return [], false;
      }
      if pos == |data| {
        return [], true;
      }
      var k :| 1 <= k <= n && k <= |data| - pos;
      chunk := data[pos..pos + k];
      pos := pos + k;
      eof := false;
    }
  }

  /** The `cat-file --batch` process of one read: its stdin, its stdout and its cancel function. */
  class CatFileBatch {
    const writeError: Option<string>
    const header: Result<BatchHeader, string>
    const stdout: Pipe
    var stdin: seq<char>
    var cancelCalls: nat

    /** A freshly started batch process: nothing written, not cancelled. */
    constructor (writeError: Option<string>, header: Result<BatchHeader, string>, stdout: Pipe)
      ensures this.writeError == writeError && this.header == header && this.stdout == stdout
      ensures stdin == [] && cancelCalls == 0
    {
      this.writeError := writeError;
      this.header := header;
      this.stdout := stdout;
      stdin := [];
      cancelCalls := 0;
    }

    method Write(s: string) returns (err: Option<string>)
      modifies this
      ensures err == writeError
      ensures stdin == if writeError.None? then old(stdin) + s else old(stdin)
      ensures cancelCalls == old(cancelCalls)
    {
      err := writeError;
      if writeError.None? {
        stdin := stdin + s;
      }
    }

    method ReadBatchHeaderLine() returns (h: Result<BatchHeader, string>)
      ensures h == header
    {
      h := header;
    }

    method Cancel()
      modifies this
      ensures cancelCalls == old(cancelCalls) + 1 && stdin == old(stdin)
    {
      cancelCalls := cancelCalls + 1;
    }
  }

  /**
    The content reader of a blob: an io.LimitReader over the batch stdout that calls `stop` (the
    batch's cancel) when closed. `remaining` is the LimitReader's count of bytes still allowed.
  */
  class LimitReaderCloser {
    const reader: Pipe
    const stop: CatFileBatch
    var remaining: Int64
    ghost const limit: Int64
    ghost const start: nat
    ghost var delivered: seq<bv8>

    /** The bytes delivered are the stream's next bytes, and never more than the limit. */
    ghost predicate Valid()
      reads this, reader
    {
      && reader.Valid()
      && start <= reader.pos
      && delivered == reader.data[start..reader.pos]
      && remaining == limit - |delivered|
      && (limit <= 0 ==> delivered == [])
      && (limit > 0 ==> |delivered| <= limit)
    }

    constructor (reader: Pipe, limit: Int64, stop: CatFileBatch)
      requires reader.Valid()
      ensures Valid()
      ensures this.reader == reader && this.stop == stop && this.limit == limit
      ensures remaining == limit && delivered == [] && start == reader.pos
    {
      this.reader := reader;
      this.stop := stop;
      this.limit := limit;
      this.start := reader.pos;
      this.remaining := limit;
      this.delivered := [];
    }

    /**
      io.LimitedReader.Read: end of file once `remaining` is used up, otherwise a read of at most
      `remaining` bytes from the stream, which `remaining` then counts down by.
    */
    method Read(n: nat) returns (chunk: seq<bv8>, eof: bool)
      requires Valid()
      modifies this, reader
      ensures Valid()
      ensures |chunk| <= n && delivered == old(delivered) + chunk
      ensures remaining == old(remaining) - |chunk| && remaining <= old(remaining)
      ensures old(remaining) > 0 ==> remaining >= 0
      ensures limit > 0 ==> |delivered| <= limit
      ensures limit <= 0 ==> delivered == []
      ensures old(remaining) <= 0 ==> eof && chunk == []
      ensures eof ==> |delivered| == (if limit > 0 then limit else 0) || reader.pos == |reader.data|
    {
      if remaining <= 0 {
        return [], true;
      }
      var want := if n > remaining then remaining else n;
      chunk, eof := reader.Read(want);
      remaining := remaining - |chunk|;
      delivered := delivered + chunk;
    }

    /** Cancels the batch process, whether or not the content was read, and never fails. */
    method Close() returns (err: Option<string>)
      modifies stop
      ensures stop.cancelCalls == old(stop.cancelCalls) + 1 && stop.stdin == old(stop.stdin)
      ensures err.None?
    {
      stop.Cancel();
      err := None;
    }
  }

  datatype BlobReader = BlobReader(sha: string, size: Int64, contentSize: Int64, content: LimitReaderCloser)

  function Info(b: BlobReader): (info: BlobInfo)
  {
    BlobInfo(b.sha, b.size, b.contentSize)
  }

  /**
    Requests object `sha` from the batch channel. On every error path the batch process is
    cancelled. On success it is not, and the returned reader will deliver the first
    `contentSize` bytes of the object.
  */
  method GetBlob(batch: CatFileBatch, sha: string, sizeLimit: Int64) returns (r: Result<BlobReader, BlobError>)
    requires batch.stdout.Valid()
    modifies batch
    ensures var expected := OpenBlob(sha, batch.writeError, batch.header, sizeLimit);
      && (r.Ok? <==> expected.Ok?)
      && (r.Err? ==> r.error == expected.error)
      && (r.Ok? ==> Info(r.value) == expected.value)
    ensures batch.stdin == if batch.writeError.None? then old(batch.stdin) + sha + "\n" else old(batch.stdin)
    ensures batch.cancelCalls == old(batch.cancelCalls) + (if r.Err? then 1 else 0)
    ensures r.Ok? ==>
      && fresh(r.value.content)
      && r.value.content.Valid()
      && r.value.content.reader == batch.stdout
      && r.value.content.stop == batch
      && r.value.content.delivered == []
      && r.value.content.remaining == r.value.contentSize
  {
    var err := batch.Write(sha + "\n");
    if err.Some? {
      batch.Cancel();
      return Err(WriteFailed(err.value));
    }

    var header := batch.ReadBatchHeaderLine();
    if header.Err? {
      batch.Cancel();
      return Err(HeaderReadFailed(header.error));
    }

    var h := header.value;
    if h.sha != sha {
      batch.Cancel();
      return Err(ShaMismatch(h.sha, sha));
    }
    if h.objectType != GitObjectTypeBlob {
      batch.Cancel();
      return Err(InvalidObjectType(h.objectType));
    }

    var contentSize := ContentSize(h.size, sizeLimit);
    var content := new LimitReaderCloser(batch.stdout, contentSize, batch);
    return Ok(BlobReader(sha, h.size, contentSize, content));
  }
}
