/**
 * The copy operation: resolve the source and destination backends, refuse a directory
 * source, decide the real destination path, open a writer carrying the source's content
 * type, pump the source's chunks into it in order, and close it.
 */
module ServiceExtra {
  import opened Wrappers
  import opened Errors
  import opened Factory
  import opened Urls
  import opened UnixPaths

  datatype EntryMode = File | Dir | Unknown

  /**
   * What a stat reports about an object: its mode, its content type, and the file name
   * its Content-Disposition header carries, if it has one that names a file.
   */
  datatype Metadata = Metadata(mode: EntryMode, contentType: Option<string>, dispositionFilename: Option<string>)

  datatype CopyRequest = CopyRequest(source: Url, destination: Url)

  /**
   * A source byte stream: the chunks it yields in order, then either its end or a read
   * failure. The stream yields `std::io::Result`, so a failure is an I/O error, given by its
   * display text.
   */
  datatype ByteStream = ByteStream(chunks: seq<seq<bv8>>, failure: Option<string>) {
    /** `try_next` once `i` chunks have been taken: the next chunk, the end, or the failure. */
    function TryNext(i: nat): (r: Result<Option<seq<bv8>>, string>)
      requires i <= |chunks|
      ensures i < |chunks| ==> r == Success(Some(chunks[i]))
      ensures i == |chunks| ==> (r.Failure? <==> failure.Some?)
      ensures i == |chunks| && r.Success? ==> r.value.None?
      ensures i == |chunks| && r.Failure? ==> r.error == failure.value
    {
      if i < |chunks| then Success(Some(chunks[i]))
      else match failure
        case Some(e) => Failure(e)
        case None => Success(None)
    }
  }

  /**
   * How the storage backends answer each call a copy makes: the stat of a path, opening a
   * reader, opening a writer with a content type, opening the reader's byte stream, the
   * `n`-th write of a writer (counting from 0) and closing a writer. `None` is success.
   */
  datatype Backends = Backends(
    stat: (Operator, string) -> Result<Metadata, OpendalError>,
    reader: (Operator, string) -> Option<OpendalError>,
    writer: (Operator, string, Option<string>) -> Option<OpendalError>,
    bytesStream: (Operator, string) -> Result<ByteStream, OpendalError>,
    write: (Operator, string, nat) -> Option<OpendalError>,
    close: (Operator, string) -> Option<OpendalError>)

  /** The calls a copy makes, in order. */
  datatype Call =
    | Resolve(root: string)
    | Stat(op: Operator, path: string)
    | OpenReader(op: Operator, path: string)
    | OpenWriter(op: Operator, path: string, contentType: Option<string>)
    | OpenStream(op: Operator, path: string)
    | ReadChunk
    | WriteChunk(chunk: seq<bv8>)
    | CloseWriter

  /** The calls of a loop that read and wrote `chunks`, in order. */
  function PumpCalls(chunks: seq<seq<bv8>>): (calls: seq<Call>)
    ensures |calls| == 2 * |chunks|
  {
    if chunks == [] then []
    else PumpCalls(chunks[..|chunks| - 1]) + [ReadChunk, WriteChunk(chunks[|chunks| - 1])]
  }

  /** Each chunk is read, then written, before the next chunk is read. */
  lemma {:induction false} PumpCallsAlternate(chunks: seq<seq<bv8>>)
    ensures forall i :: 0 <= i < |chunks| ==>
      PumpCalls(chunks)[2 * i] == ReadChunk && PumpCalls(chunks)[2 * i + 1] == WriteChunk(chunks[i])
  {
    if chunks != [] {
      var init := chunks[..|chunks| - 1];
      PumpCallsAlternate(init);
      forall i | 0 <= i < |chunks|
        ensures PumpCalls(chunks)[2 * i] == ReadChunk && PumpCalls(chunks)[2 * i + 1] == WriteChunk(chunks[i])
      {
        if i < |init| {
          assert init[i] == chunks[i];
        }
      }
    }
  }

  lemma PumpStep(chunks: seq<seq<bv8>>, i: nat)
    requires i < |chunks|
    ensures PumpCalls(chunks[..i + 1]) == PumpCalls(chunks[..i]) + [ReadChunk, WriteChunk(chunks[i])]
  {
    assert chunks[..i + 1][..i] == chunks[..i];
  }

  /** The chunks' bytes, one after the other. */
  function Concat(chunks: seq<seq<bv8>>): seq<bv8> {
    if chunks == [] then [] else Concat(chunks[..|chunks| - 1]) + chunks[|chunks| - 1]
  }

  lemma ConcatStep(chunks: seq<seq<bv8>>, i: nat)
    requires i < |chunks|
    ensures Concat(chunks[..i + 1]) == Concat(chunks[..i]) + chunks[i]
  {
    assert chunks[..i + 1][..i] == chunks[..i];
  }

  /** A writer opened on a destination: what it has accepted so far, and whether it was closed. */
  class Writer {
    const op: Operator
    const path: string
    const contentType: Option<string>
    const backends: Backends
    var written: seq<bv8>
    var writes: nat
    var closed: bool

    constructor (op: Operator, path: string, contentType: Option<string>, backends: Backends)
      ensures this.op == op && this.path == path && this.contentType == contentType && this.backends == backends
      ensures written == [] && writes == 0 && !closed
    {
      this.op := op;
      this.path := path;
      this.contentType := contentType;
      this.backends := backends;
      written := [];
      writes := 0;
      closed := false;
    }

    /** `write`: the backend accepts the chunk and it is appended, or it refuses and nothing is appended. */
    method Write(chunk: seq<bv8>) returns (err: Option<OpendalError>)
      requires !closed
      modifies this
      ensures err == backends.write(op, path, old(writes))
      ensures written == (if err.None? then old(written) + chunk else old(written))
      ensures writes == old(writes) + 1 && !closed
    {
      err := backends.write(op, path, writes);
      if err.None? {
        written := written + chunk;
      }
      writes := writes + 1;
    }

    /** `close`: the writer is finished, whatever the backend answers. */
    method Close() returns (err: Option<OpendalError>)
      requires !closed
      modifies this
      ensures err == backends.close(op, path)
      ensures closed && written == old(written) && writes == old(writes)
    {
      err := backends.close(op, path);
      closed := true;
    }
  }

  /** The index of the first write that fails, or the number of chunks when none does. */
  function FirstFailedWrite(backends: Backends, op: Operator, path: string, count: nat, from: nat): (k: nat)
    requires from <= count
    ensures from <= k <= count
    ensures forall n :: from <= n < k ==> backends.write(op, path, n).None?
    ensures k < count ==> backends.write(op, path, k).Some?
    decreases count - from
  {
    if from == count || backends.write(op, path, from).Some? then from
    else FirstFailedWrite(backends, op, path, count, from + 1)
  }

  /**
   * `parse_location`: the URL's path is the object path, and only the URL with its path
   * cleared reaches the factory. A factory failure is an `anyhow` error wrapping it.
   */
  function ParseLocation(factory: OperatorFactory, global: OperatorRegistry, location: Url)
    : (r: Result<(string, Operator), AnyhowError>)
    ensures var resolved := FromUri(factory, global, Serialize(ClearPath(location)));
      && (r.Success? <==> resolved.Success?)
      && (r.Success? ==> r.value == (location.path, resolved.value))
      && (r.Failure? ==> r.error.opendal == Some(resolved.error) && r.error.text == resolved.error.text)
  {
    var uri := ClearPath(location);
    var op :- FromUri(factory, global, Serialize(uri)).MapError((e: OpendalError) => AnyhowError(e.text, Some(e)));
    Success((location.path, op))
  }

  /** What a copy has decided once its reader is open: both sides, the real destination, and the content type. */
  datatype Plan = Plan(srcOp: Operator, srcPath: string, dstOp: Operator, realDst: string, contentType: Option<string>)

  /** The calls made before the writer is opened, and the plan or the error that ended the copy. */
  datatype Prepared = Prepared(calls: seq<Call>, outcome: Result<Plan, Error>)

  const DirectorySourceMessage := "Copying directories is not supported (yet)"

  function NoFilenameMessage(srcPath: string, dstPath: string): string {
    "Cannot copy source '" + srcPath + "' into directory '" + dstPath + "': Source has no filename."
  }

  /**
   * The real destination path, from the stat of the destination: into a directory under the
   * source's file name (or, failing that, the bare Content-Disposition file name), or onto
   * the destination path itself when it is a file or does not exist.
   */
  function RealDestination(srcPath: string, srcMeta: Metadata, dstPath: string,
                           dstStat: Result<Metadata, OpendalError>): (r: Result<string, Error>)
    ensures !(dstStat.Success? && dstStat.value.mode == Dir) && r.Success? ==> r.value == dstPath
    ensures r.Failure? <==>
      || (dstStat.Failure? && dstStat.error.kind != NotFound)
      || (dstStat.Success? && dstStat.value.mode == Dir && FileName(srcPath).None? && srcMeta.dispositionFilename.None?)
  {
    match dstStat
    case Success(stat) =>
      if stat.mode == Dir then
        match FileName(srcPath)
        case Some(name) => Success(Join(dstPath, name))
        case None =>
          match srcMeta.dispositionFilename
          case Some(name) => Success(name)
          case None => Fail(NoFilenameMessage(srcPath, dstPath))
      else Success(dstPath)
    case Failure(e) =>
      if e.kind == NotFound then Success(dstPath) else Failure(Classify(e))
  }

  /** Into a directory, a source with a file name lands under that name, inside the directory. */
  lemma IntoDirectoryUsesSourceName(srcPath: string, srcMeta: Metadata, dstPath: string, dstMeta: Metadata)
    requires dstMeta.mode == Dir && FileName(srcPath).Some?
    ensures var r := RealDestination(srcPath, srcMeta, dstPath, Success(dstMeta));
      && r == Success(Join(dstPath, FileName(srcPath).value))
      && FileName(r.value) == FileName(srcPath)
  {
    FileNameOfJoin(dstPath, FileName(srcPath).value);
  }

  /** Into a directory, a source without a file name lands on its Content-Disposition name alone, not under the directory. */
  lemma IntoDirectoryUsesDispositionName(srcPath: string, srcMeta: Metadata, dstPath: string, dstMeta: Metadata)
    requires dstMeta.mode == Dir && FileName(srcPath).None? && srcMeta.dispositionFilename.Some?
    ensures RealDestination(srcPath, srcMeta, dstPath, Success(dstMeta)) == Success(srcMeta.dispositionFilename.value)
  {
  }

  /** Into a directory, a source with no name at all is refused with a terminal error naming both paths. */
  lemma IntoDirectoryWithoutName(srcPath: string, srcMeta: Metadata, dstPath: string, dstMeta: Metadata)
    requires dstMeta.mode == Dir && FileName(srcPath).None? && srcMeta.dispositionFilename.None?
    ensures RealDestination(srcPath, srcMeta, dstPath, Success(dstMeta))
         == Failure(Terminal(None, NoFilenameMessage(srcPath, dstPath)))
  {
  }

  /** A missing destination and an existing file (or an entry of unknown mode) are both written over at the given path. */
  lemma MissingDestinationLikeFile(srcPath: string, srcMeta: Metadata, dstPath: string, missing: OpendalError, dstMeta: Metadata)
    requires missing.kind == NotFound && dstMeta.mode != Dir
    ensures RealDestination(srcPath, srcMeta, dstPath, Failure(missing)) == Success(dstPath)
    ensures RealDestination(srcPath, srcMeta, dstPath, Success(dstMeta)) == Success(dstPath)
  {
  }

  /** Any other failure to stat the destination aborts the copy with that failure, classified. */
  lemma DestinationStatFailure(srcPath: string, srcMeta: Metadata, dstPath: string, e: OpendalError)
    requires e.kind != NotFound
    ensures RealDestination(srcPath, srcMeta, dstPath, Failure(e)) == Failure(Classify(e))
  {
  }

  /**
   * The straight-line part of `_copy`, up to and including opening the reader: resolve both
   * sides, stat the source, refuse a directory, stat the destination, decide the real
   * destination, and take the content type from the source's stat.
   */
  function Prepare(factory: OperatorFactory, global: OperatorRegistry, request: CopyRequest, backends: Backends)
    : (p: Prepared)
    ensures |p.calls| >= 1 && p.calls[0] == Resolve(Serialize(ClearPath(request.source)))
    ensures p.outcome.Success? ==> |p.calls| == 5
  {
    var srcRoot := Serialize(ClearPath(request.source));
    var dstRoot := Serialize(ClearPath(request.destination));
    match ParseLocation(factory, global, request.source)
    case Failure(e) => Prepared([Resolve(srcRoot)], Failure(FromAnyhow(e)))
    case Success((srcPath, srcOp)) =>
      match ParseLocation(factory, global, request.destination)
      case Failure(e) => Prepared([Resolve(srcRoot), Resolve(dstRoot)], Failure(FromAnyhow(e)))
      case Success((dstPath, dstOp)) =>
        var calls := [Resolve(srcRoot), Resolve(dstRoot), Stat(srcOp, srcPath)];
        match backends.stat(srcOp, srcPath)
        case Failure(e) => Prepared(calls, Failure(Classify(e)))
        case Success(srcMeta) =>
          if srcMeta.mode == Dir then Prepared(calls, Fail(DirectorySourceMessage))
          else
            var calls := calls + [Stat(dstOp, dstPath)];
            match RealDestination(srcPath, srcMeta, dstPath, backends.stat(dstOp, dstPath))
            case Failure(e) => Prepared(calls, Failure(e))
            case Success(realDst) =>
              var calls := calls + [OpenReader(srcOp, srcPath)];
              match backends.reader(srcOp, srcPath)
              case Some(e) => Prepared(calls, Failure(Classify(e)))
              case None => Prepared(calls, Success(Plan(srcOp, srcPath, dstOp, realDst, srcMeta.contentType)))
  }

  /**
   * Both sides are resolved before anything is stat'ed, source first. A failed resolution
   * ends the copy before any backend call, with the factory's error classified as usual.
   */
  lemma ResolveBeforeStat(factory: OperatorFactory, global: OperatorRegistry, request: CopyRequest, backends: Backends)
    ensures var p := Prepare(factory, global, request, backends);
      var srcRoot, dstRoot := Serialize(ClearPath(request.source)), Serialize(ClearPath(request.destination));
      var src, dst := FromUri(factory, global, srcRoot), FromUri(factory, global, dstRoot);
      && (src.Failure? ==> p.calls == [Resolve(srcRoot)] && p.outcome == Failure(Classify(src.error)))
      && (src.Success? && dst.Failure? ==>
            p.calls == [Resolve(srcRoot), Resolve(dstRoot)] && p.outcome == Failure(Classify(dst.error)))
      && (forall i :: 0 <= i < |p.calls| && !p.calls[i].Resolve? ==>
            2 <= i && p.calls[1] == Resolve(dstRoot) && src.Success? && dst.Success?)
  {
  }

  /**
   * A source that stats as a directory is refused with a terminal error; the destination is
   * never stat'ed and no reader is opened.
   */
  lemma DirectorySourceRefused(factory: OperatorFactory, global: OperatorRegistry, request: CopyRequest, backends: Backends)
    requires FromUri(factory, global, Serialize(ClearPath(request.source))).Success?
    requires FromUri(factory, global, Serialize(ClearPath(request.destination))).Success?
    requires var srcOp := FromUri(factory, global, Serialize(ClearPath(request.source))).value;
      backends.stat(srcOp, request.source.path).Success? && backends.stat(srcOp, request.source.path).value.mode == Dir
    ensures var p := Prepare(factory, global, request, backends);
      var srcOp := FromUri(factory, global, Serialize(ClearPath(request.source))).value;
      && p.outcome == Failure(Terminal(None, DirectorySourceMessage))
      && p.calls == [Resolve(Serialize(ClearPath(request.source))), Resolve(Serialize(ClearPath(request.destination))),
                     Stat(srcOp, request.source.path)]
  {
  }

  /**
   * Once both sides are resolved, each later failure ends the preparation where it happens:
   * a failed source stat after three calls, a failed destination decision after the
   * destination's stat (four calls, no reader), and a reader that fails to open after five.
   */
  lemma PrepareFailureExits(factory: OperatorFactory, global: OperatorRegistry, request: CopyRequest, backends: Backends)
    requires FromUri(factory, global, Serialize(ClearPath(request.source))).Success?
    requires FromUri(factory, global, Serialize(ClearPath(request.destination))).Success?
    ensures var p := Prepare(factory, global, request, backends);
      var srcOp := FromUri(factory, global, Serialize(ClearPath(request.source))).value;
      var dstOp := FromUri(factory, global, Serialize(ClearPath(request.destination))).value;
      var srcPath, dstPath := request.source.path, request.destination.path;
      var srcStat := backends.stat(srcOp, srcPath);
      && (srcStat.Failure? ==>
            |p.calls| == 3 && p.calls[2] == Stat(srcOp, srcPath) && p.outcome == Failure(Classify(srcStat.error)))
      && (srcStat.Success? && srcStat.value.mode != Dir ==>
            var decision := RealDestination(srcPath, srcStat.value, dstPath, backends.stat(dstOp, dstPath));
            && (decision.Failure? ==>
                  |p.calls| == 4 && p.calls[3] == Stat(dstOp, dstPath) && p.outcome == Failure(decision.error))
            && (decision.Success? && backends.reader(srcOp, srcPath).Some? ==>
                  && |p.calls| == 5 && p.calls[4] == OpenReader(srcOp, srcPath)
                  && p.outcome == Failure(Classify(backends.reader(srcOp, srcPath).value))))
  {
    var srcOp := FromUri(factory, global, Serialize(ClearPath(request.source))).value;
    var dstOp := FromUri(factory, global, Serialize(ClearPath(request.destination))).value;
    assert ParseLocation(factory, global, request.source) == Success((request.source.path, srcOp));
    assert ParseLocation(factory, global, request.destination) == Success((request.destination.path, dstOp));
  }

  /**
   * The destination decision's two refusals end the copy itself: into a directory with no
   * name for the source, a terminal error naming both paths; a destination stat failing
   * other than NotFound, that failure classified. In both cases no reader is opened.
   */
  lemma DestinationRefusalsAbortCopy(factory: OperatorFactory, global: OperatorRegistry, request: CopyRequest, backends: Backends)
    requires FromUri(factory, global, Serialize(ClearPath(request.source))).Success?
    requires FromUri(factory, global, Serialize(ClearPath(request.destination))).Success?
    requires var srcOp := FromUri(factory, global, Serialize(ClearPath(request.source))).value;
      backends.stat(srcOp, request.source.path).Success? && backends.stat(srcOp, request.source.path).value.mode != Dir
    ensures var p := Prepare(factory, global, request, backends);
      var srcOp := FromUri(factory, global, Serialize(ClearPath(request.source))).value;
      var dstOp := FromUri(factory, global, Serialize(ClearPath(request.destination))).value;
      var srcPath, dstPath := request.source.path, request.destination.path;
      var srcMeta := backends.stat(srcOp, srcPath).value;
      var dstStat := backends.stat(dstOp, dstPath);
      && (dstStat.Success? && dstStat.value.mode == Dir && FileName(srcPath).None? && srcMeta.dispositionFilename.None? ==>
            p.outcome == Failure(Terminal(None, NoFilenameMessage(srcPath, dstPath))) && |p.calls| == 4)
      && (dstStat.Failure? && dstStat.error.kind != NotFound ==>
            p.outcome == Failure(Classify(dstStat.error)) && |p.calls| == 4)
  {
    var srcOp := FromUri(factory, global, Serialize(ClearPath(request.source))).value;
    var dstOp := FromUri(factory, global, Serialize(ClearPath(request.destination))).value;
    assert ParseLocation(factory, global, request.source) == Success((request.source.path, srcOp));
    assert ParseLocation(factory, global, request.destination) == Success((request.destination.path, dstOp));
  }

  /**
   * A successful preparation has made exactly the five calls in order, decided the real
   * destination from the destination's stat, and takes the content type, and nothing else,
   * from the source's stat.
   */
  lemma PlanFromStats(factory: OperatorFactory, global: OperatorRegistry, request: CopyRequest, backends: Backends)
    requires Prepare(factory, global, request, backends).outcome.Success?
    ensures var p := Prepare(factory, global, request, backends);
      var plan := p.outcome.value;
      var srcRoot, dstRoot := Serialize(ClearPath(request.source)), Serialize(ClearPath(request.destination));
      var srcStat := backends.stat(plan.srcOp, plan.srcPath);
      && FromUri(factory, global, srcRoot) == Success(plan.srcOp)
      && FromUri(factory, global, dstRoot) == Success(plan.dstOp)
      && plan.srcPath == request.source.path
      && srcStat.Success? && srcStat.value.mode != Dir
      && plan.contentType == srcStat.value.contentType
      && RealDestination(plan.srcPath, srcStat.value, request.destination.path,
                         backends.stat(plan.dstOp, request.destination.path)) == Success(plan.realDst)
      && backends.reader(plan.srcOp, plan.srcPath).None?
      && p.calls == [Resolve(srcRoot), Resolve(dstRoot), Stat(plan.srcOp, plan.srcPath),
                     Stat(plan.dstOp, request.destination.path), OpenReader(plan.srcOp, plan.srcPath)]
  {
  }

  /**
   * What pumping `stream` into a fresh `writer` leaves behind: with `k` the first write the
   * backend refuses, exactly the first `k` chunks were written in order. A refused write ends
   * the copy with that opendal error, classified; a failed read ends it with the stream's I/O
   * error, retryable; either way the writer stays unclosed. Otherwise the writer was closed
   * once, after the last chunk, and the close's answer is the result. Each chunk is read
   * before it is written, and the next one is read only after that write was accepted.
   */
  ghost predicate Transferred(writer: Writer, stream: ByteStream, result: Result<(), Error>, calls: seq<Call>)
    reads writer
  {
    var chunks := stream.chunks;
    var k := FirstFailedWrite(writer.backends, writer.op, writer.path, |chunks|, 0);
    && writer.written == Concat(chunks[..k])
    && (k < |chunks| ==>
          && result == Failure(Classify(writer.backends.write(writer.op, writer.path, k).value))
          && !writer.closed && calls == PumpCalls(chunks[..k + 1]))
    && (k == |chunks| && stream.failure.Some? ==>
          && result == Failure(FromIo(stream.failure.value))
          && !writer.closed && calls == PumpCalls(chunks) + [ReadChunk])
    && (k == |chunks| && stream.failure.None? ==>
          && writer.closed && calls == PumpCalls(chunks) + [ReadChunk, CloseWriter]
          && result == (match writer.backends.close(writer.op, writer.path)
                        case Some(e) => Failure(Classify(e))
                        case None => Success(())))
  }

  /** A successful transfer wrote every chunk of the stream, in order, and closed the writer. */
  lemma TransferredSuccess(writer: Writer, stream: ByteStream, result: Result<(), Error>, calls: seq<Call>)
    requires Transferred(writer, stream, result, calls) && result.Success?
    ensures writer.closed && writer.written == Concat(stream.chunks)
    ensures calls == PumpCalls(stream.chunks) + [ReadChunk, CloseWriter]
  {
    assert stream.chunks[..|stream.chunks|] == stream.chunks;
  }

  /** A refused write ends the transfer: the writer keeps the chunks before it and stays open. */
  lemma RefusedWriteTransferred(writer: Writer, stream: ByteStream, i: nat, calls: seq<Call>)
    requires i < |stream.chunks| && i <= FirstFailedWrite(writer.backends, writer.op, writer.path, |stream.chunks|, 0)
    requires writer.backends.write(writer.op, writer.path, i).Some?
    requires writer.written == Concat(stream.chunks[..i]) && !writer.closed
    requires calls == PumpCalls(stream.chunks[..i + 1])
    ensures Transferred(writer, stream, Failure(Classify(writer.backends.write(writer.op, writer.path, i).value)), calls)
  {
  }

  /** A failed read after the last chunk ends the transfer with that I/O error, and the writer stays open. */
  lemma FailedReadTransferred(writer: Writer, stream: ByteStream, calls: seq<Call>)
    requires FirstFailedWrite(writer.backends, writer.op, writer.path, |stream.chunks|, 0) == |stream.chunks|
    requires stream.failure.Some?
    requires writer.written == Concat(stream.chunks) && !writer.closed
    requires calls == PumpCalls(stream.chunks) + [ReadChunk]
    ensures Transferred(writer, stream, Failure(FromIo(stream.failure.value)), calls)
  {
    assert stream.chunks[..|stream.chunks|] == stream.chunks;
  }

  /** The end of the stream closes the writer, and the close's answer is the transfer's result. */
  lemma ClosedTransferred(writer: Writer, stream: ByteStream, result: Result<(), Error>, calls: seq<Call>)
    requires FirstFailedWrite(writer.backends, writer.op, writer.path, |stream.chunks|, 0) == |stream.chunks|
    requires stream.failure.None?
    requires writer.written == Concat(stream.chunks) && writer.closed
    requires calls == PumpCalls(stream.chunks) + [ReadChunk, CloseWriter]
    requires result == (match writer.backends.close(writer.op, writer.path)
                        case Some(e) => Failure(Classify(e))
                        case None => Success(()))
    ensures Transferred(writer, stream, result, calls)
  {
    assert stream.chunks[..|stream.chunks|] == stream.chunks;
  }

  /**
   * The `while let` loop of `_copy` and the close after it, run on a fresh writer.
   */
  method Transfer(writer: Writer, stream: ByteStream) returns (result: Result<(), Error>, calls: seq<Call>)
    requires writer.written == [] && writer.writes == 0 && !writer.closed
    modifies writer
    ensures Transferred(writer, stream, result, calls)
  {
    calls := [];
    ghost var k := FirstFailedWrite(writer.backends, writer.op, writer.path, |stream.chunks|, 0);
    var i := 0;
    while true
      invariant 0 <= i <= k <= |stream.chunks|
      invariant writer.written == Concat(stream.chunks[..i])
      invariant writer.writes == i && !writer.closed
      invariant calls == PumpCalls(stream.chunks[..i])
      decreases |stream.chunks| - i
    {
      var next := stream.TryNext(i);
      calls := calls + [ReadChunk];
      if next.Failure? {
        assert stream.chunks[..i] == stream.chunks;
        result := Failure(FromIo(next.error));
        FailedReadTransferred(writer, stream, calls);
        return;
      }
      if next.value.None? {
        break;
      }
      var chunk := next.value.value;
      calls := calls + [WriteChunk(chunk)];
      PumpStep(stream.chunks, i);
      var err := writer.Write(chunk);
      if err.Some? {
        result := Failure(Classify(err.value));
        RefusedWriteTransferred(writer, stream, i, calls);
        return;
      }
      ConcatStep(stream.chunks, i);
      i := i + 1;
    }
    assert stream.chunks[..i] == stream.chunks;
    calls := calls + [CloseWriter];
    var err := writer.Close();
    result := if err.Some? then Failure(Classify(err.value)) else Success(());
    ClosedTransferred(writer, stream, result, calls);
  }

  /**
   * `_copy`. After the preparation, the writer is opened on the real destination with the
   * source's content type, the byte stream is opened, and the transfer runs. Every failure
   * returns at once, classified; nothing written is undone.
   */
  method Copy(factory: OperatorFactory, global: OperatorRegistry, request: CopyRequest, backends: Backends)
    returns (result: Result<(), Error>, writer: Writer?, calls: seq<Call>)
    ensures var p := Prepare(factory, global, request, backends);
      p.outcome.Failure? ==> result == Failure(p.outcome.error) && writer == null && calls == p.calls
    ensures var p := Prepare(factory, global, request, backends);
      p.outcome.Success? ==>
        var plan := p.outcome.value;
        var openErr := backends.writer(plan.dstOp, plan.realDst, plan.contentType);
        && (openErr.Some? ==>
              && result == Failure(Classify(openErr.value)) && writer == null
              && calls == p.calls + [OpenWriter(plan.dstOp, plan.realDst, plan.contentType)])
        && (openErr.None? ==>
              && writer != null && writer.op == plan.dstOp && writer.path == plan.realDst
              && writer.contentType == plan.contentType && writer.backends == backends)
    ensures var p := Prepare(factory, global, request, backends);
      p.outcome.Success? && writer != null ==>
        var plan := p.outcome.value;
        var stream := backends.bytesStream(plan.srcOp, plan.srcPath);
        var setup := p.calls + [OpenWriter(plan.dstOp, plan.realDst, plan.contentType), OpenStream(plan.srcOp, plan.srcPath)];
        && |calls| >= |setup| && calls[..|setup|] == setup
        && (stream.Failure? ==>
              && result == Failure(Classify(stream.error)) && calls == setup
              && writer.written == [] && !writer.closed)
        && (stream.Success? ==> Transferred(writer, stream.value, result, calls[|setup|..]))
    ensures result.Success? ==>
      var plan := Prepare(factory, global, request, backends).outcome.value;
      && Prepare(factory, global, request, backends).outcome.Success?
      && backends.bytesStream(plan.srcOp, plan.srcPath).Success?
      && writer != null && writer.closed
      && writer.written == Concat(backends.bytesStream(plan.srcOp, plan.srcPath).value.chunks)
  {
    var prepared := Prepare(factory, global, request, backends);
    calls := prepared.calls;
    writer := null;
    if prepared.outcome.Failure? {
      result := Failure(prepared.outcome.error);
      return;
    }
    var plan := prepared.outcome.value;

    calls := calls + [OpenWriter(plan.dstOp, plan.realDst, plan.contentType)];
    var openErr := backends.writer(plan.dstOp, plan.realDst, plan.contentType);
    if openErr.Some? {
      result := Failure(Classify(openErr.value));
      return;
    }
    writer := new Writer(plan.dstOp, plan.realDst, plan.contentType, backends);

    calls := calls + [OpenStream(plan.srcOp, plan.srcPath)];
    var streamed := backends.bytesStream(plan.srcOp, plan.srcPath);
    if streamed.Failure? {
      result := Failure(Classify(streamed.error));
      return;
    }
    var transferCalls;
    ghost var setup := calls;
    result, transferCalls := Transfer(writer, streamed.value);
    calls := calls + transferCalls;
    assert calls[|setup|..] == transferCalls;
    if result.Success? {
      TransferredSuccess(writer, streamed.value, result, transferCalls);
    }
  }
}
