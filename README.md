# restate-opendal core, modelled in Dafny

This project models the core of `restate-opendal`. That service exposes storage operations (list, presign, copy) over Restate handlers. It picks the storage backend from the URL in each request. The model covers five pieces:

- **Operator factory** (`factory.dfy`, module `Factory`). The `OperatorFactory` enum dispatches to one of three loaders: the process-wide registry, an explicit registry, or a custom loader. `LambdaOperatorFactory` applies a transform to every operator its inner factory loads. Registries are partial maps from URI to an opaque `Operator`. The process-wide `DEFAULT_OPERATOR_REGISTRY` is passed in as a parameter (`global`).
- **Error classifier** (`errors.dfy`, module `Errors`). This is the status-code table for permanent opendal errors and the `From` conversions into the handler error. It also covers the `terminal!` macro, `TerminalExt::terminal` and `OpendalResultExt::into_handler_error`.
- **Dynamic location split and handler** (`service_dynamic.dfy`, module `ServiceDynamic`). `parse_uri` splits a URL into a backend root and an object path. The body that `handler_impl!` generates resolves the root and delegates to the shared service function. The URL is a five-field record in `urls.dfy`, together with its serialisation and `set_path("")`.
- **Presign response conversion** (`service.dfy`, module `Service`). Header pairs fold into a map. A value that is not text becomes the empty string, and a repeated name keeps its last value.
- **Copy** (`service_extra.dfy`, module `ServiceExtra`). `Prepare` is the straight-line part of `_copy`: it resolves both sides, stats the source, refuses a directory, decides the real destination path and opens the reader. `Copy` is a method. It opens a `Writer` (a class with a byte buffer, a content type and a `closed` flag), opens the byte stream and runs `Transfer`. `Transfer` is the `while let` loop plus the close. A chunk that cannot be read is an I/O error, so it becomes a retryable handler error through `From<std::io::Error>`. A `Call` trace records the calls in order: the resolutions, the stats, opening the reader, the writer and the stream, each pull from the stream (`ReadChunk`), each write and the close. Backend answers (stat, reader, writer, stream, the n-th write, close) are the function-valued fields of `Backends`. `unix_paths.dfy` models `typed_path`'s `file_name` and `join`.

When the destination is a directory and the source path has no file name, the real destination is the Content-Disposition filename **by itself**. It is not joined under the destination directory (`lib/src/service_extra.rs:67-71`). `ServiceExtra.IntoDirectoryUsesDispositionName` states this behaviour. The factory has no profile or chain resolution strategy.

## Model

| member | source | states |
|---|---|---|
| `Errors.StatusCode` | lib/src/error.rs:38-47 | every kind maps to one code, always between 400 and 501 |
| `Errors.StatusCodeShared` | lib/src/error.rs:38-47 | two different kinds share a code only if both are IsADirectory/NotADirectory (422), or both are unmapped (500) |
| `Errors.StatusCodeFallback` | lib/src/error.rs:46 | a kind gets 500 exactly when the table does not name it |
| `Errors.Classify` | lib/src/error.rs:36-53 | the result is terminal iff the error is permanent; a terminal result carries the table code for the kind; the message is always the error's text; a transient error is never terminal |
| `Errors.ClassifyDeterministic` | lib/src/error.rs:37-49 | permanent errors of the same kind get the same code, and terminality depends only on permanence |
| `Errors.FromAnyhow` | lib/src/error.rs:13-22 | an anyhow error that does not downcast to opendal becomes a non-terminal error carrying its own text |
| `Errors.AnyhowWrappingOpendal` | lib/src/error.rs:16-17 | an anyhow error wrapping an opendal error is classified exactly as that opendal error |
| `Errors.FromTerminal` | lib/src/error.rs:24-28 | a terminal error stays terminal and keeps its code and message |
| `Errors.FromIo` | lib/src/error.rs:30-34 | an I/O error becomes a non-terminal error carrying its text |
| `Errors.Fail` | lib/src/error.rs:75-86 | `terminal!` fails with a terminal error with the given message and the default code |
| `Errors.TerminalExt` | lib/src/error.rs:66-73 | success passes through unchanged; every error becomes terminal with its display text and the default code |
| `Errors.IntoHandlerError` | lib/src/error.rs:93-102 | success passes through; a permanent error becomes a code-less terminal error; a non-permanent error stays non-terminal; the message is kept |
| `Errors.IntoHandlerErrorAgreesWithClassify` | lib/src/error.rs:93-102 | `into_handler_error` and the `From` conversion agree on terminality and message, and differ only in the code |
| `Factory.OperatorRegistry.Load` | lib/src/factory.rs:14-15 | a registry loads a URI iff it is registered, giving the registered operator; otherwise it fails with the registry's refusal for that URI |
| `Factory.FromUri` | lib/src/factory.rs:12-18 | the default and explicit-registry variants succeed iff the URI is registered in their registry, with its operator, and otherwise fail with that registry's refusal for the URI |
| `Factory.Load` | lib/src/factory.rs:43-47 | a lambda factory succeeds iff its inner factory does and fails with the inner error; any other custom factory answers with its own loader |
| `Factory.DefaultFactory` | lib/src/factory.rs:3-6 | the default factory resolves every URI through the process-wide registry |
| `Factory.FromUriDispatch` | lib/src/factory.rs:12-18 | `Default` goes to the global registry, `Registry(r)` to `r`, and `Custom(c)` to `c`'s load; the loader's answer comes back unchanged |
| `Factory.LambdaLoad` | lib/src/factory.rs:43-47 | a lambda factory returns `fn(op)` when its inner factory yields `op`, and the inner error otherwise |
| `Factory.LambdaFailureIgnoresTransform` | lib/src/factory.rs:44 | when the inner factory fails, the transform is never consulted: any two transforms give the same answer |
| `Factory.NestedLambdasApplyInOrder` | lib/src/factory.rs:39-48 | nested lambda factories apply the innermost transform first, then the outer ones in order; a base failure comes out unchanged |
| `Urls.Serialize` | lib/src/service_dynamic.rs:56 | the URL's text starts with its scheme and a colon, and holds the path unchanged right after the scheme and authority |
| `Urls.ClearPath` | lib/src/service_dynamic.rs:54 | `set_path("")` keeps scheme, authority, query and fragment; the path becomes "" (or "/" for special schemes) |
| `ServiceDynamic.ParseUri` | lib/src/service_dynamic.rs:51-57 | the second element is the URL's path unchanged; the first is the URL's text with its path cleared |
| `ServiceDynamic.ParseUriKeepsAllButPath` | lib/src/service_dynamic.rs:51-57 | the root and the full URL text have the same text before and after the path; only the path differs |
| `ServiceDynamic.ParseUriRootIgnoresPath` | lib/src/service_dynamic.rs:51-57 | URLs that differ only in their path have the same root |
| `ServiceDynamic.RejoinParseUri` | lib/src/service_dynamic.rs:51-57 | for a well-formed URL without query or fragment, root and path rejoin to the original URL text |
| `ServiceDynamic.Handle` | lib/src/service_dynamic.rs:33-39 | only the root reaches the factory; a factory failure is returned classified; otherwise the service function gets the operator, the path and the whole request |
| `ServiceDynamic.HandleFailureSkipsService` | lib/src/service_dynamic.rs:36 | after a resolution failure, the answer is the same for any service function |
| `ServiceDynamic.HandleResolvesRootOnly` | lib/src/service_dynamic.rs:34-38 | a location's path never reaches the factory: moving the path leaves the resolved operator as it was |
| `Service.ToStr` | lib/src/service.rs:34 | a header value is text iff every byte is visible ASCII or tab, and then the text equals the bytes |
| `Service.HeaderText` | lib/src/service.rs:34 | a value with a byte that is not visible ASCII or tab becomes the empty string; text is kept byte for byte |
| `Service.CollectHeaders` | lib/src/service.rs:28-37 | the keys are exactly the header names, and each name holds the text of its last pair |
| `Service.LastValueOfLastPair` | lib/src/service.rs:31-37 | the last pair with a given name is the one whose value the map keeps |
| `Service.FromPresigned` | lib/src/service.rs:23-39 | method and URI text are copied; the header keys equal the request's names; on a repeated name the later pair wins |
| `UnixPaths.FileName` | lib/src/service_extra.rs:62 | a file name, when there is one, is a single normal component |
| `UnixPaths.FileNameIgnoresTrailingSlash` | lib/src/service_extra.rs:62 | a trailing slash does not change the file name |
| `UnixPaths.FileNameIgnoresTrailingDot` | lib/src/service_extra.rs:62 | a trailing "." component does not change the file name |
| `UnixPaths.NoFileNameAfterParent` | lib/src/service_extra.rs:62 | a path ending in ".." has no file name |
| `UnixPaths.NoFileNameWithoutNormalPiece` | lib/src/service_extra.rs:62 | a path without a normal component (such as "" or "/") has no file name, which sends the copy to the Content-Disposition fallback |
| `UnixPaths.Join` | lib/src/service_extra.rs:63-66 | the joined path is the directory followed by the name, with one separator added unless the directory is empty or already ends in one |
| `UnixPaths.FileNameOfJoin` | lib/src/service_extra.rs:62-66 | a normal component joined under any directory is the file name of the result |
| `ServiceExtra.ParseLocation` | lib/src/service_extra.rs:110-118 | the object path is the URL's path unchanged; only the URL with its path cleared reaches the factory; a factory failure comes back as an anyhow error wrapping it |
| `ServiceExtra.RealDestination` | lib/src/service_extra.rs:59-88 | a destination that is not a directory keeps its path; the decision fails iff the destination stat fails with a kind other than NotFound, or the destination is a directory and neither a source file name nor a Content-Disposition name exists |
| `ServiceExtra.IntoDirectoryUsesSourceName` | lib/src/service_extra.rs:60-66 | into a directory, the real destination is the directory joined with the source's file name, and its file name is the source's |
| `ServiceExtra.IntoDirectoryUsesDispositionName` | lib/src/service_extra.rs:67-71 | into a directory with no source file name, the real destination is the bare Content-Disposition filename |
| `ServiceExtra.IntoDirectoryWithoutName` | lib/src/service_extra.rs:72-77 | with no name at all, the copy fails terminally with the "Source has no filename." message naming both paths |
| `ServiceExtra.MissingDestinationLikeFile` | lib/src/service_extra.rs:80-84 | a NotFound destination and an existing non-directory destination both keep the destination path unchanged |
| `ServiceExtra.DestinationStatFailure` | lib/src/service_extra.rs:85-87 | any other destination stat error aborts the copy with that error, classified |
| `ServiceExtra.Prepare` | lib/src/service_extra.rs:49-90 | the first call is always the source's resolution, and a successful preparation has made exactly five calls |
| `ServiceExtra.ResolveBeforeStat` | lib/src/service_extra.rs:50-53 | both sides are resolved, source first, before any stat; a resolution failure ends the copy before any backend call, with the factory error classified |
| `ServiceExtra.DirectorySourceRefused` | lib/src/service_extra.rs:53-57 | a directory source fails terminally with "Copying directories is not supported (yet)"; the destination is never stat'ed and no reader is opened |
| `ServiceExtra.PrepareFailureExits` | lib/src/service_extra.rs:53-90 | after both resolutions, a failed source stat ends the copy classified after three calls; a failed destination decision ends it with that decision's error after the destination's stat, with no reader opened; a reader that fails to open ends it classified after five calls |
| `ServiceExtra.DestinationRefusalsAbortCopy` | lib/src/service_extra.rs:59-88 | into a directory with no source or Content-Disposition name, the copy fails terminally naming both paths; a destination stat failing other than NotFound aborts the copy with that error classified; in both cases no reader is opened |
| `ServiceExtra.PlanFromStats` | lib/src/service_extra.rs:90-96 | a successful preparation takes the real destination from the destination's stat, and takes the content type (and nothing else) from the source's stat |
| `ServiceExtra.ByteStream.TryNext` | lib/src/service_extra.rs:101 | the chunks come in order; after the last one comes the end or the stream's I/O error |
| `ServiceExtra.Writer.constructor` | lib/src/service_extra.rs:91-98 | a writer opens with its path and content type fixed, an empty buffer, and not closed |
| `ServiceExtra.Writer.Write` | lib/src/service_extra.rs:102 | an accepted chunk is appended to the buffer; a refused one is not |
| `ServiceExtra.Writer.Close` | lib/src/service_extra.rs:105 | closing marks the writer closed and leaves its contents unchanged |
| `ServiceExtra.PumpCallsAlternate` | lib/src/service_extra.rs:101-103 | the loop reads each chunk, then writes it, before it reads the next |
| `ServiceExtra.RefusedWriteTransferred` | lib/src/service_extra.rs:102 | a refused write ends the copy with that error, classified, and leaves the writer open after the accepted chunks |
| `ServiceExtra.FailedReadTransferred` | lib/src/service_extra.rs:101 | a failed read ends the copy with a retryable error carrying the I/O error's text, and leaves the writer open |
| `ServiceExtra.ClosedTransferred` | lib/src/service_extra.rs:101-105 | at the end of the stream the writer is closed and the close's answer is the result |
| `ServiceExtra.Transfer` | lib/src/service_extra.rs:100-107 | the first k chunks are written in order, where k is the first refused write; a refused write returns its error classified; a failed read returns a retryable error with the I/O text; neither closes the writer; otherwise close is called once, after the last chunk; every write follows the read of its chunk |
| `ServiceExtra.TransferredSuccess` | lib/src/service_extra.rs:100-107 | on success, the written bytes are the concatenation of all chunks, every chunk was read and then written, and the final read found the end before the writer was closed |
| `ServiceExtra.Copy` | lib/src/service_extra.rs:49-108 | a preparation failure opens no writer; the writer is opened on the real destination with the source's content type; a failure to open the stream is classified as an opendal error, and a failed chunk read is a retryable error with the I/O error's text; on success the writer is closed and holds the concatenation of the source's chunks |

## Left out

- Durable execution: the `ctx.run` journaling, async scheduling and the Restate `Context` (`lib/src/service_extra.rs:123-128`, `lib/src/service_dynamic.rs:71-97`). These belong to the host runtime. Each handler is modelled as a single sequential call.
- The `service::list` and `service::presign_*` bodies are not part of this model. Their source is not shown. Only the presign response conversion is modelled.
- The scoped service, process startup, configuration and the global registry setup (`lib/src/service_scoped.rs`, `bin/src/main.rs`, `bin/src/config.rs`, `bin/src/config_restate.rs`) are wiring, I/O and configuration plumbing.
- opendal internals are not modelled. Registry loading is a map from URI to operator. A URI missing from the map fails with the registry's `refusal` error for it, an arbitrary opendal error. This covers an unregistered scheme (`Unsupported`) and a malformed URI, a missing scheme or a rejected backend configuration (`ConfigInvalid`). Which URIs opendal refuses, and with which kind, is not modelled. Stat, reader, writer, byte stream, write and close are abstract answers from `Backends`.
- `service_dynamic.rs` takes its factory from the external `opendal_util` crate, which is not part of this model. The handler is modelled with the local `OperatorFactory`. Its resolution error is taken to be an opendal error converted by `From<opendal::Error>`.
- The byte stream's read failure is an `std::io::Error`. The model keeps only its display text, which is all that `From<std::io::Error>` passes on.
- Content-Disposition parsing is an external crate. `Metadata.dispositionFilename` stands for its result.
- `url` parsing, percent-encoding and normalisation are not modelled. A URL is a record of five components. `set_path("")` keeps "/" for special schemes. `WellFormed` states what a parsed URL holds.
- `typed_path` is modelled only for what the copy uses. `FileName` is the last component that is not empty and not ".", with none for "..". `Join` appends one normal component. `to_string_lossy` is the identity on text.
- `Errors.Fail`, `Errors.TerminalExt` and `Errors.IntoHandlerError` leave the code of `TerminalError::new` as `None`, meaning the runtime library's default. That library is not part of this model, so its default value is not stated.
- `ServiceExtra.Writer.Write`: what a backend keeps of a refused write is unknown. The model appends nothing, and the copy returns at once either way.
- Header-map iteration order is external. `PresignedRequest.headers` is the pair sequence in iteration order. Header names are taken in their canonical text.
- The service's `Error` newtype and `From<Error> for HandlerError` (`lib/src/error.rs:4-5, 55-59`) are modelled by `HandlerError` itself, so the unwrapping is the identity.
- The operator transform (for example a logging layer) is an arbitrary function on opaque operators.
- Resolving with `from_uri` cannot change the factory, because the factory is an immutable value in the model. No separate member states this.
