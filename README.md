# dvc-http-remote in Dafny

dvc-http-remote is a gateway that gives a DVC client an HTTP remote. A
request names a remote by number, plus a folder and a file. The gateway then
does three things:

- It resolves the remote. Remote 0 is a local directory. Every other remote is
  an Azure blob container, described by two environment variables.
- It opens a connection to that storage.
- It answers HEAD with the blob's attributes as headers, GET by streaming the
  blob, and POST by storing the request body as the blob.

The model follows the Go packages file by file:

| module | Go source | what it holds |
|---|---|---|
| `Azure` | pkg/dvc/azure.go | the connection-string parser, as a method with its loop, and `LoadAzureConfig` |
| `Dvc` | pkg/dvc/dvc.go | remote lookup in a parsed DVC config file, the remote type of a URL, and `ListRemotes` as a method with its loop |
| `Storage` | pkg/storage/storageSiteLoader.go | the loader that maps "is this the local remote" to a connection configuration |
| `Handler` | pkg/handler/handler.go | `parseVars`, `getEnvInt`, `getConnection` and the three handlers |
| `HandlerProperties` | pkg/handler/handler.go | what the handlers' traces mean: status, headers, streaming, closing |
| `Pool` | pkg/pool/conn.go | the `ConfigType` and `ConnectionConfig` types |
| `Strings`, `Strconv`, `Base64`, `Url`, `Os` | Go's standard library | the parts of `strings`, `strconv`, `encoding/base64`, `net/url` and `os` that the core calls |

The model works as follows:

- **Handlers.** The handlers are imperative: they make ordered calls into the
  blob store and the response writer, and return early on an error.
  - Each handler is a `method`. It appends to a `Recorder` object, standing in
    for the response writer.
  - The `Recorder` keeps one ordered trace. The trace holds every store call,
    every `Header().Set`, every `http.Error` and every `Close`.
  - Each handler is proved to leave exactly the trace that a function of its
    inputs describes (`HeadTrace`, `DownloadTrace`, `UploadTrace`).
    `HandlerProperties` proves what those traces mean.
- **Status.** The status a client sees is the code of the first `http.Error`
  in the trace, or 200 when there is none. In Go the first `WriteHeader` wins
  and later ones are ignored.
- **The blob store** is a `Backend` value that says how each call turns out.
  The calls are `OpenAzure` and `OpenHttp`, `Exists`, `NewReader`,
  `Attributes`, `WriteTo`, `NewWriter` and `io.Copy`.
- **The storage loader** is a function field of `Handler`.
  `HandlerProperties.Wired` plugs in the real loader from `Storage`.
- **Inputs taken as parameters.** The environment is a map. The RFC 1123
  formatting of `time.Time` is a function parameter, `rfc1123`.
- **Integers.** Go's `int` is 64 bits here, so `Atoi` rejects values out of
  that range.

Some behaviour of the code that a reader might not expect, which the model
follows:

- There is no configuration cache in use. The loader builds a go-cache
  (30-minute expiry, 60-minute sweep) but never reads or writes it, so each
  request re-reads the environment.
- A negative remote id is accepted, because `strconv.Atoi` accepts a sign.
  It selects Azure, like any non-zero id.
- A connection-string segment whose first `=` is its first character is
  rejected, as well as one without `=`. Empty segments are skipped. Keys and
  values are trimmed of white space, not taken verbatim.
- When `getConnection` fails, it writes 403, and the handler then writes 502.
  The client sees 403. `HandlerProperties.PrologueStatus` proves this.
- The `Range` and `Accept-Encoding` headers are parsed but never used.
- POST closes the writer only after a successful copy. After a failed copy the
  writer is never closed.
- The remote names from `ListRemotes` are the stored, lower-cased section
  names, because the ini file is loaded case-insensitively.

## Model

| member | source | states |
|---|---|---|
| Azure.Parse | pkg/dvc/azure.go:11-29 | the loop over the ';'-separated segments returns what `ParseConnectionString` gives: skip empty segments, fail on the first bad one, otherwise map each trimmed key to its trimmed value |
| Azure.SegmentsFailure | pkg/dvc/azure.go:13-21 | the parse fails exactly when some segment is non-empty with its first '=' missing or first; the error names the first such segment |
| Azure.SegmentsKeys | pkg/dvc/azure.go:18-25 | a successful parse has exactly the keys of its entry segments (and those it started with) |
| Azure.SegmentsKeep | pkg/dvc/azure.go:23-25 | a key that no segment sets keeps its earlier value |
| Azure.SegmentsLastWins | pkg/dvc/azure.go:23-25 | the value of a key is that of the last segment with that key |
| Azure.SegmentsFrom | pkg/dvc/azure.go:12-28 | parsing from earlier entries adds the new entries over them |
| Azure.SegmentsConcat | pkg/dvc/azure.go:13-26 | the loop over two segment lists one after the other runs over the first, then the second |
| Azure.ParseConcat | pkg/dvc/azure.go:13-28 | parsing `a;b` parses `a` and `b` separately and merges the maps with `b` winning; an error in `a` is reported before one in `b` |
| Azure.ParseConcatSuccess | pkg/dvc/azure.go:13-28 | two successful parts give the merge of their maps |
| Azure.ParseEmpty | pkg/dvc/azure.go:12-28 | the empty connection string parses to the empty map |
| Azure.ParseLeadingSeparator | pkg/dvc/azure.go:14-16 | a leading ';' changes nothing |
| Azure.ParseTrailingSeparator | pkg/dvc/azure.go:14-16 | a trailing ';' changes nothing |
| Azure.ParseDoubledSeparator | pkg/dvc/azure.go:14-16 | ";;" parses like ";" |
| Azure.ParseSingleSegment | pkg/dvc/azure.go:18-25 | one segment `key=value` gives exactly one entry, trimmed key to trimmed value, and later '=' stay in the value |
| Azure.ParseTwoSegments | pkg/dvc/azure.go:13-25 | two segments give their two entries, the second winning on a shared key |
| Azure.LoadAzureConfig | pkg/dvc/azure.go:31-50 | a URL error wins over a connection-string error; success exactly when both parse; then an Azure config whose container is the URL's host, with the connection string kept and `AccountName`/`AccountKey` looked up ("" when absent) |
| Azure.ParseAccount | pkg/dvc/azure.go:38-48 | "AccountName=n;AccountKey=k" yields the trimmed name and key under those keys |
| Azure.LoadAccountConfig | pkg/dvc/azure.go:31-50 | "scheme://container/" with that connection string loads a config for `container` with the trimmed account name and key |
| Dvc.FindSection | pkg/dvc/dvc.go:44-47 | the first section with the stored name, or none exactly when no section has it |
| Dvc.GetRemote | pkg/dvc/dvc.go:44-47 | succeeds exactly when a section is named `'remote "<remote>"'` (lower-cased), and returns such a section of the file |
| Dvc.GetRemoteType | pkg/dvc/dvc.go:61-74 | Azure exactly for scheme "azure", Http exactly for "http"; an error exactly when the type is Unknown: the URL error when the URL does not parse, the invalid-scheme error when it parses |
| Dvc.RemoteTypeOfScheme | pkg/dvc/dvc.go:61-74 | for "scheme://host/path" only the lower-cased scheme decides: "AZURE" is Azure, "https" is not a remote |
| Dvc.GetRemoteTypeOfRemote | pkg/dvc/dvc.go:49-59 | a missing section or `url` key gives Unknown with that error; otherwise the type of the `url` value |
| Dvc.RemoteTypeIgnoresCase | pkg/dvc/dvc.go:44-59 | a remote's type depends on its name only up to case |
| Dvc.SectionStrings | pkg/dvc/dvc.go:36 | the section names, one per section, in file order |
| Dvc.ListRemotes | pkg/dvc/dvc.go:34-42 | the loop returns `RemoteNames`: for each section whose name contains "remote", in order, the text between its first two '"' |
| Dvc.RemoteNamesConcat | pkg/dvc/dvc.go:34-42 | the remotes of two section lists one after the other are those of the first, then those of the second |
| Dvc.RemoteNamesSingle | pkg/dvc/dvc.go:37-39 | one section contributes its remote exactly when its name contains "remote" |
| Dvc.RemotesUpToPrefix | pkg/dvc/dvc.go:36-40 | the remotes found after `k` iterations are those of the first `k` section names |
| Dvc.RemoteSectionIsRemote | pkg/dvc/dvc.go:37-45 | the section name GetRemote looks up always contains "remote" |
| Dvc.RemoteOfSectionName | pkg/dvc/dvc.go:37-45 | ListRemotes gives back the remote name from the section name GetRemote looks up |
| Dvc.ListedRemoteIsFound | pkg/dvc/dvc.go:34-47 | a remote stored under its lower-case name is both listed by ListRemotes and found by GetRemote |
| Storage.NewStorageSiteLoader | pkg/storage/storageSiteLoader.go:17-22 | keeps the path and a 30/60-minute cache setting |
| Storage.LoadConfig | pkg/storage/storageSiteLoader.go:24-35 | local: an http config for the local path with every other field zero; otherwise exactly `LoadAzureConfig` of the two environment variables |
| Storage.LocalIgnoresEnvironment | pkg/storage/storageSiteLoader.go:25-29 | the local config does not depend on the environment |
| Storage.AzureReadsTwoVariables | pkg/storage/storageSiteLoader.go:30-34 | the Azure config depends on `AZURE_STORAGE_URL` and `AZURE_CONNECTION_STRING` alone |
| Storage.LoadedType | pkg/storage/storageSiteLoader.go:24-35 | a loaded config is http for the local remote and Azure for every other |
| Storage.AzureWithoutEnvironment | pkg/storage/storageSiteLoader.go:30-34 | with both variables unset the Azure branch still succeeds, with no container and no account |
| Storage.NewLoaderServesPath | pkg/storage/storageSiteLoader.go:17-29 | a new loader serves the local remote from the path it was made with |
| Handler.ParseVars | pkg/handler/handler.go:380-402 | key is folder "/" file; an error exactly when the remote id is not an integer, and then only the key and checksum are set; otherwise the id and the three headers |
| Handler.ChecksumDropsDir | pkg/handler/handler.go:388 | the checksum is the folder followed by the file, with one trailing ".dir" of the file removed |
| Handler.GetEnvInt | pkg/handler/handler.go:404-411 | the integer value of the variable, or 0 when it is unset or not an integer |
| Handler.Recorder.Record | pkg/handler/handler.go:109 | appends one store call to the trace and changes nothing else |
| Handler.Recorder.Set | pkg/handler/handler.go:146-150 | appends one header write to the trace |
| Handler.Recorder.HttpError | pkg/handler/handler.go:39 | appends one error response to the trace |
| Handler.GetConnection | pkg/handler/handler.go:31-76 | loads the config for `remoteId == 0`, opens Azure or Http by its type, writes 403 on each failure; trace and result as `Connect` |
| Handler.Begin | pkg/handler/handler.go:86-106 | parse error: 400 and stop; connection failure: 502 after getConnection's trace and stop; trace as `Prologue` |
| Handler.HeadFile | pkg/handler/handler.go:78-152 | the trace is exactly `HeadTrace` |
| Handler.HeadWithConnection | pkg/handler/handler.go:109-150 | the trace after opening is exactly `HeadSteps` |
| Handler.SetAttributeHeaders | pkg/handler/handler.go:146-150 | the five headers in order: Content-Length, Content-Type, ETag, Last-Modified, Cache-Control |
| Handler.DownloadFile | pkg/handler/handler.go:154-266 | the trace is exactly `DownloadTrace` |
| Handler.DownloadWithConnection | pkg/handler/handler.go:185-212 | the trace after opening is exactly `DownloadSteps`, with the reader closed after the read steps |
| Handler.DownloadWithReader | pkg/handler/handler.go:214-265 | the trace with the reader open is exactly `ReadSteps` |
| Handler.UploadFile | pkg/handler/handler.go:268-338 | the trace is exactly `UploadTrace`, with the buffer size from `UPLOAD_BUFFER_SIZE` |
| Handler.UploadWithConnection | pkg/handler/handler.go:299-323 | the trace after opening is exactly `UploadSteps` |
| HandlerProperties.StatusAppend | pkg/handler/handler.go:97-105 | events without an error do not change the status of what follows |
| HandlerProperties.StatusNoError | pkg/handler/handler.go:146-152 | a trace without an error answers 200 |
| HandlerProperties.StatusAtError | pkg/handler/handler.go:116 | the first error's code is the status |
| HandlerProperties.StatusFirstWins | pkg/handler/handler.go:97-105 | once an error is written, nothing after it changes the status |
| HandlerProperties.ConnectOutcome | pkg/handler/handler.go:31-76 | getConnection starts by loading the config; succeeds exactly when the config loads and its type's opener succeeds; then loads and opens with no error, otherwise 403 |
| HandlerProperties.PrologueOutcome | pkg/handler/handler.go:86-106 | a bad remote id gives exactly the 400 error; otherwise the handler goes on exactly when the connection opens, and stops with 403 otherwise |
| HandlerProperties.PrologueStatus | pkg/handler/handler.go:86-106 | the handler stops exactly when `StartStatus` (400, 403) is not 200, and then answers it |
| HandlerProperties.StartReadsRemoteId | pkg/handler/handler.go:32 | of the parsed parameters, the start reads only the parse error and the remote id |
| HandlerProperties.RunStatus | pkg/handler/handler.go:97-107 | a handler's status is the start's when it stopped, otherwise that of its steps |
| HandlerProperties.RunContains | pkg/handler/handler.go:97-107 | the events of a run are the start's, plus the steps and the close when it went on |
| HandlerProperties.RunClosesOnceLast | pkg/handler/handler.go:107 | `defer conn.Close()`: the connection is closed exactly when opened, once, as the last step |
| HandlerProperties.HeadStepsStatus | pkg/handler/handler.go:109-144 | absent or failed exists check 404, attributes not found 404, other attribute error 503, otherwise 200 |
| HandlerProperties.HeadStatus | pkg/handler/handler.go:78-152 | HEAD's status for every outcome of the parse, the loader and the store |
| HandlerProperties.HeaderEventsSetHeaders | pkg/handler/handler.go:146-150 | the attribute headers are header writes only |
| HandlerProperties.HeadStepsHeaders | pkg/handler/handler.go:109-150 | HEAD never writes a body or closes the connection itself; on success it is exists, attributes, then the five headers, and when a store call fails it sets no header |
| HandlerProperties.HeadNeverStreams | pkg/handler/handler.go:78-152 | HEAD never sends the blob |
| HandlerProperties.HeadServesHeaders | pkg/handler/handler.go:109-152 | HEAD answers 200 only with attributes, and then its trace is the start, exists, attributes, the five headers, close |
| HandlerProperties.DownloadStepsStatus | pkg/handler/handler.go:185-231 | 404, 502 (reader), 404, 503 or 200 by the first store call that fails |
| HandlerProperties.DownloadStepsServedNoError | pkg/handler/handler.go:185-239 | when every store call succeeds, GET writes no error |
| HandlerProperties.DownloadStepsRefusedStatus | pkg/handler/handler.go:185-231 | when a store call fails, GET answers the status of the first one to fail |
| HandlerProperties.DownloadStatus | pkg/handler/handler.go:154-266 | GET's status for every outcome of the parse, the loader and the store |
| HandlerProperties.DownloadStepsServe | pkg/handler/handler.go:185-239 | when every store call succeeds: exists, reader, attributes, the five headers, body, reader closed |
| HandlerProperties.DownloadStepsRefuse | pkg/handler/handler.go:185-231 | when a store call fails the body is not written, the connection is not closed there, and no header is set |
| HandlerProperties.DownloadStepsStream | pkg/handler/handler.go:185-239 | the body is written exactly when every store call succeeds, and then in the shape above |
| HandlerProperties.DownloadStreamsIff | pkg/handler/handler.go:154-266 | GET streams exactly when it answers 200, exactly when the connection, exists, reader and attributes all succeed, and then the whole trace is known |
| HandlerProperties.DownloadReaderFailure | pkg/handler/handler.go:202-212 | when the reader cannot be made, attributes are not fetched and no reader is closed |
| HandlerProperties.DownloadIgnoresStreamError | pkg/handler/handler.go:239-265 | a canceled, timed-out or failed stream leaves the same trace as a finished one |
| HandlerProperties.ConnectIgnoresStream | pkg/handler/handler.go:31-76 | opening the connection does not depend on the stream |
| HandlerProperties.DownloadStepsIgnoreStream | pkg/handler/handler.go:239-265 | the steps after opening do not depend on the stream's outcome |
| HandlerProperties.UploadStepsStatus | pkg/handler/handler.go:299-323 | writer failure 502, copy failure 409, otherwise 200; the writer is closed exactly after a successful copy; the first step is the writer with key, content type and buffer size |
| HandlerProperties.UploadStatus | pkg/handler/handler.go:268-338 | POST's status for every outcome of the parse, the loader and the store |
| HandlerProperties.UploadCommitsIff | pkg/handler/handler.go:299-323 | the writer is closed exactly when POST answers 200, exactly when connection, writer and copy succeed; the writer gets the request's Content-Type and `UPLOAD_BUFFER_SIZE` |
| HandlerProperties.UploadIgnoresContentLength | pkg/handler/handler.go:325-337 | a declared length that differs from the copied one changes nothing the client sees |
| HandlerProperties.HandlersReadVarsAndContentType | pkg/handler/handler.go:380-402 | the three handlers depend on the request only through its route variables and Content-Type, so Range and Accept-Encoding are ignored |
| HandlerProperties.HeadClosesConnection | pkg/handler/handler.go:97-107 | HEAD closes the connection exactly when it opened it, once, last |
| HandlerProperties.DownloadClosesConnection | pkg/handler/handler.go:173-183 | GET closes the connection exactly when it opened it, once, last |
| HandlerProperties.UploadClosesConnection | pkg/handler/handler.go:287-297 | POST closes the connection exactly when it opened it, once, last |
| Handler.ETag | pkg/handler/handler.go:148 | the ETag is two characters longer than the base64 of the digest, starts and ends with '"' and has no other '"' |
| HandlerProperties.ETagDecodes | pkg/handler/handler.go:148 | the ETag is a quoted string whose inside has no quote and decodes back to the MD5 |
| HandlerProperties.ContentLengthParses | pkg/handler/handler.go:146 | the Content-Length header is the first header and parses back to the size |
| HandlerProperties.GetEnvIntFormatted | pkg/handler/handler.go:404-411 | a variable set to a formatted integer reads back as that integer |
| HandlerProperties.GetEnvIntUnset | pkg/handler/handler.go:404-411 | an unset variable reads as 0 |
| HandlerProperties.LocalRemoteOpensHttp | pkg/storage/storageSiteLoader.go:25-29 | with the real loader, remote 0 loads the local config and opens http |
| HandlerProperties.OtherRemoteOpensAzure | pkg/storage/storageSiteLoader.go:30-34 | with the real loader, any other remote opens Azure when the environment parses, and answers 403 when it does not |
| Strconv.Atoi | pkg/handler/handler.go:391 | an accepted string is digits after an optional sign and not a lone sign; a '-' gives a value of at most 0, anything else one of at least 0; a digit string up to 2^63-1 gives its decimal value |
| Strconv.AtoiRejectsNonDigit | pkg/handler/handler.go:391 | a string with a non-digit (other than a leading sign) is not an integer |
| Strconv.AtoiRejectsEmpty | pkg/handler/handler.go:391 | "", "+" and "-" are not integers |
| Strconv.AtoiExamples | pkg/handler/handler.go:391 | "+007" is 7, "-0" is 0, "42" is 42 |
| Strconv.FormatInt | pkg/handler/handler.go:146 | a non-empty decimal numeral, with an optional '-' |
| Strconv.FormatIntValue | pkg/handler/handler.go:146 | the numeral's value is the integer |
| Strconv.FormatIntRoundTrip | pkg/handler/handler.go:146 | Atoi reads back what FormatInt writes |
| Base64.Encode | pkg/handler/handler.go:148 | standard padded length 4·⌈n/3⌉, and no '"' in the text |
| Base64.DecodeEncode | pkg/handler/handler.go:148 | decoding the encoding gives the bytes back |
| Strings.IndexOf | pkg/dvc/azure.go:18 | the first occurrence, or -1 exactly when there is none |
| Strings.Split | pkg/dvc/azure.go:13 | at least one piece, none holding the separator |
| Strings.JoinSplit | pkg/dvc/azure.go:13 | joining the pieces with the separator gives the string back |
| Strings.SplitJoin | pkg/dvc/azure.go:13 | splitting a join of separator-free pieces gives the pieces back |
| Strings.SplitConcat | pkg/dvc/azure.go:13 | the pieces of `a;b` are those of `a`, then those of `b` |
| Strings.TrimSuffix | pkg/handler/handler.go:388 | the result plus the suffix (when present) is the string |
| Strings.TrimSpace | pkg/dvc/azure.go:23-24 | the string with white space removed from both ends only |
| Strings.ToLower | pkg/dvc/dvc.go:46 | the result has the input's length, with each ASCII capital lowered and every other character unchanged |
| Url.Parse | pkg/dvc/azure.go:32 | a control character before the first '#' gives the control-character error; a parsed URL's fragment holds only well-formed escapes and its scheme has no capital letter |
| Url.SpaceInHostRejected | pkg/dvc/azure.go:32-35 | a host with a space in it, as in "azure://my container/", makes the URL fail to parse with the invalid-host error |
| Url.ParseBadHost | pkg/dvc/azure.go:32-35 | a URL "scheme://host/path" whose host the host check refuses fails to parse with the invalid-host error |
| Url.ParseSchemeHost | pkg/dvc/azure.go:32-36 | "scheme://host/path" parses to the lower-cased scheme and that host |

## Left out

- Logging (logrus) and `httputil.DumpRequest`: they only print.
- `r.Body.Close()`: the body is not read by the model, so closing it is not observable there.
- The `Content-Type` and `X-Content-Type-Options` headers that `http.Error` adds: the model records the message and status only.
- The bytes themselves: `WriteTo` and `io.Copy` are modelled by their outcome, not by the data they move.
- `OpenAzure` and `OpenHttp` (pkg/pool/conn.go), with their retry settings: the model records only whether they succeed, and a failure is answered with 403.
- `OpenHttp`'s failing `os.MkdirAll` (pkg/pool/conn.go:50-52): Go calls `log.Fatal` and the process exits without answering; the model treats it like any other failed open, as a 403 answer.
- `conn.Close`, `reader.Close` and `writer.Close` are recorded, but their errors are not modelled; Go ignores them too.
- `Attach` routing (gorilla/mux), main.go, `responseWriter` and `NewResponseWriter`: the model takes the route variables as given.
- `NewDVCConfig` and the ini parser (gopkg.in/ini.v1): the model starts from the parsed sections.
- The ini parent-section lookup of `GetKey`: a remote whose name holds a '.' gives a dotted section name such as `remote "my.store"`, but its candidate parent (`remote "my`) is never a section in a DVC config file, so the lookup finds nothing there.
- `time.Time.Format(time.RFC1123)`: a function parameter.
- Strings.ToLower: lowers only the ASCII capitals; Go's `strings.ToLower` also lowers non-ASCII letters, so a non-ASCII capital in a scheme or a section name is kept as is.
- The byte encoding of text: strings are sequences of characters, not UTF-8 bytes.
- Url.Parse: a host in brackets (an IPv6 literal with an optional zone) is checked as an ordinary host; the user info, path and fragment are checked but not returned, and the query, which Go does not check either, is dropped. Go's two host error types (a bad escape, a bad character) are one `InvalidHost` error, and an escape is decoded to the character with that code, not to a byte of UTF-8.
- Dvc.ListRemotes: requires every section whose name contains "remote" to hold a '"'. For any other section Go's `strings.Split(i, "\"")[1]` panics.
- Storage.NewStorageSiteLoader: the go-cache object is reduced to its two durations, because the loader never uses it.
- Concurrency between requests: each handler call is modelled on its own.
