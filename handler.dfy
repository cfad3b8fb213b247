/**
 * pkg/handler/handler.go: the HEAD, GET and POST handlers of the gateway.
 *
 * Each handler runs a fixed sequence of steps (parse the route variables,
 * load the remote's configuration, open its bucket, then query, read or
 * write the blob) and stops at the first step that fails, answering with
 * that step's status. The blob store is abstract: a `Backend` says how each
 * call into it turns out. The response writer is a `Recorder` that keeps, in
 * order, every call the handler makes into the store and every header and
 * error it writes; `HeadTrace`, `DownloadTrace` and `UploadTrace` say which
 * trace each handler leaves.
 */
module Handler {
  import opened Wrappers
  import opened Strings
  import opened Strconv
  import opened Os
  import Base64
  import Pool
  import Azure

  const StatusBadRequest := 400
  const StatusForbidden := 403
  const StatusNotFound := 404
  const StatusConflict := 409
  const StatusBadGateway := 502
  const StatusServiceUnavailable := 503

  /** The route variables (`folder`, `file`, `remote`), the request headers by canonical name, and the declared body length (-1 when unknown). */
  datatype Request = Request(vars: map<string, string>, header: map<string, string>, contentLength: int)

  /** mux.Vars(r)[name]: "" for a variable the route did not bind. */
  function Var(r: Request, name: string): string
  {
    if name in r.vars then r.vars[name] else ""
  }

  /** r.Header.Get(name): "" for an absent header. */
  function HeaderGet(r: Request, name: string): string
  {
    if name in r.header then r.header[name] else ""
  }

  datatype Params = Params(
    remoteId: Int64,
    key: string,
    checksum: string,
    contentType: string,
    acceptEncoding: string,
    rangeBytes: string)

  /** parseVars: the parameters, and the error message when the remote id is not an integer. */
  function ParseVars(r: Request): (result: (Params, Option<string>))
    ensures result.0.key == Var(r, "folder") + "/" + Var(r, "file")
    ensures result.1.Some? <==> Atoi(Var(r, "remote")).None?
    ensures result.1.Some? ==> (result.1.value == "remote id is not a valid integer"
      && result.0.remoteId == 0 && result.0.contentType == "" && result.0.acceptEncoding == "" && result.0.rangeBytes == "")
    ensures result.1.None? ==> (Atoi(Var(r, "remote")) == Some(result.0.remoteId)
      && result.0.contentType == HeaderGet(r, "Content-Type")
      && result.0.acceptEncoding == HeaderGet(r, "Accept-Encoding")
      && result.0.rangeBytes == HeaderGet(r, "Range"))
  {
    var folder := Var(r, "folder");
    var file := Var(r, "file");
    var key := folder + "/" + file;
    var checksum := folder + TrimSuffix(file, ".dir");
    match Atoi(Var(r, "remote"))
    case None => (Params(0, key, checksum, "", "", ""), Some("remote id is not a valid integer"))
    case Some(remoteId) =>
      (Params(remoteId, key, checksum, HeaderGet(r, "Content-Type"), HeaderGet(r, "Accept-Encoding"), HeaderGet(r, "Range")), None)
  }

  /** The checksum is the folder followed by the file, with one trailing ".dir" of the file removed. */
  lemma ChecksumDropsDir(r: Request)
    ensures var p := ParseVars(r).0;
      p.checksum + (if HasSuffix(Var(r, "file"), ".dir") then ".dir" else "") == Var(r, "folder") + Var(r, "file")
  {
    PrefixTrimSuffix(Var(r, "folder"), Var(r, "file"), ".dir");
  }

  lemma PrefixTrimSuffix(prefix: string, s: string, suffix: string)
    ensures prefix + TrimSuffix(s, suffix) + (if HasSuffix(s, suffix) then suffix else "") == prefix + s
  {
    assert TrimSuffix(s, suffix) + (if HasSuffix(s, suffix) then suffix else "") == s;
  }

  /** getEnvInt: the integer value of an environment variable, or 0 when it has none. */
  function GetEnvInt(env: Environment, key: string): (n: Int64)
    ensures Atoi(Getenv(env, key)).Some? ==> n == Atoi(Getenv(env, key)).value
    ensures Atoi(Getenv(env, key)).None? ==> n == 0
  {
    match Atoi(Getenv(env, key))
    case None => 0
    case Some(integer) => integer
  }

  /** A point in time; only its RFC 1123 rendering, a parameter of the handlers, is observable. */
  datatype Time = Time(unixSeconds: int)

  /** The blob attributes the handlers serve as headers. */
  datatype Attributes = Attributes(
    size: Int64,
    contentType: string,
    md5: seq<Base64.Byte>,
    modTime: Time,
    cacheControl: string)

  datatype ExistsOutcome = ExistsOk(found: bool) | ExistsFailed
  /** Attributes: the attributes, gcerrors.NotFound, or any other error. */
  datatype AttributesOutcome = AttributesOk(attrs: Attributes) | AttributesNotFound | AttributesFailed
  datatype StreamError = Canceled | DeadlineExceeded | OtherStreamError
  /** reader.WriteTo: the bytes sent and the error that ended the stream, if any. */
  datatype StreamOutcome = StreamOutcome(bytes: Int64, error: Option<StreamError>)
  /** io.Copy into the writer: the bytes copied, and whether the copy failed. */
  datatype CopyOutcome = CopyOk(copied: Int64) | CopyFailed(partial: Int64)

  /** How each call into the store turns out for one request. */
  datatype Backend = Backend(
    openAzure: bool,
    openHttp: bool,
    existence: ExistsOutcome,
    newReader: bool,
    attributes: AttributesOutcome,
    writeTo: StreamOutcome,
    newWriter: bool,
    copy: CopyOutcome)

  /** One observable step of a handler. */
  datatype Event =
    | LoadConfig(local: bool)
    | Open(kind: Pool.ConfigType)
    | Exists(existsKey: string)
    | NewReader(readerKey: string)
    | GetAttributes(attributesKey: string)
    | NewWriter(writerKey: string, writerContentType: string, bufferSize: Int64)
    | CopyBody
    | WriteBody
    | SetHeader(name: string, value: string)
    | Error(message: string, status: int)
    | CloseReader
    | CloseWriter
    | CloseConn

  /** Handler: the StorageSiteLoader interface is the function it calls. */
  datatype Handler = Handler(storageLoader: bool -> Result<Pool.ConnectionConfig, Azure.AzureError>)

  /** The ETag of a digest: its standard base64 encoding in double quotes. */
  function ETag(md5: seq<Base64.Byte>): (e: string)
    ensures |e| == 4 * ((|md5| + 2) / 3) + 2
    ensures e[0] == '"' && e[|e| - 1] == '"' && '"' !in e[1..|e| - 1]
  {
    "\"" + Base64.Encode(md5) + "\""
  }

  /** The headers HEAD and GET set from the attributes, in order. */
  function HeaderEvents(a: Attributes, rfc1123: Time -> string): seq<Event>
  {
    [ SetHeader("Content-Length", FormatInt(a.size)),
      SetHeader("Content-Type", a.contentType),
      SetHeader("ETag", ETag(a.md5)),
      SetHeader("Last-Modified", rfc1123(a.modTime)),
      SetHeader("Cache-Control", a.cacheControl) ]
  }

  /** Whether the bucket of a configured kind opens. */
  predicate Opens(b: Backend, kind: Pool.ConfigType)
  {
    if kind == Pool.Azure then b.openAzure else b.openHttp
  }

  /**
   * getConnection, which loads the local configuration for remote 0: the
   * kind of bucket opened (None on failure) and the steps taken.
   */
  function Connect(h: Handler, local: bool, b: Backend): (Option<Pool.ConfigType>, seq<Event>)
  {
    var loaded := h.storageLoader(local);
    if loaded.Failure? then (None, [LoadConfig(local), Error("Cannot load configuration", StatusForbidden)])
    else
      var kind := loaded.value.configType;
      if kind == Pool.Unknown then (None, [LoadConfig(local), Error("Cannot create connections", StatusForbidden)])
      else if Opens(b, kind) then (Some(kind), [LoadConfig(local), Open(kind)])
      else (None, [LoadConfig(local), Open(kind), Error("Cannot load configuration", StatusForbidden)])
  }

  /** The common start of the three handlers: parse the variables, then connect. */
  function Prologue(h: Handler, b: Backend, r: Request): (bool, seq<Event>)
  {
    Start(h, b, ParseVars(r))
  }

  /** The start once the variables are parsed: whether the handler goes on with an open bucket, and the steps taken. */
  function Start(h: Handler, b: Backend, parsed: (Params, Option<string>)): (bool, seq<Event>)
  {
    if parsed.1.Some? then (false, [Error("Cannot parse vars", StatusBadRequest)])
    else
      var connected := Connect(h, parsed.0.remoteId == 0, b);
      if connected.0.None? then (false, connected.1 + [Error("GetConnection Error", StatusBadGateway)])
      else (true, connected.1)
  }

  /** A handler's steps after the start, followed by the deferred close of the connection, when the start went on. */
  function Run(start: (bool, seq<Event>), steps: seq<Event>): seq<Event>
  {
    if start.0 then start.1 + steps + [CloseConn] else start.1
  }

  /** HeadFile once the bucket is open. */
  function HeadSteps(key: string, b: Backend, rfc1123: Time -> string): seq<Event>
  {
    [Exists(key)] +
    match b.existence
    case ExistsFailed => [Error("Not Found", StatusNotFound)]
    case ExistsOk(found) =>
      if !found then [Error("Not Found", StatusNotFound)]
      else
        [GetAttributes(key)] +
        match b.attributes
        case AttributesNotFound => [Error("File do not exist", StatusNotFound)]
        case AttributesFailed => [Error("Cannot get Attributes", StatusServiceUnavailable)]
        case AttributesOk(a) => HeaderEvents(a, rfc1123)
  }

  /** What HeadFile does. */
  function HeadTrace(h: Handler, b: Backend, r: Request, rfc1123: Time -> string): seq<Event>
  {
    Run(Prologue(h, b, r), HeadSteps(ParseVars(r).0.key, b, rfc1123))
  }

  /** DownloadFile once the reader is open, before it is closed. */
  function ReadSteps(key: string, b: Backend, rfc1123: Time -> string): seq<Event>
  {
    [GetAttributes(key)] +
    match b.attributes
    case AttributesNotFound => [Error("File do not exist", StatusNotFound)]
    case AttributesFailed => [Error("Cannot get Attributes", StatusServiceUnavailable)]
    case AttributesOk(a) => HeaderEvents(a, rfc1123) + [WriteBody]
  }

  /** DownloadFile once the bucket is open. */
  function DownloadSteps(key: string, b: Backend, rfc1123: Time -> string): seq<Event>
  {
    [Exists(key)] +
    match b.existence
    case ExistsFailed => [Error("Not Found", StatusNotFound)]
    case ExistsOk(found) =>
      if !found then [Error("Not Found", StatusNotFound)]
      else if !b.newReader then [NewReader(key), Error("Error creating Bucket Reader", StatusBadGateway)]
      else [NewReader(key)] + ReadSteps(key, b, rfc1123) + [CloseReader]
  }

  /** What DownloadFile does. */
  function DownloadTrace(h: Handler, b: Backend, r: Request, rfc1123: Time -> string): seq<Event>
  {
    Run(Prologue(h, b, r), DownloadSteps(ParseVars(r).0.key, b, rfc1123))
  }

  /** UploadFile once the bucket is open, writing with the given buffer size. */
  function UploadSteps(key: string, contentType: string, bufferSize: Int64, b: Backend): seq<Event>
  {
    [NewWriter(key, contentType, bufferSize)] +
    if !b.newWriter then [Error("Error writting data", StatusBadGateway)]
    else
      [CopyBody] +
      match b.copy
      case CopyFailed(_) => [Error("Failed to copy content", StatusConflict)]
      case CopyOk(_) => [CloseWriter]
  }

  /** What UploadFile does; the buffer size comes from UPLOAD_BUFFER_SIZE. */
  function UploadTrace(h: Handler, b: Backend, r: Request, env: Environment): seq<Event>
  {
    Run(Prologue(h, b, r), UploadSteps(ParseVars(r).0.key, ParseVars(r).0.contentType, GetEnvInt(env, "UPLOAD_BUFFER_SIZE"), b))
  }

  /**
   * The response writer of one request, in the manner of Go's
   * httptest.ResponseRecorder, together with the store calls made for it.
   */
  class Recorder {
    var events: seq<Event>

    constructor ()
      ensures events == []
    {
      events := [];
    }

    /** A call into the loader or the store. */
    method Record(e: Event)
      modifies this
      ensures events == old(events) + [e]
    {
      events := events + [e];
    }

    /** w.Header().Set(name, value). */
    method Set(name: string, value: string)
      modifies this
      ensures events == old(events) + [SetHeader(name, value)]
    {
      events := events + [SetHeader(name, value)];
    }

    /** http.Error(w, message, status). */
    method HttpError(message: string, status: int)
      modifies this
      ensures events == old(events) + [Error(message, status)]
    {
      events := events + [Error(message, status)];
    }
  }

  lemma AppendFour<T>(a: seq<T>, b: seq<T>, c: seq<T>, d: seq<T>)
    ensures a + b + c + d == a + (b + c + d)
  {
  }

  /** getConnection (handler.go:31-76). */
  method GetConnection(h: Handler, params: Params, b: Backend, w: Recorder) returns (conn: Option<Pool.ConfigType>)
    modifies w
    ensures conn == Connect(h, params.remoteId == 0, b).0
    ensures w.events == old(w.events) + Connect(h, params.remoteId == 0, b).1
  {
    var local := params.remoteId == 0;
    w.Record(LoadConfig(local));
    var connectionConfig := h.storageLoader(local);
    if connectionConfig.Failure? {
      w.HttpError("Cannot load configuration", StatusForbidden);
      return None;
    }
    var kind := connectionConfig.value.configType;
    if kind == Pool.Unknown {
      w.HttpError("Cannot create connections", StatusForbidden);
      return None;
    }
    // OpenAzure or OpenHttp, as the configuration says.
    w.Record(Open(kind));
    if !Opens(b, kind) {
      w.HttpError("Cannot load configuration", StatusForbidden);
      return None;
    }
    return Some(kind);
  }

  /** The start shared by the three handlers: the parsed parameters, and whether the handler goes on. */
  method Begin(h: Handler, b: Backend, r: Request, w: Recorder) returns (proceed: bool, params: Params)
    modifies w
    ensures proceed == Prologue(h, b, r).0 && params == ParseVars(r).0
    ensures w.events == old(w.events) + Prologue(h, b, r).1
  {
    var parsed := ParseVars(r);
    params := parsed.0;
    if parsed.1.Some? {
      w.HttpError("Cannot parse vars", StatusBadRequest);
      return false, params;
    }
    var conn := GetConnection(h, params, b, w);
    if conn.None? {
      w.HttpError("GetConnection Error", StatusBadGateway);
      return false, params;
    }
    return true, params;
  }

  /** HeadFile (handler.go:78-152). */
  method HeadFile(h: Handler, b: Backend, r: Request, rfc1123: Time -> string, w: Recorder)
    modifies w
    ensures w.events == old(w.events) + HeadTrace(h, b, r, rfc1123)
  {
    ghost var start := w.events;
    var proceed, params := Begin(h, b, r, w);
    if !proceed {
      return;
    }
    HeadWithConnection(params, b, rfc1123, w);
    w.Record(CloseConn);
    AppendFour(start, Prologue(h, b, r).1, HeadSteps(params.key, b, rfc1123), [CloseConn]);
  }

  /** The body of HeadFile after `defer conn.Close()`. */
  method HeadWithConnection(params: Params, b: Backend, rfc1123: Time -> string, w: Recorder)
    modifies w
    ensures w.events == old(w.events) + HeadSteps(params.key, b, rfc1123)
  {
    w.Record(Exists(params.key));
    if b.existence.ExistsFailed? || !b.existence.found {
      w.HttpError("Not Found", StatusNotFound);
      return;
    }
    w.Record(GetAttributes(params.key));
    if b.attributes.AttributesNotFound? {
      w.HttpError("File do not exist", StatusNotFound);
      return;
    }
    if b.attributes.AttributesFailed? {
      w.HttpError("Cannot get Attributes", StatusServiceUnavailable);
      return;
    }
    SetAttributeHeaders(b.attributes.attrs, rfc1123, w);
  }

  /** The five Header().Set calls of HEAD and GET. */
  method SetAttributeHeaders(attrs: Attributes, rfc1123: Time -> string, w: Recorder)
    modifies w
    ensures w.events == old(w.events) + HeaderEvents(attrs, rfc1123)
  {
    w.Set("Content-Length", FormatInt(attrs.size));
    w.Set("Content-Type", attrs.contentType);
    w.Set("ETag", ETag(attrs.md5));
    w.Set("Last-Modified", rfc1123(attrs.modTime));
    w.Set("Cache-Control", attrs.cacheControl);
  }

  /** DownloadFile (handler.go:154-266). */
  method DownloadFile(h: Handler, b: Backend, r: Request, rfc1123: Time -> string, w: Recorder)
    modifies w
    ensures w.events == old(w.events) + DownloadTrace(h, b, r, rfc1123)
  {
    ghost var start := w.events;
    var proceed, params := Begin(h, b, r, w);
    if !proceed {
      return;
    }
    DownloadWithConnection(params, b, rfc1123, w);
    w.Record(CloseConn);
    AppendFour(start, Prologue(h, b, r).1, DownloadSteps(params.key, b, rfc1123), [CloseConn]);
  }

  /** The body of DownloadFile after `defer conn.Close()`. */
  method DownloadWithConnection(params: Params, b: Backend, rfc1123: Time -> string, w: Recorder)
    modifies w
    ensures w.events == old(w.events) + DownloadSteps(params.key, b, rfc1123)
  {
    ghost var before := w.events;
    w.Record(Exists(params.key));
    if b.existence.ExistsFailed? || !b.existence.found {
      w.HttpError("Not Found", StatusNotFound);
      assert w.events == before + [Exists(params.key), Error("Not Found", StatusNotFound)];
      return;
    }
    w.Record(NewReader(params.key));
    if !b.newReader {
      w.HttpError("Error creating Bucket Reader", StatusBadGateway);
      assert w.events == before + [Exists(params.key), NewReader(params.key), Error("Error creating Bucket Reader", StatusBadGateway)];
      return;
    }
    ghost var reading := w.events;
    DownloadWithReader(params, b, rfc1123, w);
    w.Record(CloseReader);
    assert w.events == reading + ReadSteps(params.key, b, rfc1123) + [CloseReader];
    assert reading == before + [Exists(params.key), NewReader(params.key)];
  }

  /** The body of DownloadFile after `defer reader.Close()`. */
  method DownloadWithReader(params: Params, b: Backend, rfc1123: Time -> string, w: Recorder)
    modifies w
    ensures w.events == old(w.events) + ReadSteps(params.key, b, rfc1123)
  {
    w.Record(GetAttributes(params.key));
    if b.attributes.AttributesNotFound? {
      w.HttpError("File do not exist", StatusNotFound);
      return;
    }
    if b.attributes.AttributesFailed? {
      w.HttpError("Cannot get Attributes", StatusServiceUnavailable);
      return;
    }
    ghost var found := w.events;
    SetAttributeHeaders(b.attributes.attrs, rfc1123, w);
    w.Record(WriteBody);
    assert w.events == found + HeaderEvents(b.attributes.attrs, rfc1123) + [WriteBody];
    // Whatever b.writeTo reports (canceled, timed out, another error or
    // none), the handler only logs it and returns.
  }

  /** UploadFile (handler.go:268-338). */
  method UploadFile(h: Handler, b: Backend, r: Request, env: Environment, w: Recorder)
    modifies w
    ensures w.events == old(w.events) + UploadTrace(h, b, r, env)
  {
    ghost var start := w.events;
    var proceed, params := Begin(h, b, r, w);
    if !proceed {
      return;
    }
    UploadWithConnection(params, GetEnvInt(env, "UPLOAD_BUFFER_SIZE"), b, w);
    w.Record(CloseConn);
    AppendFour(start, Prologue(h, b, r).1, UploadSteps(params.key, params.contentType, GetEnvInt(env, "UPLOAD_BUFFER_SIZE"), b), [CloseConn]);
  }

  /** The body of UploadFile after `defer conn.Close()`. */
  method UploadWithConnection(params: Params, bufferSize: Int64, b: Backend, w: Recorder)
    modifies w
    ensures w.events == old(w.events) + UploadSteps(params.key, params.contentType, bufferSize, b)
  {
    w.Record(NewWriter(params.key, params.contentType, bufferSize));
    if !b.newWriter {
      w.HttpError("Error writting data", StatusBadGateway);
      return;
    }
    w.Record(CopyBody);
    if b.copy.CopyFailed? {
      w.HttpError("Failed to copy content", StatusConflict);
      return;
    }
    // `defer writer.Close()` is reached only after a successful copy; a
    // copied length that differs from the declared one is only logged.
    w.Record(CloseWriter);
  }
}
