/**
 * What a client of the gateway observes from the handlers of
 * pkg/handler/handler.go: the response status, whether a body was
 * streamed, the headers, and which store resources were closed.
 */
module HandlerProperties {
  import opened Wrappers
  import opened Strconv
  import opened Os
  import Base64
  import Pool
  import Azure
  import Storage
  import opened Handler

  /**
   * The status of the response: the code of the first http.Error, since
   * net/http ignores a later WriteHeader as superfluous; 200 when the
   * handler wrote no error.
   */
  function Status(events: seq<Event>): int
  {
    if |events| == 0 then 200
    else if events[0].Error? then events[0].status
    else Status(events[1..])
  }

  predicate NoError(events: seq<Event>)
  {
    forall e :: e in events ==> !e.Error?
  }

  /** Whether the handler streamed the blob into the response. */
  predicate Streamed(events: seq<Event>)
  {
    WriteBody in events
  }

  // ----- the status of a trace -----

  lemma {:induction false} StatusAppend(a: seq<Event>, b: seq<Event>)
    requires NoError(a)
    ensures Status(a + b) == Status(b)
    decreases |a|
  {
    if a == [] {
      assert a + b == b;
    } else {
      assert (a + b)[0] == a[0] && (a + b)[1..] == a[1..] + b;
      assert NoError(a[1..]) by {
        forall e | e in a[1..]
          ensures !e.Error?
        {
          var i :| 0 <= i < |a[1..]| && a[1..][i] == e;
          assert a[i + 1] == e;
        }
      }
      StatusAppend(a[1..], b);
    }
  }

  lemma StatusNoError(a: seq<Event>)
    requires NoError(a)
    ensures Status(a) == 200
  {
    StatusAppend(a, []);
    assert a + [] == a;
  }

  /** After error-free steps, the first error decides the status. */
  lemma StatusAtError(a: seq<Event>, message: string, code: int, rest: seq<Event>)
    requires NoError(a)
    ensures Status(a + ([Error(message, code)] + rest)) == code
  {
    StatusAppend(a, [Error(message, code)] + rest);
  }

  /** Once an error is written, nothing appended changes the status. */
  lemma {:induction false} StatusFirstWins(a: seq<Event>, b: seq<Event>)
    requires Status(a) != 200
    ensures Status(a + b) == Status(a)
    decreases |a|
  {
    assert |a| > 0;
    assert (a + b)[0] == a[0];
    if !a[0].Error? {
      assert (a + b)[1..] == a[1..] + b;
      StatusFirstWins(a[1..], b);
    }
  }

  // ----- getConnection -----

  /**
   * getConnection calls the loader once, with `local`; it succeeds exactly
   * when the configuration loads and the bucket of its type opens, without
   * writing an error, and otherwise answers 403.
   */
  lemma ConnectOutcome(h: Handler, local: bool, b: Backend)
    ensures |Connect(h, local, b).1| > 0 && Connect(h, local, b).1[0] == LoadConfig(local)
    ensures Connect(h, local, b).0.Some? <==>
      (h.storageLoader(local).Success?
      && ((h.storageLoader(local).value.configType == Pool.Azure && b.openAzure)
        || (h.storageLoader(local).value.configType == Pool.Http && b.openHttp)))
    ensures Connect(h, local, b).0.Some? ==>
      (Connect(h, local, b).0.value == h.storageLoader(local).value.configType
      && Connect(h, local, b).1 == [LoadConfig(local), Open(Connect(h, local, b).0.value)]
      && NoError(Connect(h, local, b).1))
    ensures Connect(h, local, b).0.None? ==> Status(Connect(h, local, b).1) == StatusForbidden
  {
    var loaded := h.storageLoader(local);
    var (conn, evs) := Connect(h, local, b);
    if conn.None? {
      var message := if loaded.Success? && loaded.value.configType == Pool.Unknown then "Cannot create connections" else "Cannot load configuration";
      var before := if loaded.Success? && loaded.value.configType != Pool.Unknown then [LoadConfig(local), Open(loaded.value.configType)] else [LoadConfig(local)];
      assert evs == before + ([Error(message, StatusForbidden)] + []);
      StatusAtError(before, message, StatusForbidden, []);
    }
  }

  /** The events of the start: loader and open calls and errors only. */
  predicate IsStartEvent(e: Event)
  {
    e.LoadConfig? || e.Open? || e.Error?
  }

  /**
   * The start shared by the three handlers: a remote id that is not an
   * integer answers 400 before the loader is called; otherwise the loader
   * is called with local == (remote id is 0), and a failed connection
   * answers 403 (the 502 "GetConnection Error" that follows is
   * superfluous); a handler that goes on has written no error.
   */
  lemma PrologueOutcome(h: Handler, b: Backend, r: Request)
    ensures Atoi(Var(r, "remote")).None? ==> Prologue(h, b, r) == (false, [Error("Cannot parse vars", StatusBadRequest)])
    ensures Atoi(Var(r, "remote")).Some? ==>
      (Prologue(h, b, r).0 <==> Connect(h, Atoi(Var(r, "remote")).value == 0, b).0.Some?)
    ensures Atoi(Var(r, "remote")).Some? ==> (|Prologue(h, b, r).1| > 0
      && Prologue(h, b, r).1[0] == LoadConfig(Atoi(Var(r, "remote")).value == 0))
    ensures Prologue(h, b, r).0 ==> NoError(Prologue(h, b, r).1)
    ensures !Prologue(h, b, r).0 && Atoi(Var(r, "remote")).Some? ==> Status(Prologue(h, b, r).1) == StatusForbidden
    ensures forall e :: e in Prologue(h, b, r).1 ==> IsStartEvent(e)
  {
    var (p, errVars) := ParseVars(r);
    if errVars.None? {
      ConnectOutcome(h, p.remoteId == 0, b);
      var (conn, evs) := Connect(h, p.remoteId == 0, b);
      if conn.None? {
        StatusFirstWins(evs, [Error("GetConnection Error", StatusBadGateway)]);
      }
    }
  }

  /** The status a handler's start leaves: 400, 403, or none yet. */
  function StartStatus(h: Handler, b: Backend, r: Request): int
  {
    if Atoi(Var(r, "remote")).None? then StatusBadRequest
    else if Connect(h, Atoi(Var(r, "remote")).value == 0, b).0.None? then StatusForbidden
    else 200
  }

  lemma PrologueStatus(h: Handler, b: Backend, r: Request)
    ensures !Prologue(h, b, r).0 <==> StartStatus(h, b, r) != 200
    ensures !Prologue(h, b, r).0 ==> Status(Prologue(h, b, r).1) == StartStatus(h, b, r)
    ensures Prologue(h, b, r).0 ==> NoError(Prologue(h, b, r).1)
  {
    PrologueOutcome(h, b, r);
  }

  /** The start depends on the parsed parameters only through the parse error and the remote id. */
  lemma StartReadsRemoteId(h: Handler, b: Backend, x: (Params, Option<string>), y: (Params, Option<string>))
    requires x.1 == y.1 && x.0.remoteId == y.0.remoteId
    ensures Start(h, b, x) == Start(h, b, y)
  {
  }

  // ----- a handler run -----

  /** The status of a run: the start's, or, when it went on, that of the steps. */
  lemma RunStatus(start: (bool, seq<Event>), steps: seq<Event>)
    requires start.0 ==> NoError(start.1)
    ensures Status(Run(start, steps)) == if start.0 then Status(steps + [CloseConn]) else Status(start.1)
  {
    if start.0 {
      assert start.1 + steps + [CloseConn] == start.1 + (steps + [CloseConn]);
      StatusAppend(start.1, steps + [CloseConn]);
    }
  }

  /** An event of a run comes from the start, or from the steps or the close when the start went on. */
  lemma RunContains(start: (bool, seq<Event>), steps: seq<Event>, e: Event)
    ensures e in Run(start, steps) <==> e in start.1 || (start.0 && (e in steps || e == CloseConn))
  {
  }

  /**
   * `defer conn.Close()`: a run whose start and steps never close the
   * connection closes it exactly when the start went on, and then exactly
   * once, as its last step.
   */
  lemma RunClosesOnceLast(start: (bool, seq<Event>), steps: seq<Event>)
    requires CloseConn !in start.1 && CloseConn !in steps
    ensures CloseConn in Run(start, steps) <==> start.0
    ensures start.0 ==> (var t := Run(start, steps);
      t[|t| - 1] == CloseConn && CloseConn !in t[..|t| - 1])
  {
    if start.0 {
      var t := Run(start, steps);
      assert t[..|t| - 1] == start.1 + steps;
    }
  }

  // ----- HeadFile -----

  lemma HeadStepsStatus(key: string, b: Backend, rfc1123: Time -> string)
    ensures Status(HeadSteps(key, b, rfc1123) + [CloseConn]) ==
      if b.existence != ExistsOk(true) then StatusNotFound
      else if b.attributes.AttributesNotFound? then StatusNotFound
      else if b.attributes.AttributesFailed? then StatusServiceUnavailable
      else 200
  {
    var steps := HeadSteps(key, b, rfc1123) + [CloseConn];
    if b.existence != ExistsOk(true) {
      assert steps == [Exists(key)] + ([Error("Not Found", StatusNotFound)] + [CloseConn]);
      StatusAtError([Exists(key)], "Not Found", StatusNotFound, [CloseConn]);
    } else if b.attributes.AttributesNotFound? {
      assert steps == [Exists(key), GetAttributes(key)] + ([Error("File do not exist", StatusNotFound)] + [CloseConn]);
      StatusAtError([Exists(key), GetAttributes(key)], "File do not exist", StatusNotFound, [CloseConn]);
    } else if b.attributes.AttributesFailed? {
      assert steps == [Exists(key), GetAttributes(key)] + ([Error("Cannot get Attributes", StatusServiceUnavailable)] + [CloseConn]);
      StatusAtError([Exists(key), GetAttributes(key)], "Cannot get Attributes", StatusServiceUnavailable, [CloseConn]);
    } else {
      var headers := HeaderEvents(b.attributes.attrs, rfc1123);
      assert steps == [Exists(key), GetAttributes(key)] + headers + [CloseConn] by {
        HeadStepsHeaders(key, b, rfc1123);
      }
      assert NoError(headers) by {
        HeaderEventsSetHeaders(b, rfc1123);
      }
      NoErrorConcat([Exists(key), GetAttributes(key)], headers, [CloseConn]);
      StatusNoError(steps);
    }
  }

  /** The status of HeadFile for every outcome of the loader and the store. */
  lemma HeadStatus(h: Handler, b: Backend, r: Request, rfc1123: Time -> string)
    ensures Status(HeadTrace(h, b, r, rfc1123)) ==
      if StartStatus(h, b, r) != 200 then StartStatus(h, b, r)
      else if b.existence != ExistsOk(true) then StatusNotFound
      else if b.attributes.AttributesNotFound? then StatusNotFound
      else if b.attributes.AttributesFailed? then StatusServiceUnavailable
      else 200
  {
    PrologueStatus(h, b, r);
    RunStatus(Prologue(h, b, r), HeadSteps(ParseVars(r).0.key, b, rfc1123));
    HeadStepsStatus(ParseVars(r).0.key, b, rfc1123);
  }

  /** The attribute headers are header writes only. */
  lemma HeaderEventsSetHeaders(b: Backend, rfc1123: Time -> string)
    ensures b.attributes.AttributesOk? ==> forall e :: e in HeaderEvents(b.attributes.attrs, rfc1123) ==> e.SetHeader?
  {
  }

  /** Once the bucket is open HEAD sends no body; it sets the attribute headers exactly when every check passes. */
  lemma HeadStepsHeaders(key: string, b: Backend, rfc1123: Time -> string)
    ensures WriteBody !in HeadSteps(key, b, rfc1123) && CloseConn !in HeadSteps(key, b, rfc1123)
    ensures b.existence == ExistsOk(true) && b.attributes.AttributesOk? ==>
      HeadSteps(key, b, rfc1123) == [Exists(key), GetAttributes(key)] + HeaderEvents(b.attributes.attrs, rfc1123)
    ensures !(b.existence == ExistsOk(true) && b.attributes.AttributesOk?) ==>
      forall e :: e in HeadSteps(key, b, rfc1123) ==> !e.SetHeader?
  {
    var steps := HeadSteps(key, b, rfc1123);
    HeaderEventsSetHeaders(b, rfc1123);
    if b.existence != ExistsOk(true) {
      assert steps == [Exists(key), Error("Not Found", StatusNotFound)];
    } else if !b.attributes.AttributesOk? {
      var message := if b.attributes.AttributesNotFound? then "File do not exist" else "Cannot get Attributes";
      var code := if b.attributes.AttributesNotFound? then StatusNotFound else StatusServiceUnavailable;
      assert steps == [Exists(key), GetAttributes(key), Error(message, code)];
    } else {
      assert steps == [Exists(key), GetAttributes(key)] + HeaderEvents(b.attributes.attrs, rfc1123);
    }
  }

  /** HeadFile never sends the blob. */
  lemma HeadNeverStreams(h: Handler, b: Backend, r: Request, rfc1123: Time -> string)
    ensures !Streamed(HeadTrace(h, b, r, rfc1123))
  {
    var key := ParseVars(r).0.key;
    assert WriteBody !in Prologue(h, b, r).1 by {
      PrologueOutcome(h, b, r);
    }
    HeadStepsHeaders(key, b, rfc1123);
    RunContains(Prologue(h, b, r), HeadSteps(key, b, rfc1123), WriteBody);
  }

  /** When HeadFile answers 200 it has set the five attribute headers, then closed the connection. */
  lemma HeadServesHeaders(h: Handler, b: Backend, r: Request, rfc1123: Time -> string)
    requires Status(HeadTrace(h, b, r, rfc1123)) == 200
    ensures b.attributes.AttributesOk?
    ensures HeadTrace(h, b, r, rfc1123) == Prologue(h, b, r).1 + [Exists(ParseVars(r).0.key), GetAttributes(ParseVars(r).0.key)]
      + HeaderEvents(b.attributes.attrs, rfc1123) + [CloseConn]
  {
    var key := ParseVars(r).0.key;
    assert StartStatus(h, b, r) == 200 && b.existence == ExistsOk(true) && b.attributes.AttributesOk? by {
      HeadStatus(h, b, r, rfc1123);
    }
    assert Prologue(h, b, r).0 by {
      PrologueStatus(h, b, r);
    }
    var start := Prologue(h, b, r).1;
    var served := [Exists(key), GetAttributes(key)];
    var headers := HeaderEvents(b.attributes.attrs, rfc1123);
    assert HeadSteps(key, b, rfc1123) == served + headers by {
      HeadStepsHeaders(key, b, rfc1123);
    }
    assert HeadTrace(h, b, r, rfc1123) == start + (served + headers) + [CloseConn];
    assert start + (served + headers) == start + served + headers;
  }

  // ----- DownloadFile -----

  lemma DownloadStepsStatus(key: string, b: Backend, rfc1123: Time -> string)
    ensures Status(DownloadSteps(key, b, rfc1123) + [CloseConn]) ==
      if b.existence != ExistsOk(true) then StatusNotFound
      else if !b.newReader then StatusBadGateway
      else if b.attributes.AttributesNotFound? then StatusNotFound
      else if b.attributes.AttributesFailed? then StatusServiceUnavailable
      else 200
  {
    if b.existence == ExistsOk(true) && b.newReader && b.attributes.AttributesOk? {
      DownloadStepsServedNoError(key, b, rfc1123);
      StatusNoError(DownloadSteps(key, b, rfc1123) + [CloseConn]);
    } else {
      DownloadStepsRefusedStatus(key, b, rfc1123);
    }
  }

  lemma DownloadStepsServedNoError(key: string, b: Backend, rfc1123: Time -> string)
    requires b.existence == ExistsOk(true) && b.newReader && b.attributes.AttributesOk?
    ensures NoError(DownloadSteps(key, b, rfc1123) + [CloseConn])
  {
    var headers := HeaderEvents(b.attributes.attrs, rfc1123);
    var front: seq<Event> := [Exists(key), NewReader(key), GetAttributes(key)];
    var back: seq<Event> := [WriteBody, CloseReader, CloseConn];
    assert DownloadSteps(key, b, rfc1123) + [CloseConn] == front + headers + back by {
      DownloadStepsServe(key, b, rfc1123);
      assert [WriteBody, CloseReader] + [CloseConn] == back;
    }
    assert NoError(headers) by {
      HeaderEventsSetHeaders(b, rfc1123);
    }
    NoErrorConcat(front, headers, back);
  }

  lemma NoErrorConcat(a: seq<Event>, b: seq<Event>, c: seq<Event>)
    requires NoError(a) && NoError(b) && NoError(c)
    ensures NoError(a + b + c)
  {
  }

  lemma DownloadStepsRefusedStatus(key: string, b: Backend, rfc1123: Time -> string)
    requires !(b.existence == ExistsOk(true) && b.newReader && b.attributes.AttributesOk?)
    ensures Status(DownloadSteps(key, b, rfc1123) + [CloseConn]) ==
      if b.existence != ExistsOk(true) then StatusNotFound
      else if !b.newReader then StatusBadGateway
      else if b.attributes.AttributesNotFound? then StatusNotFound
      else StatusServiceUnavailable
  {
    var steps := DownloadSteps(key, b, rfc1123) + [CloseConn];
    if b.existence != ExistsOk(true) {
      assert steps == [Exists(key)] + ([Error("Not Found", StatusNotFound)] + [CloseConn]);
      StatusAtError([Exists(key)], "Not Found", StatusNotFound, [CloseConn]);
    } else if !b.newReader {
      assert steps == [Exists(key), NewReader(key)] + ([Error("Error creating Bucket Reader", StatusBadGateway)] + [CloseConn]);
      StatusAtError([Exists(key), NewReader(key)], "Error creating Bucket Reader", StatusBadGateway, [CloseConn]);
    } else {
      var message := if b.attributes.AttributesNotFound? then "File do not exist" else "Cannot get Attributes";
      var code := if b.attributes.AttributesNotFound? then StatusNotFound else StatusServiceUnavailable;
      var withReader := [Exists(key), NewReader(key), GetAttributes(key)];
      assert steps == withReader + ([Error(message, code)] + [CloseReader, CloseConn]);
      StatusAtError(withReader, message, code, [CloseReader, CloseConn]);
    }
  }

  /** The status of DownloadFile for every outcome of the loader and the store. */
  lemma DownloadStatus(h: Handler, b: Backend, r: Request, rfc1123: Time -> string)
    ensures Status(DownloadTrace(h, b, r, rfc1123)) ==
      if StartStatus(h, b, r) != 200 then StartStatus(h, b, r)
      else if b.existence != ExistsOk(true) then StatusNotFound
      else if !b.newReader then StatusBadGateway
      else if b.attributes.AttributesNotFound? then StatusNotFound
      else if b.attributes.AttributesFailed? then StatusServiceUnavailable
      else 200
  {
    PrologueStatus(h, b, r);
    RunStatus(Prologue(h, b, r), DownloadSteps(ParseVars(r).0.key, b, rfc1123));
    DownloadStepsStatus(ParseVars(r).0.key, b, rfc1123);
  }

  /** Once the bucket is open: the body is written exactly when every check passes, after the headers and before the reader is closed. */
  lemma DownloadStepsStream(key: string, b: Backend, rfc1123: Time -> string)
    ensures WriteBody in DownloadSteps(key, b, rfc1123) <==>
      (b.existence == ExistsOk(true) && b.newReader && b.attributes.AttributesOk?)
    ensures WriteBody in DownloadSteps(key, b, rfc1123) ==>
      DownloadSteps(key, b, rfc1123) ==
        [Exists(key), NewReader(key), GetAttributes(key)] + HeaderEvents(b.attributes.attrs, rfc1123) + [WriteBody, CloseReader]
    ensures CloseConn !in DownloadSteps(key, b, rfc1123)
  {
    if b.existence == ExistsOk(true) && b.newReader && b.attributes.AttributesOk? {
      DownloadStepsServe(key, b, rfc1123);
    } else {
      DownloadStepsRefuse(key, b, rfc1123);
    }
  }

  lemma DownloadStepsServe(key: string, b: Backend, rfc1123: Time -> string)
    requires b.existence == ExistsOk(true) && b.newReader && b.attributes.AttributesOk?
    ensures DownloadSteps(key, b, rfc1123) ==
      [Exists(key), NewReader(key), GetAttributes(key)] + HeaderEvents(b.attributes.attrs, rfc1123) + [WriteBody, CloseReader]
    ensures WriteBody in DownloadSteps(key, b, rfc1123) && CloseConn !in DownloadSteps(key, b, rfc1123)
  {
    var headers := HeaderEvents(b.attributes.attrs, rfc1123);
    var steps := DownloadSteps(key, b, rfc1123);
    assert steps == [Exists(key), NewReader(key), GetAttributes(key)] + headers + [WriteBody, CloseReader] by {
      var read := ReadSteps(key, b, rfc1123);
      assert read == [GetAttributes(key)] + headers + [WriteBody];
      assert steps == [Exists(key)] + ([NewReader(key)] + read + [CloseReader]);
      Regroup5([Exists(key)], [NewReader(key)], [GetAttributes(key)], headers, [WriteBody], [CloseReader]);
      assert [Exists(key)] + [NewReader(key)] + [GetAttributes(key)] == [Exists(key), NewReader(key), GetAttributes(key)];
      assert [WriteBody] + [CloseReader] == [WriteBody, CloseReader];
    }
    assert CloseConn !in headers by {
      HeaderEventsSetHeaders(b, rfc1123);
    }
    assert steps[|steps| - 2] == WriteBody;
  }

  lemma DownloadStepsRefuse(key: string, b: Backend, rfc1123: Time -> string)
    requires !(b.existence == ExistsOk(true) && b.newReader && b.attributes.AttributesOk?)
    ensures WriteBody !in DownloadSteps(key, b, rfc1123) && CloseConn !in DownloadSteps(key, b, rfc1123)
    ensures forall e :: e in DownloadSteps(key, b, rfc1123) ==> !e.SetHeader?
  {
    var steps := DownloadSteps(key, b, rfc1123);
    if b.existence != ExistsOk(true) {
      assert steps == [Exists(key), Error("Not Found", StatusNotFound)];
    } else if !b.newReader {
      assert steps == [Exists(key), NewReader(key), Error("Error creating Bucket Reader", StatusBadGateway)];
    } else {
      var message := if b.attributes.AttributesNotFound? then "File do not exist" else "Cannot get Attributes";
      var code := if b.attributes.AttributesNotFound? then StatusNotFound else StatusServiceUnavailable;
      assert steps == [Exists(key), NewReader(key), GetAttributes(key), Error(message, code), CloseReader];
    }
  }

  /**
   * DownloadFile streams the blob exactly when every check passes, that is
   * exactly when it answers 200, and then only after the five attribute
   * headers, with the reader closed before the connection.
   */
  lemma DownloadStreamsIff(h: Handler, b: Backend, r: Request, rfc1123: Time -> string)
    ensures Streamed(DownloadTrace(h, b, r, rfc1123)) <==>
      (Prologue(h, b, r).0 && b.existence == ExistsOk(true) && b.newReader && b.attributes.AttributesOk?)
    ensures Streamed(DownloadTrace(h, b, r, rfc1123)) <==> Status(DownloadTrace(h, b, r, rfc1123)) == 200
    ensures Streamed(DownloadTrace(h, b, r, rfc1123)) ==>
      DownloadTrace(h, b, r, rfc1123) ==
        Prologue(h, b, r).1 + [Exists(ParseVars(r).0.key), NewReader(ParseVars(r).0.key), GetAttributes(ParseVars(r).0.key)]
        + HeaderEvents(b.attributes.attrs, rfc1123) + [WriteBody, CloseReader, CloseConn]
  {
    var key := ParseVars(r).0.key;
    var start := Prologue(h, b, r);
    assert WriteBody !in start.1 by {
      PrologueOutcome(h, b, r);
    }
    DownloadStepsStream(key, b, rfc1123);
    RunContains(start, DownloadSteps(key, b, rfc1123), WriteBody);
    DownloadStatus(h, b, r, rfc1123);
    PrologueStatus(h, b, r);
    if Streamed(DownloadTrace(h, b, r, rfc1123)) {
      Regroup(start.1, [Exists(key), NewReader(key), GetAttributes(key)], HeaderEvents(b.attributes.attrs, rfc1123),
        [WriteBody, CloseReader], [CloseConn]);
      assert [WriteBody, CloseReader] + [CloseConn] == [WriteBody, CloseReader, CloseConn];
    }
  }

  lemma Regroup5<T>(a: seq<T>, b: seq<T>, c: seq<T>, d: seq<T>, e: seq<T>, f: seq<T>)
    ensures a + (b + (c + d + e) + f) == a + b + c + d + (e + f)
  {
  }

  lemma Regroup<T>(a: seq<T>, b: seq<T>, c: seq<T>, d: seq<T>, e: seq<T>)
    ensures a + (b + c + d) + e == a + b + c + (d + e)
  {
  }

  /** A reader that cannot be created means that no attributes are asked for and no reader is closed. */
  lemma DownloadReaderFailure(h: Handler, b: Backend, r: Request, rfc1123: Time -> string)
    requires b.existence == ExistsOk(true) && !b.newReader
    ensures GetAttributes(ParseVars(r).0.key) !in DownloadTrace(h, b, r, rfc1123)
    ensures CloseReader !in DownloadTrace(h, b, r, rfc1123)
  {
    var key := ParseVars(r).0.key;
    var start := Prologue(h, b, r);
    assert GetAttributes(key) !in start.1 && CloseReader !in start.1 by {
      PrologueOutcome(h, b, r);
    }
    assert DownloadSteps(key, b, rfc1123) == [Exists(key), NewReader(key), Error("Error creating Bucket Reader", StatusBadGateway)];
    RunContains(start, DownloadSteps(key, b, rfc1123), GetAttributes(key));
    RunContains(start, DownloadSteps(key, b, rfc1123), CloseReader);
  }

  /** How the stream ends (canceled, timed out, another error, or none) changes nothing the client is told. */
  lemma DownloadIgnoresStreamError(h: Handler, b: Backend, r: Request, rfc1123: Time -> string, s: StreamOutcome)
    ensures DownloadTrace(h, b, r, rfc1123) == DownloadTrace(h, b.(writeTo := s), r, rfc1123)
  {
    var b' := b.(writeTo := s);
    assert Prologue(h, b, r) == Prologue(h, b', r) by {
      ConnectIgnoresStream(h, true, b, s);
      ConnectIgnoresStream(h, false, b, s);
    }
    DownloadStepsIgnoreStream(ParseVars(r).0.key, b, rfc1123, s);
  }

  lemma ConnectIgnoresStream(h: Handler, local: bool, b: Backend, s: StreamOutcome)
    ensures Connect(h, local, b) == Connect(h, local, b.(writeTo := s))
  {
    var b' := b.(writeTo := s);
    assert Opens(b, Pool.Azure) == Opens(b', Pool.Azure) && Opens(b, Pool.Http) == Opens(b', Pool.Http);
  }

  lemma DownloadStepsIgnoreStream(key: string, b: Backend, rfc1123: Time -> string, s: StreamOutcome)
    ensures DownloadSteps(key, b, rfc1123) == DownloadSteps(key, b.(writeTo := s), rfc1123)
  {
    var b' := b.(writeTo := s);
    assert b.existence == b'.existence && b.newReader == b'.newReader && b.attributes == b'.attributes;
  }

  // ----- UploadFile -----

  lemma UploadStepsStatus(key: string, contentType: string, bufferSize: Int64, b: Backend)
    ensures Status(UploadSteps(key, contentType, bufferSize, b) + [CloseConn]) ==
      if !b.newWriter then StatusBadGateway
      else if b.copy.CopyFailed? then StatusConflict
      else 200
    ensures CloseWriter in UploadSteps(key, contentType, bufferSize, b) <==> b.newWriter && b.copy.CopyOk?
    ensures UploadSteps(key, contentType, bufferSize, b)[0] == NewWriter(key, contentType, bufferSize)
    ensures CloseConn !in UploadSteps(key, contentType, bufferSize, b)
  {
    var open := NewWriter(key, contentType, bufferSize);
    var steps := UploadSteps(key, contentType, bufferSize, b) + [CloseConn];
    if !b.newWriter {
      assert steps == [open] + ([Error("Error writting data", StatusBadGateway)] + [CloseConn]);
      StatusAtError([open], "Error writting data", StatusBadGateway, [CloseConn]);
    } else if b.copy.CopyFailed? {
      assert steps == [open, CopyBody] + ([Error("Failed to copy content", StatusConflict)] + [CloseConn]);
      StatusAtError([open, CopyBody], "Failed to copy content", StatusConflict, [CloseConn]);
    } else {
      StatusNoError(steps);
      assert UploadSteps(key, contentType, bufferSize, b)[2] == CloseWriter;
    }
  }

  /** The status of UploadFile for every outcome of the loader and the store. */
  lemma UploadStatus(h: Handler, b: Backend, r: Request, env: Environment)
    ensures Status(UploadTrace(h, b, r, env)) ==
      if StartStatus(h, b, r) != 200 then StartStatus(h, b, r)
      else if !b.newWriter then StatusBadGateway
      else if b.copy.CopyFailed? then StatusConflict
      else 200
  {
    var p := ParseVars(r).0;
    var bufferSize := GetEnvInt(env, "UPLOAD_BUFFER_SIZE");
    PrologueStatus(h, b, r);
    RunStatus(Prologue(h, b, r), UploadSteps(p.key, p.contentType, bufferSize, b));
    UploadStepsStatus(p.key, p.contentType, bufferSize, b);
  }

  /**
   * The writer is closed, which commits the blob, exactly when the copy
   * succeeded, that is exactly when UploadFile answers 200; it is opened
   * with the request's Content-Type and the buffer size from
   * UPLOAD_BUFFER_SIZE.
   */
  lemma UploadCommitsIff(h: Handler, b: Backend, r: Request, env: Environment)
    ensures CloseWriter in UploadTrace(h, b, r, env) <==> (Prologue(h, b, r).0 && b.newWriter && b.copy.CopyOk?)
    ensures CloseWriter in UploadTrace(h, b, r, env) <==> Status(UploadTrace(h, b, r, env)) == 200
    ensures Prologue(h, b, r).0 ==>
      NewWriter(ParseVars(r).0.key, HeaderGet(r, "Content-Type"), GetEnvInt(env, "UPLOAD_BUFFER_SIZE")) in UploadTrace(h, b, r, env)
  {
    var p := ParseVars(r).0;
    var bufferSize := GetEnvInt(env, "UPLOAD_BUFFER_SIZE");
    var start := Prologue(h, b, r);
    var steps := UploadSteps(p.key, p.contentType, bufferSize, b);
    assert CloseWriter !in start.1 by {
      PrologueOutcome(h, b, r);
    }
    UploadStepsStatus(p.key, p.contentType, bufferSize, b);
    RunContains(start, steps, CloseWriter);
    UploadStatus(h, b, r, env);
    PrologueStatus(h, b, r);
    if start.0 {
      assert p.contentType == HeaderGet(r, "Content-Type") by {
        PrologueOutcome(h, b, r);
      }
      assert steps[0] in steps;
      RunContains(start, steps, steps[0]);
    }
  }

  /** What the client declared as Content-Length changes nothing: a mismatch is only logged. */
  lemma UploadIgnoresContentLength(h: Handler, b: Backend, r: Request, env: Environment, n: int)
    ensures UploadTrace(h, b, r, env) == UploadTrace(h, b, r.(contentLength := n), env)
  {
    var r' := r.(contentLength := n);
    assert Var(r, "remote") == Var(r', "remote") && Var(r, "folder") == Var(r', "folder") && Var(r, "file") == Var(r', "file");
    assert HeaderGet(r, "Content-Type") == HeaderGet(r', "Content-Type");
    assert HeaderGet(r, "Accept-Encoding") == HeaderGet(r', "Accept-Encoding") && HeaderGet(r, "Range") == HeaderGet(r', "Range");
    assert ParseVars(r) == ParseVars(r');
  }

  // ----- all three handlers -----

  /**
   * The handlers read only the route variables and the Content-Type header:
   * Range and Accept-Encoding are parsed but never used.
   */
  lemma HandlersReadVarsAndContentType(h: Handler, b: Backend, r1: Request, r2: Request, rfc1123: Time -> string, env: Environment)
    requires r1.vars == r2.vars && HeaderGet(r1, "Content-Type") == HeaderGet(r2, "Content-Type")
    ensures HeadTrace(h, b, r1, rfc1123) == HeadTrace(h, b, r2, rfc1123)
    ensures DownloadTrace(h, b, r1, rfc1123) == DownloadTrace(h, b, r2, rfc1123)
    ensures UploadTrace(h, b, r1, env) == UploadTrace(h, b, r2, env)
  {
    var x := ParseVars(r1);
    var y := ParseVars(r2);
    assert Var(r1, "remote") == Var(r2, "remote") && Var(r1, "folder") == Var(r2, "folder") && Var(r1, "file") == Var(r2, "file");
    assert x.1 == y.1 && x.0.remoteId == y.0.remoteId && x.0.key == y.0.key && x.0.contentType == y.0.contentType;
    StartReadsRemoteId(h, b, x, y);
  }

  /**
   * `defer conn.Close()`: HeadFile closes the connection exactly when its
   * start went on, and then exactly once, as its last step; so do the
   * other two handlers.
   */
  lemma HeadClosesConnection(h: Handler, b: Backend, r: Request, rfc1123: Time -> string)
    ensures CloseConn in HeadTrace(h, b, r, rfc1123) <==> Prologue(h, b, r).0
    ensures Prologue(h, b, r).0 ==> (var t := HeadTrace(h, b, r, rfc1123);
      t[|t| - 1] == CloseConn && CloseConn !in t[..|t| - 1])
  {
    var key := ParseVars(r).0.key;
    assert CloseConn !in Prologue(h, b, r).1 by {
      PrologueOutcome(h, b, r);
    }
    HeadStepsHeaders(key, b, rfc1123);
    RunClosesOnceLast(Prologue(h, b, r), HeadSteps(key, b, rfc1123));
  }

  lemma DownloadClosesConnection(h: Handler, b: Backend, r: Request, rfc1123: Time -> string)
    ensures CloseConn in DownloadTrace(h, b, r, rfc1123) <==> Prologue(h, b, r).0
    ensures Prologue(h, b, r).0 ==> (var t := DownloadTrace(h, b, r, rfc1123);
      t[|t| - 1] == CloseConn && CloseConn !in t[..|t| - 1])
  {
    var key := ParseVars(r).0.key;
    assert CloseConn !in Prologue(h, b, r).1 by {
      PrologueOutcome(h, b, r);
    }
    DownloadStepsStream(key, b, rfc1123);
    RunClosesOnceLast(Prologue(h, b, r), DownloadSteps(key, b, rfc1123));
  }

  lemma UploadClosesConnection(h: Handler, b: Backend, r: Request, env: Environment)
    ensures CloseConn in UploadTrace(h, b, r, env) <==> Prologue(h, b, r).0
    ensures Prologue(h, b, r).0 ==> (var t := UploadTrace(h, b, r, env);
      t[|t| - 1] == CloseConn && CloseConn !in t[..|t| - 1])
  {
    var p := ParseVars(r).0;
    var bufferSize := GetEnvInt(env, "UPLOAD_BUFFER_SIZE");
    assert CloseConn !in Prologue(h, b, r).1 by {
      PrologueOutcome(h, b, r);
    }
    UploadStepsStatus(p.key, p.contentType, bufferSize, b);
    RunClosesOnceLast(Prologue(h, b, r), UploadSteps(p.key, p.contentType, bufferSize, b));
  }

  // ----- the headers -----

  /** The ETag is the quoted base64 of the digest, and unquoting and decoding it gives the digest back. */
  lemma ETagDecodes(md5: seq<Base64.Byte>)
    ensures |ETag(md5)| >= 2 && ETag(md5)[0] == '"' && ETag(md5)[|ETag(md5)| - 1] == '"'
    ensures '"' !in ETag(md5)[1..|ETag(md5)| - 1]
    ensures Base64.Decode(ETag(md5)[1..|ETag(md5)| - 1]) == Some(md5)
  {
    var e := ETag(md5);
    assert e[1..|e| - 1] == Base64.Encode(md5);
    Base64.DecodeEncode(md5);
  }

  /** Content-Length is the decimal size, which parses back to the size. */
  lemma ContentLengthParses(a: Attributes, rfc1123: Time -> string)
    ensures HeaderEvents(a, rfc1123)[0] == SetHeader("Content-Length", FormatInt(a.size))
    ensures Atoi(HeaderEvents(a, rfc1123)[0].value) == Some(a.size)
  {
    FormatIntRoundTrip(a.size);
  }

  // ----- the environment -----

  /** getEnvInt reads back any integer written with FormatInt. */
  lemma GetEnvIntFormatted(env: Environment, key: string, n: Int64)
    ensures GetEnvInt(env[key := FormatInt(n)], key) == n
  {
    FormatIntRoundTrip(n);
  }

  /** An unset variable reads as 0. */
  lemma GetEnvIntUnset(env: Environment, key: string)
    requires key !in env
    ensures GetEnvInt(env, key) == 0
  {
    AtoiRejectsEmpty();
  }

  // ----- with the loader of pkg/storage -----

  /** The handler as the gateway wires it: its loader is StorageSiteLoader.LoadConfig. */
  function Wired(s: Storage.StorageSiteLoader, env: Environment): Handler
  {
    Handler(local => Storage.LoadConfig(s, local, env))
  }

  /** Remote 0 opens an http bucket on the local directory. */
  lemma LocalRemoteOpensHttp(s: Storage.StorageSiteLoader, env: Environment, b: Backend, r: Request)
    requires Atoi(Var(r, "remote")) == Some(0)
    requires b.openHttp
    ensures Prologue(Wired(s, env), b, r) == (true, [LoadConfig(true), Open(Pool.Http)])
  {
    ConnectOutcome(Wired(s, env), true, b);
  }

  /** Any other remote opens the Azure container of the environment, and is refused with 403 when that configuration does not load. */
  lemma OtherRemoteOpensAzure(s: Storage.StorageSiteLoader, env: Environment, b: Backend, r: Request)
    requires Atoi(Var(r, "remote")).Some? && Atoi(Var(r, "remote")).value != 0
    ensures var loaded := Azure.LoadAzureConfig(Getenv(env, "AZURE_STORAGE_URL"), Getenv(env, "AZURE_CONNECTION_STRING"));
      loaded.Success? && b.openAzure ==>
        Prologue(Wired(s, env), b, r) == (true, [LoadConfig(false), Open(Pool.Azure)])
    ensures var loaded := Azure.LoadAzureConfig(Getenv(env, "AZURE_STORAGE_URL"), Getenv(env, "AZURE_CONNECTION_STRING"));
      loaded.Failure? ==> StartStatus(Wired(s, env), b, r) == StatusForbidden
  {
    ConnectOutcome(Wired(s, env), false, b);
  }
}
