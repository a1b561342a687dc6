/**
 * The request-logging middleware: a writer decorator that captures the
 * status code and the number of body bytes written, the colour tables for
 * the log line, the skip set, and the per-request handler that wraps the
 * writer, runs the rest of the chain and emits at most one log entry.
 */
module RequestLogger {
  import opened Wrappers
  import opened Utf8
  import opened ResponseWriter

  // ---------------------------------------------------------------------
  // Colours

  /** The terminal colours the log line uses. */
  datatype Color = FgGreen | FgCyan | FgYellow | FgRed | FgBlue | FgMagenta | FgWhite | FgDefault

  /** Colour of the status code: one bucket per class of 2xx, 3xx and 4xx,
      and red for everything else, including 0 (no status seen), 1xx,
      5xx and out-of-range codes. */
  function ColorForStatus(code: int): (c: Color)
    ensures c == FgGreen <==> 200 <= code < 300
    ensures c == FgCyan <==> 300 <= code < 400
    ensures c == FgYellow <==> 400 <= code < 500
    ensures c == FgRed <==> !(200 <= code < 500)
  {
    if code >= 200 && code < 300 then FgGreen
    else if code >= 300 && code < 400 then FgCyan
    else if code >= 400 && code < 500 then FgYellow
    else FgRed
  }

  /** The request methods the colour table knows, matched exactly. */
  const KnownMethods: set<string> := {"GET", "POST", "PUT", "DELETE", "PATCH", "HEAD", "OPTIONS"}

  /** Colour of the request method; an unknown method (or a known one in
      another case) gets the default colour. */
  function ColorForMethod(verb: string): (c: Color)
    ensures c == FgBlue <==> verb == "GET"
    ensures c == FgCyan <==> verb == "POST"
    ensures c == FgYellow <==> verb == "PUT"
    ensures c == FgRed <==> verb == "DELETE"
    ensures c == FgGreen <==> verb == "PATCH"
    ensures c == FgMagenta <==> verb == "HEAD"
    ensures c == FgWhite <==> verb == "OPTIONS"
    ensures c == FgDefault <==> verb !in KnownMethods
  {
    match verb
    case "GET" => FgBlue
    case "POST" => FgCyan
    case "PUT" => FgYellow
    case "DELETE" => FgRed
    case "PATCH" => FgGreen
    case "HEAD" => FgMagenta
    case "OPTIONS" => FgWhite
    case _ => FgDefault
  }

  // ---------------------------------------------------------------------
  // The skip set

  /** Paths that are never logged. */
  const SkipPaths: map<string, int> := map["/health" := 1, "/status" := 1]

  /** Whether a request path is exempt from logging. */
  function Skipped(path: string): (skip: bool)
    ensures skip <==> path == "/health" || path == "/status"
  {
    path in SkipPaths
  }

  // ---------------------------------------------------------------------
  // What the status writer captures, as functions of the calls made on it

  /** The status the wrapper holds after `calls`: an explicit status line
      overwrites it, and a body write turns a still-zero status into 200. */
  function CapturedStatus(calls: seq<Event>): int
    decreases |calls|
  {
    if calls == [] then 0
    else
      StatusStep(CapturedStatus(calls[..|calls| - 1]), calls[|calls| - 1])
  }

  /** The length the wrapper holds after `calls` made on a writer that was
      in state `r`: the sum of the counts the inner writer reported. */
  function CapturedLength(r: Recording, calls: seq<Event>): int
    decreases |calls|
  {
    if calls == [] then 0
    else
      var init := calls[..|calls| - 1];
      CapturedLength(r, init) + LengthStep(Replay(r, init), calls[|calls| - 1])
  }

  lemma CapturedStatusSnoc(calls: seq<Event>, e: Event)
    ensures CapturedStatus(calls + [e]) == StatusStep(CapturedStatus(calls), e)
  {
  }

  /** One call's effect on the captured status. */
  function StatusStep(s: int, e: Event): int
  {
    match e
    case StatusWritten(code) => code
    case BodyWritten(_) => if s == 0 then 200 else s
    case HeaderSet(_, _) => s
  }

  /** The count one call adds to the captured length, on a writer in state `r`. */
  function LengthStep(r: Recording, e: Event): nat
  {
    if e.BodyWritten? then Accepted(r.capacity, e.data) else 0
  }

  lemma CapturedLengthSnoc(origin: Recording, calls: seq<Event>, e: Event)
    ensures CapturedLength(origin, calls + [e]) ==
      CapturedLength(origin, calls) + LengthStep(Replay(origin, calls), e)
  {
  }

  /** With no explicit status line, the captured status is 200 once anything
      was written and 0 before. */
  lemma {:induction false} StatusWithoutSignal(calls: seq<Event>)
    requires forall i :: 0 <= i < |calls| ==> !calls[i].StatusWritten?
    ensures CapturedStatus(calls) ==
      if exists i :: 0 <= i < |calls| && calls[i].BodyWritten? then 200 else 0
    decreases |calls|
  {
    if calls != [] {
      var init, last := calls[..|calls| - 1], calls[|calls| - 1];
      assert init + [last] == calls;
      StatusWithoutSignal(init);
      CapturedStatusSnoc(init, last);
      if exists i :: 0 <= i < |init| && init[i].BodyWritten? {
        var i :| 0 <= i < |init| && init[i].BodyWritten?;
        assert calls[i] == init[i];
      }
      if exists i :: 0 <= i < |calls| && calls[i].BodyWritten? {
        var i :| 0 <= i < |calls| && calls[i].BodyWritten?;
        assert i < |init| ==> init[i] == calls[i];
      }
    }
  }

  /** The last explicit status line wins: after it, only a body write can
      change the captured status, and only when that status was 0. */
  lemma {:induction false} LastSignalWins(before: seq<Event>, code: int, after: seq<Event>)
    requires forall i :: 0 <= i < |after| ==> !after[i].StatusWritten?
    ensures CapturedStatus(before + [StatusWritten(code)] + after) ==
      if code == 0 && exists i :: 0 <= i < |after| && after[i].BodyWritten? then 200 else code
    decreases |after|
  {
    var head := before + [StatusWritten(code)];
    if after == [] {
      assert head + after == head;
      CapturedStatusSnoc(before, StatusWritten(code));
    } else {
      var init, last := after[..|after| - 1], after[|after| - 1];
      assert head + after == (head + init) + [last];
      LastSignalWins(before, code, init);
      CapturedStatusSnoc(head + init, last);
      if exists i :: 0 <= i < |init| && init[i].BodyWritten? {
        var i :| 0 <= i < |init| && init[i].BodyWritten?;
        assert after[i] == init[i];
      }
      if exists i :: 0 <= i < |after| && after[i].BodyWritten? {
        var i :| 0 <= i < |after| && after[i].BodyWritten?;
        assert i < |init| ==> init[i] == after[i];
      }
    }
  }

  /** Once a body write has happened, the captured status stays nonzero
      unless a later explicit status line sets it to 0. */
  lemma {:induction false} NonzeroOnceWritten(calls: seq<Event>, k: nat)
    requires k < |calls| && calls[k].BodyWritten?
    requires forall i :: k < i < |calls| ==> calls[i] != StatusWritten(0)
    ensures CapturedStatus(calls) != 0
    decreases |calls|
  {
    var init, last := calls[..|calls| - 1], calls[|calls| - 1];
    assert init + [last] == calls;
    CapturedStatusSnoc(init, last);
    if k < |init| {
      NonzeroOnceWritten(init, k);
    }
  }

  /** The captured length equals the number of body bytes the inner writer
      received through the wrapper. */
  lemma {:induction false} LengthIsBytesForwarded(r: Recording, calls: seq<Event>)
    ensures CapturedLength(r, calls) == |Replay(r, calls).body| - |r.body|
    decreases |calls|
  {
    if calls != [] {
      var init := calls[..|calls| - 1];
      LengthIsBytesForwarded(r, init);
    }
  }

  /** The captured length is the size of the accepted prefix of the payload. */
  lemma CapturedLengthIsAcceptedPayload(r: Recording, calls: seq<Event>)
    ensures CapturedLength(r, calls) == |Take(Payload(calls), r.capacity)|
  {
    LengthIsBytesForwarded(r, calls);
    ReplayBody(r, calls);
  }

  /** The captured length never decreases as calls are made. */
  lemma {:induction false} LengthMonotonic(r: Recording, calls: seq<Event>, k: nat)
    requires k <= |calls|
    ensures CapturedLength(r, calls[..k]) <= CapturedLength(r, calls)
    decreases |calls|
  {
    if k == |calls| {
      assert calls[..k] == calls;
    } else {
      var init := calls[..|calls| - 1];
      assert init[..k] == calls[..k];
      LengthMonotonic(r, init, k);
    }
  }

  /** What a body write does to everything the wrapper tracks. */
  lemma WriteStep(origin: Recording, calls: seq<Event>, before: Recording, status: int, length: int, data: Bytes)
    requires before == Replay(origin, calls)
    requires status == CapturedStatus(calls) && length == CapturedLength(origin, calls)
    ensures Replay(origin, calls + [BodyWritten(data)]) == Apply(before, BodyWritten(data))
    ensures CapturedStatus(calls + [BodyWritten(data)]) == if status == 0 then 200 else status
    ensures CapturedLength(origin, calls + [BodyWritten(data)]) == length + Accepted(before.capacity, data)
  {
    ReplaySnoc(origin, calls, BodyWritten(data));
    CapturedStatusSnoc(calls, BodyWritten(data));
    CapturedLengthSnoc(origin, calls, BodyWritten(data));
  }

  // ---------------------------------------------------------------------
  // The status writer

  /** Decorates a response writer and records the status code and the
      number of body bytes written through it. */
  class StatusWriter {
    const inner: RecordingWriter
    var status: int
    var length: int

    /** The inner writer's state when it was wrapped. */
    ghost var origin: Recording
    /** The calls made on the wrapper so far. */
    ghost var calls: seq<Event>

    /** The captured fields are what the calls so far determine, and the
        inner writer received exactly those calls. */
    ghost predicate Valid()
      reads this, inner
    {
      && inner.State() == Replay(origin, calls)
      && status == CapturedStatus(calls)
      && length == CapturedLength(origin, calls)
    }

    /** &statusWriter{ResponseWriter: w} */
    constructor (w: RecordingWriter)
      ensures inner == w && origin == w.State() && calls == []
      ensures status == 0 && length == 0
      ensures Valid()
    {
      inner := w;
      status, length := 0, 0;
      origin := w.State();
      calls := [];
    }

    /** Status(): the captured status of all calls made so far. */
    function Status(): (s: int)
      reads this, inner
      requires Valid()
      ensures s == CapturedStatus(calls)
    {
      status
    }

    /** Header().Set(...), forwarded through the embedded writer. */
    method SetHeader(key: string, value: string)
      requires Valid()
      modifies this, inner
      ensures Valid() && origin == old(origin) && calls == old(calls) + [HeaderSet(key, value)]
      ensures status == old(status) && length == old(length)
      ensures inner.State() == Apply(old(inner.State()), HeaderSet(key, value))
    {
      inner.SetHeader(key, value);
      calls := calls + [HeaderSet(key, value)];
      ReplaySnoc(origin, old(calls), HeaderSet(key, value));
      CapturedStatusSnoc(old(calls), HeaderSet(key, value));
      CapturedLengthSnoc(origin, old(calls), HeaderSet(key, value));
    }

    /** WriteHeader(code): records the code, overwriting any earlier one,
        and forwards exactly that code. */
    method WriteHeader(code: int)
      requires Valid()
      modifies this, inner
      ensures Valid() && origin == old(origin) && calls == old(calls) + [StatusWritten(code)]
      ensures status == code && length == old(length)
      ensures inner.State() == Apply(old(inner.State()), StatusWritten(code))
    {
      status := code;
      inner.WriteHeader(code);
      calls := calls + [StatusWritten(code)];
      ReplaySnoc(origin, old(calls), StatusWritten(code));
      CapturedStatusSnoc(old(calls), StatusWritten(code));
      CapturedLengthSnoc(origin, old(calls), StatusWritten(code));
    }

    /** Write(data): defaults a zero status to 200, forwards the bytes
        unchanged, adds the reported count to the length (whether or not
        an error came with it) and returns the inner writer's result. */
    method Write(data: Bytes) returns (n: nat, err: Option<Error>)
      requires Valid()
      modifies this, inner
      ensures Valid() && origin == old(origin) && calls == old(calls) + [BodyWritten(data)]
      ensures status == (if old(status) == 0 then 200 else old(status))
      ensures status != 0
      ensures n == Accepted(old(inner.capacity), data) && err == WriteError(old(inner.capacity), data)
      ensures length == old(length) + n
      ensures inner.State() == Apply(old(inner.State()), BodyWritten(data))
    {
      WriteStep(origin, calls, inner.State(), status, length, data);
      if status == 0 {
        status := 200;
      }
      n, err := inner.Write(data);
      length := length + n;
      calls := calls + [BodyWritten(data)];
    }
  }

  /** c.Next(): the rest of the handler chain, which makes the calls
      `downstream` on the writer it was given, in order. */
  method Next(sw: StatusWriter, downstream: seq<Event>)
    requires sw.Valid()
    modifies sw, sw.inner
    ensures sw.Valid() && sw.origin == old(sw.origin) && sw.calls == old(sw.calls) + downstream
  {
    for i := 0 to |downstream|
      invariant sw.Valid() && sw.origin == old(sw.origin)
      invariant sw.calls == old(sw.calls) + downstream[..i]
    {
      assert downstream[..i + 1] == downstream[..i] + [downstream[i]];
      match downstream[i]
      case HeaderSet(key, value) => sw.SetHeader(key, value);
      case StatusWritten(code) => sw.WriteHeader(code);
      case BodyWritten(data) => var _, _ := sw.Write(data);
    }
    assert downstream[..|downstream|] == downstream;
  }

  // ---------------------------------------------------------------------
  // The middleware

  /** The parts of a request the middleware reads. */
  datatype Request = Request(verb: string, path: string, requestURI: string, clientIP: string)

  /** One access-log line, before formatting: the start time and the
      elapsed-time text are opaque values supplied by the clock. */
  datatype LogEntry = LogEntry(
    started: int,
    clientIP: string,
    verb: string,
    methodColor: Color,
    status: int,
    statusColor: Color,
    requestURI: string,
    elapsed: string)

  /** The entry logged for `req` once the response status is `status`. */
  function EntryFor(req: Request, status: int, started: int, elapsed: string): LogEntry
  {
    LogEntry(started, req.clientIP, req.verb, ColorForMethod(req.verb),
             status, ColorForStatus(status), req.requestURI, elapsed)
  }

  /** Standard output, as the sequence of entries printed to it. */
  class LogSink {
    var lines: seq<LogEntry>

    constructor ()
      ensures lines == []
    {
      lines := [];
    }

    method Emit(entry: LogEntry)
      modifies this
      ensures lines == old(lines) + [entry]
    {
      lines := lines + [entry];
    }
  }

  /** The handler RequestLogger returns, run for one request: wrap the
      writer, run the chain, then log one entry with the final status
      unless the path is skipped. The inner writer receives exactly the
      downstream calls. */
  method Handle(req: Request, resp: RecordingWriter, downstream: seq<Event>,
                started: int, elapsed: string, sink: LogSink)
    modifies resp, sink
    ensures resp.State() == Replay(old(resp.State()), downstream)
    ensures sink.lines == old(sink.lines) +
      (if Skipped(req.path) then [] else [EntryFor(req, CapturedStatus(downstream), started, elapsed)])
  {
    var sw := new StatusWriter(resp);
    Next(sw, downstream);
    assert sw.calls == downstream;
    if req.path in SkipPaths {
      return;
    }
    var status := sw.Status();
    sink.Emit(LogEntry(started, req.clientIP, req.verb, ColorForMethod(req.verb),
                       status, ColorForStatus(status), req.requestURI, elapsed));
  }
}
