/**
 * The response writer both components talk to (Go's `http.ResponseWriter`),
 * modelled as a recorder: it keeps the header map, the last status code
 * written, the body bytes and the ordered trace of every call it received.
 *
 * A recorder has a `capacity`: the number of body bytes the connection
 * still accepts. A write that does not fit is cut short and reports an
 * error, as a write to a closed or broken client connection does. This is
 * what lets the model say what a caller does with a count `n` that comes
 * together with an error.
 *
 * The recorder does not reproduce net/http's own rules (headers set after
 * the status line are dropped, an implicit 200 on the first write): it
 * records every call exactly as it was made.
 */
module ResponseWriter {
  import opened Wrappers
  import opened Utf8

  /** Error values: a write the connection cut short, or an error carrying
      a message (made with `errors.New`, or coming from a collaborator
      outside the model such as a serializer or a reader). */
  datatype Error = ShortWrite | Failed(message: string)

  /** One call made on a response writer. */
  datatype Event =
    | HeaderSet(key: string, value: string)   // w.Header().Set(key, value)
    | StatusWritten(code: int)                 // w.WriteHeader(code)
    | BodyWritten(data: Bytes)                 // w.Write(data)

  /** What a recorder holds, as a value. */
  datatype Recording = Recording(
    headers: map<string, string>,
    code: Option<int>,
    body: Bytes,
    trace: seq<Event>,
    capacity: nat)

  function Min(a: nat, b: nat): nat { if a <= b then a else b }

  /** The count a write of `data` reports when `capacity` bytes are still accepted. */
  function Accepted(capacity: nat, data: Bytes): (n: nat)
    ensures n <= |data| && n <= capacity
    ensures n == |data| || n == capacity
  {
    Min(|data|, capacity)
  }

  /** The error a write of `data` reports: none exactly when all of it was accepted. */
  function WriteError(capacity: nat, data: Bytes): (err: Option<Error>)
    ensures err == None <==> Accepted(capacity, data) == |data|
    ensures err != None ==> err == Some(ShortWrite)
  {
    if |data| <= capacity then None else Some(ShortWrite)
  }

  /** The longest prefix of `s` of length at most `n`. */
  function Take(s: Bytes, n: nat): Bytes
  {
    s[..Min(|s|, n)]
  }

  /** Two writes in a row accept the same bytes as one write of their concatenation. */
  lemma TakeAppend(a: Bytes, b: Bytes, n: nat)
    ensures Take(a + b, n) == Take(a, n) + Take(b, n - |Take(a, n)|)
  {
  }

  /** The effect of one call on a recording. */
  function Apply(r: Recording, e: Event): (r': Recording)
    ensures r'.trace == r.trace + [e]
    ensures |r'.body| + r'.capacity == |r.body| + r.capacity
  {
    match e
    case HeaderSet(key, value) =>
      r.(headers := r.headers[key := value], trace := r.trace + [e])
    case StatusWritten(code) =>
      r.(code := Some(code), trace := r.trace + [e])
    case BodyWritten(data) =>
      var n := Accepted(r.capacity, data);
      r.(body := r.body + data[..n], capacity := r.capacity - n, trace := r.trace + [e])
  }

  /** The effect of a sequence of calls, made in order. */
  function Replay(r: Recording, calls: seq<Event>): Recording
    decreases |calls|
  {
    if calls == [] then r
    else Apply(Replay(r, calls[..|calls| - 1]), calls[|calls| - 1])
  }

  /** The bytes a sequence of calls asks to have written, in order. */
  function Payload(calls: seq<Event>): Bytes
    decreases |calls|
  {
    if calls == [] then []
    else
      var last := calls[|calls| - 1];
      Payload(calls[..|calls| - 1]) + (if last.BodyWritten? then last.data else [])
  }

  lemma ReplaySnoc(r: Recording, calls: seq<Event>, e: Event)
    ensures Replay(r, calls + [e]) == Apply(Replay(r, calls), e)
  {
  }

  lemma PayloadSnoc(calls: seq<Event>, e: Event)
    ensures Payload(calls + [e]) == Payload(calls) + (if e.BodyWritten? then e.data else [])
  {
  }

  /** The payload of consecutive call sequences is the concatenation of their payloads. */
  lemma {:induction false} PayloadAppend(a: seq<Event>, b: seq<Event>)
    ensures Payload(a + b) == Payload(a) + Payload(b)
    decreases |b|
  {
    if b == [] {
      assert a + b == a;
    } else {
      var init, last := b[..|b| - 1], b[|b| - 1];
      assert a + b == (a + init) + [last];
      assert init + [last] == b;
      PayloadAppend(a, init);
      PayloadSnoc(a + init, last);
      PayloadSnoc(init, last);
    }
  }

  lemma PayloadCons(e: Event, calls: seq<Event>)
    ensures Payload([e] + calls) == (if e.BodyWritten? then e.data else []) + Payload(calls)
  {
    PayloadAppend([e], calls);
    PayloadSnoc([], e);
    assert [] + [e] == [e];
  }

  /** The trace of a replay is the calls themselves, appended in order. */
  lemma {:induction false} ReplayTrace(r: Recording, calls: seq<Event>)
    ensures Replay(r, calls).trace == r.trace + calls
    decreases |calls|
  {
    if calls != [] {
      var init := calls[..|calls| - 1];
      ReplayTrace(r, init);
      assert init + [calls[|calls| - 1]] == calls;
    }
  }

  /** The body of a replay is the prefix of the payload the connection
      accepted: every accepted byte arrives unchanged and in order. */
  lemma {:induction false} ReplayBody(r: Recording, calls: seq<Event>)
    ensures Replay(r, calls).body == r.body + Take(Payload(calls), r.capacity)
    ensures Replay(r, calls).capacity == r.capacity - |Take(Payload(calls), r.capacity)|
    decreases |calls|
  {
    if calls != [] {
      var init, last := calls[..|calls| - 1], calls[|calls| - 1];
      assert init + [last] == calls;
      ReplayBody(r, init);
      ReplaySnoc(r, init, last);
      PayloadSnoc(init, last);
      if last.BodyWritten? {
        TakeAppend(Payload(init), last.data, r.capacity);
      }
    }
  }

  /** A response writer that records every call made on it. */
  class RecordingWriter {
    var headers: map<string, string>
    var code: Option<int>
    var body: Bytes
    var trace: seq<Event>
    var capacity: nat

    function State(): Recording
      reads this
    {
      Recording(headers, code, body, trace, capacity)
    }

    /** A fresh writer whose connection accepts `capacity` body bytes. */
    constructor (capacity: nat)
      ensures State() == Recording(map[], None, [], [], capacity)
    {
      headers, code, body, trace := map[], None, [], [];
      this.capacity := capacity;
    }

    /** w.Header().Set(key, value) */
    method SetHeader(key: string, value: string)
      modifies this
      ensures headers == old(headers)[key := value]
      ensures trace == old(trace) + [HeaderSet(key, value)]
      ensures code == old(code) && body == old(body) && capacity == old(capacity)
      ensures State() == Apply(old(State()), HeaderSet(key, value))
    {
      headers := headers[key := value];
      trace := trace + [HeaderSet(key, value)];
    }

    /** w.WriteHeader(code) */
    method WriteHeader(code: int)
      modifies this
      ensures this.code == Some(code)
      ensures trace == old(trace) + [StatusWritten(code)]
      ensures headers == old(headers) && body == old(body) && capacity == old(capacity)
      ensures State() == Apply(old(State()), StatusWritten(code))
    {
      this.code := Some(code);
      trace := trace + [StatusWritten(code)];
    }

    /** w.Write(data): returns the count accepted and the error, if any. */
    method Write(data: Bytes) returns (n: nat, err: Option<Error>)
      modifies this
      ensures n == Accepted(old(capacity), data) && err == WriteError(old(capacity), data)
      ensures body == old(body) + data[..n] && capacity == old(capacity) - n
      ensures trace == old(trace) + [BodyWritten(data)]
      ensures headers == old(headers) && code == old(code)
      ensures State() == Apply(old(State()), BodyWritten(data))
    {
      n := Accepted(capacity, data);
      err := WriteError(capacity, data);
      body := body + data[..n];
      capacity := capacity - n;
      trace := trace + [BodyWritten(data)];
    }
  }
}
