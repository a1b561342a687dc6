# Request logger and HTTP renderer, modelled in Dafny

This project models two add-ons of a Go HTTP framework.

- **The request logger** (`handlers/request_logger.go`) wraps the response writer in a
  *status writer*. The status writer records the status code and the number of body
  bytes written, and forwards every call unchanged. The logger runs the rest of the
  handler chain through it. Afterwards it emits one access-log entry, unless the path
  is `/health` or `/status`. The entry's method and status are coloured from two
  fixed tables.
- **The HTTP renderer** (`render/http_renderer.go`) has one method per content type:
  `Empty`, `NoContent`, `String`, `Text`, `JSON`, `JSONP`, `XML` and `Binary`. Each
  is a fixed sequence of header sets, a status line and body writes. `NoContent` and
  `Empty` write only the status line. The error paths of `JSON`, `XML` and `JSONP`
  stop after the status line, and `Binary` makes no call at all when its input
  cannot be read.
  `NewHTTPRenderer` builds the options and applies an optional configuration callback.

Both components talk to a response writer. Here that writer is a recorder
(`ResponseWriter.RecordingWriter`). It holds the header map, the last status code
written, the body bytes and the ordered trace of calls. It also has a *capacity*: how
many more body bytes the connection accepts. A write that does not fit is cut short and
returns `ShortWrite`, as a write to a broken connection does. This gives the model a
write that reports both a count and an error. The recorder does not apply net/http's
own rules (headers set after the status line are ignored; the first write implies
200). It records each call exactly as made.

Every call has a pure counterpart. `ResponseWriter.Apply` is the effect of one call and
`ResponseWriter.Replay` is the effect of a sequence of calls. For the logger,
`RequestLogger.CapturedStatus` and `RequestLogger.CapturedLength` are what the status
writer holds after a sequence of calls. The `StatusWriter` class is verified against
these functions through its `Valid()` invariant. The lemmas state the source's promises
about them. Each renderer method's `ensures` gives its calls as a plan function
(`TextCalls`, `JsonpCalls`, ...). Module `Pipeline` feeds those plans to the logger's
functions. So it proves what the log entry shows when a handler answers through a
given renderer method.

Modules and files: `Wrappers` (wrappers.dfy), `Utf8` (utf8.dfy), `ResponseWriter`
(response_writer.dfy), `RequestLogger` (request_logger.dfy), `HttpRenderer`
(http_renderer.dfy), `Pipeline` (pipeline.dfy).

Three behaviours of the code are worth stating because they are easy to misread:

- `WriteHeader` overwrites the captured status on every call, so the last call wins
  (handlers/request_logger.go:24).
- `Write` adds the reported count to the length even when it also returns an error
  (handlers/request_logger.go:34).
- An empty JSONP callback is detected only after Content-Type and the status line are
  written (render/http_renderer.go:131-141). Only the body is missing.

## Model

| member | source | states |
|---|---|---|
| `Utf8.Encode` | render/http_renderer.go:116 | `[]byte(v)` is the UTF-8 encoding of `v`: between one and four bytes per character, and empty exactly when `v` is empty |
| `Utf8.EncodeChar` | render/http_renderer.go:116 | each character encodes to one to four bytes; an ASCII character is exactly one byte, its code point |
| `Utf8.DecodeEncodeChar` | render/http_renderer.go:116 | decoding the one to four bytes of a character gives back its scalar value, so converting one character loses nothing |
| `Utf8.EncodeCharInjective` | render/http_renderer.go:116 | distinct characters have distinct encodings |
| `Utf8.EncodeInjective` | render/http_renderer.go:116 | distinct strings have distinct encodings, so the bytes of `v` determine `v`: the first byte of each character fixes its length, and each character's bytes fix the character |
| `Utf8.EncodeAppend` | render/http_renderer.go:143 | converting `callback + "("` gives the bytes of `callback` followed by the byte of `(`: encoding distributes over concatenation |
| `Utf8.EncodeAscii` | render/http_renderer.go:145 | an ASCII literal such as `");"` converts to one byte per character, each equal to its code point |
| `ResponseWriter.TakeAppend` | render/http_renderer.go:143-145 | consecutive writes on a connection with limited capacity accept the same bytes as one write of their concatenation |
| `ResponseWriter.ReplayTrace` | handlers/request_logger.go:11-15 | the writer receives exactly the calls made through the wrapper, in order and unchanged |
| `ResponseWriter.ReplayBody` | handlers/request_logger.go:33 | the body the writer ends with is the prefix of all requested bytes that the connection accepted: no byte is altered, reordered or dropped before the cut |
| `RequestLogger.ColorForStatus` | handlers/request_logger.go:94-105 | [200,300) is green, [300,400) cyan, [400,500) yellow, and every other code (0, negatives, 1xx, 5xx and above) red; each direction of each bucket is stated, so the buckets are disjoint and cover all integers |
| `RequestLogger.ColorForMethod` | handlers/request_logger.go:107-126 | GET blue, POST cyan, PUT yellow, DELETE red, PATCH green, HEAD magenta, OPTIONS white, and any other string (including another spelling of a known method) the default colour; matching is exact |
| `RequestLogger.Skipped` | handlers/request_logger.go:40-44 | a path is skipped exactly when it is `/health` or `/status` |
| `RequestLogger.StatusWithoutSignal` | handlers/request_logger.go:29-32 | with no explicit status line, the captured status is 0 before any body write and 200 after one |
| `RequestLogger.LastSignalWins` | handlers/request_logger.go:23-32 | after the last `WriteHeader(code)`, the captured status is `code`; it becomes 200 only if `code` is 0 and a body write follows |
| `RequestLogger.NonzeroOnceWritten` | handlers/request_logger.go:29-32 | once a body write has happened, the captured status is nonzero unless a later `WriteHeader(0)` clears it |
| `RequestLogger.LengthIsBytesForwarded` | handlers/request_logger.go:33-34 | the captured length (the sum of the counts the inner writer reported) equals the number of body bytes the inner writer received |
| `RequestLogger.CapturedLengthIsAcceptedPayload` | handlers/request_logger.go:33-35 | the captured length is the size of the accepted prefix of all bytes written, so it counts bytes from writes that returned an error too |
| `RequestLogger.LengthMonotonic` | handlers/request_logger.go:34 | the captured length never decreases as calls are made |
| `RequestLogger.StatusWriter.constructor` | handlers/request_logger.go:51 | a fresh wrapper has status 0 and length 0 and has received no calls |
| `RequestLogger.StatusWriter.Status` | handlers/request_logger.go:17-20 | returns the status that all calls so far determine (0 on a fresh wrapper) |
| `RequestLogger.StatusWriter.SetHeader` | handlers/request_logger.go:11-15 | a header call is forwarded to the embedded writer unchanged, and status and length stay as they were |
| `RequestLogger.StatusWriter.WriteHeader` | handlers/request_logger.go:22-26 | the captured status becomes `code`, overwriting any earlier value; exactly `code` is forwarded; the length is unchanged |
| `RequestLogger.StatusWriter.Write` | handlers/request_logger.go:28-36 | a zero status becomes 200 and a nonzero one is kept; the bytes are forwarded unchanged; the inner writer's `(n, err)` is returned; the length grows by exactly `n`, with or without an error |
| `RequestLogger.Next` | handlers/request_logger.go:55 | the rest of the chain runs through the wrapper: the wrapper has received exactly the downstream calls and its invariant still holds |
| `RequestLogger.Handle` | handlers/request_logger.go:46-86 | the response writer receives exactly the downstream calls; a skipped path adds no log entry; any other path adds one entry, after the chain returns, carrying the method, the final captured status, the URI and both colours |
| `HttpRenderer.HTTPRenderer.constructor` | render/http_renderer.go:57-89 | with no callback, the options are the defaults: AppendCharset on and each content type its constant; with callbacks, only the first is applied, once, to the defaults; the AppendCharset hook runs exactly when the flag ends up true |
| `HttpRenderer.HTTPRenderer.Empty` | render/http_renderer.go:96-99 | same effect as NoContent: only status 204, no header, no body, no error |
| `HttpRenderer.HTTPRenderer.NoContent` | render/http_renderer.go:101-105 | writes status 204 and nothing else, and returns no error |
| `HttpRenderer.HTTPRenderer.String` | render/http_renderer.go:107-110 | same calls, state and error as Text |
| `HttpRenderer.HTTPRenderer.Text` | render/http_renderer.go:112-119 | writes the status line first, then sets Content-Type to `text/plain; charset=UTF-8`, then writes exactly the bytes of `v`; returns that write's error |
| `HttpRenderer.HTTPRenderer.WriteEncoded` | render/http_renderer.go:126 | the base renderer's serialize-and-write step: a serialization error is returned with nothing written; otherwise the bytes are written once and that write's error is returned |
| `HttpRenderer.HTTPRenderer.JSON` | render/http_renderer.go:121-127 | sets Content-Type to the configured JSON type, then writes the status line, then the serialized value; a serialization error is returned after the status line, with an empty body |
| `HttpRenderer.HTTPRenderer.JSONP` | render/http_renderer.go:129-148 | Content-Type and status line always come first; a serialization error is returned before the callback check, with no body; an empty callback returns an error with no body; otherwise the body is `callback + "(" + json + ");"` and the error is the middle write's only |
| `HttpRenderer.HTTPRenderer.WriteJsonpBody` | render/http_renderer.go:143-147 | three writes in order put the accepted prefix of `callback(json);` into the body; only the middle write's error is returned |
| `HttpRenderer.HTTPRenderer.XML` | render/http_renderer.go:150-156 | sets Content-Type to the configured XML type, then writes the status line, then the serialized value; a serialization error is returned after the status line, with an empty body |
| `HttpRenderer.HTTPRenderer.Binary` | render/http_renderer.go:158-180 | a read failure returns the error and leaves the writer completely untouched; otherwise sets Content-Type, then Content-Disposition `inline; filename=…` or `attachment; filename=…`, then the status line, then writes every byte read |
| `Pipeline.NoContentIsLogged` | render/http_renderer.go:102-104 | a handler answering with NoContent is logged as 204, in green |
| `Pipeline.TextIsLogged` | render/http_renderer.go:113-116 | a Text response is logged with its status, or 200 when that status is 0, since the body write follows the status line |
| `Pipeline.MarshalledIsLogged` | render/http_renderer.go:122-126 | a JSON or XML response is logged with its status; only a successful serialization can turn status 0 into 200 |
| `Pipeline.JsonpIsLogged` | render/http_renderer.go:130-147 | a JSONP response is logged with its status; a serialization error or an empty callback leaves no body write that could turn 0 into 200 |
| `Pipeline.BinaryIsLogged` | render/http_renderer.go:163-179 | a Binary response with an unreadable input is logged as status 0, in red; a readable one with its status (200 for 0) |
| `Pipeline.JsonpPayload` | render/http_renderer.go:143-145 | the bytes a successful JSONP response asks to write are exactly `callback + "("`, then the JSON, then `");"`; spelled out, the callback's bytes, `0x28`, the JSON, then `0x29 0x3B` |
| `Pipeline.JsonpDelimiters` | render/http_renderer.go:143-145 | `[]byte(callback + "(")` is the callback's bytes followed by `0x28`, and `[]byte(");")` is `0x29 0x3B` |
| `Pipeline.JsonpLength` | render/http_renderer.go:143-145 | the length the logger captures for a successful JSONP response is the accepted part of `callback(json);` |

## Left out

- Go's HTTP server, `sux.Context` and the handler chain: `c.Next()` is modelled as the sequence of writer calls that the rest of the chain makes. `c.URL().Path`, `c.Req.Method`, `c.Req.RequestURI` and `c.ClientIP()` are fields of a request value.
- Replacing `c.Resp` with the wrapper (handlers/request_logger.go:52): the renderer methods take a `RecordingWriter` and never run through the wrapper. `Handle` replays a fixed sequence of calls through the wrapper instead. `Pipeline` links the two through the plan functions `TextCalls`, `MarshalledCalls`, `JsonpCalls`, `BinaryCalls` and `NoContentCalls`, which each renderer method's contract names as the calls it makes.
- The clock and `calcElapsedTime` (handlers/request_logger.go:48, 90-92): the start time and the elapsed-time text are opaque inputs to the log entry.
- The layout of the log line, `start.Format` and `fmt.Printf` (handlers/request_logger.go:74-85): standard output is a sequence of structured log entries.
- The terminal rendering of colours (`Render` in the gookit/color library): colours are an enumeration.
- The serializers: the base renderer's `JSON` and `XML` and the package's `jsonMarshal` are not part of this model. They are functions from a value to bytes or an error, supplied at construction. `HttpRenderer.HTTPRenderer.WriteEncoded` assumes the base `JSON`/`XML` serialize first and then write the bytes once.
- The base `New()` renderer, its `Options`, and the package constant `defaultCharset` are not part of this model. The charset is a constructor parameter.
- The `initialized` field of the renderer: it is never set in the modelled code.
- `AppendCharset` is an empty function. The model records only that it was called.
- `ioutil.ReadAll`: the reader is its result, all bytes or an error. Any bytes read before an error are dropped, as the code does.
- Go strings that hold invalid UTF-8: strings are sequences of Unicode scalar values, and `[]byte(s)` is their UTF-8 encoding.
- Header canonicalisation and multi-valued headers: a header map holds one value per key, and `Set` replaces it.
- `RequestLogger.StatusWriter.Write`: Go's `int` is unbounded in the model, so `length` cannot overflow.
- Concurrency: each request has its own writer and wrapper, and nothing here is shared mutably.
