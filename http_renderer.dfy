/**
 * The HTTP renderer: one method per content type, each a fixed sequence of
 * calls on the response writer (set headers, write the status line, write
 * the body). Every method is specified by the exact calls it makes, the
 * headers, status and body it leaves behind and the error it returns.
 */
module HttpRenderer {
  import opened Wrappers
  import opened Utf8
  import opened ResponseWriter

  const ContentType := "Content-Type"
  const ContentText := "text/plain"
  const ContentJSON := "application/json"
  const ContentJSONP := "application/javascript"
  const ContentXML := "application/xml"
  const ContentYAML := "application/x-yaml"
  const ContentHTML := "text/html"
  const ContentBinary := "application/octet-stream"
  const ContentDisposition := "Content-Disposition"
  const DispositionInline := "inline"
  const DispositionAttachment := "attachment"

  /** The Content-Type that Text always sets, whatever the options say. */
  const TextPlainUtf8 := "text/plain; charset=UTF-8"

  /** http.StatusNoContent */
  const StatusNoContent := 204

  /** The error JSONP returns for an empty callback name. */
  const EmptyCallbackError := Failed("renderer: callback can not bet empty")

  /** The renderer's configuration. */
  datatype HttpOptions = HttpOptions(
    contentBinary: string,
    contentHTML: string,
    contentXML: string,
    contentText: string,
    contentJSON: string,
    contentJSONP: string,
    defaultCharset: string,
    appendCharset: bool)

  /** The options before any configuration callback runs. */
  function DefaultOptions(defaultCharset: string): HttpOptions
  {
    HttpOptions(ContentBinary, ContentHTML, ContentXML, ContentText, ContentJSON, ContentJSONP,
                defaultCharset, true)
  }

  /** A serializer: the bytes of a value, or the error that stopped it. */
  type Marshaller<-V> = V -> Result<Bytes, Error>

  /** An `io.Reader` as what reading it to the end gives: all its bytes or an error. */
  datatype Reader = Readable(data: Bytes) | Unreadable(error: Error)

  // ---------------------------------------------------------------------
  // The calls each method makes on the writer, in order

  function NoContentCalls(): seq<Event>
  {
    [StatusWritten(StatusNoContent)]
  }

  /** Text writes the status line before it sets the Content-Type. */
  function TextCalls(status: int, v: string): seq<Event>
  {
    [StatusWritten(status), HeaderSet(ContentType, TextPlainUtf8), BodyWritten(Encode(v))]
  }

  /** JSON and XML: the header, the status line, then the serialized bytes
      if serialization succeeded. */
  function MarshalledCalls(contentType: string, status: int, encoded: Result<Bytes, Error>): seq<Event>
  {
    [HeaderSet(ContentType, contentType), StatusWritten(status)]
      + (if encoded.Success? then [BodyWritten(encoded.value)] else [])
  }

  /** The three body writes of a JSONP response. */
  function JsonpBody(callback: string, json: Bytes): seq<Event>
  {
    [BodyWritten(Encode(callback + "(")), BodyWritten(json), BodyWritten(Encode(");"))]
  }

  function JsonpCalls(contentType: string, status: int, callback: string,
                      encoded: Result<Bytes, Error>): seq<Event>
  {
    [HeaderSet(ContentType, contentType), StatusWritten(status)]
      + (if encoded.Success? && callback != "" then JsonpBody(callback, encoded.value) else [])
  }

  /** The Content-Disposition value of a binary response. */
  function Disposition(inline: bool, outName: string): string
  {
    (if inline then DispositionInline else DispositionAttachment) + "; filename=" + outName
  }

  /** Binary makes no call at all when the input cannot be read. */
  function BinaryCalls(contentType: string, status: int, input: Reader,
                       outName: string, inline: bool): seq<Event>
  {
    if input.Unreadable? then []
    else [HeaderSet(ContentType, contentType), HeaderSet(ContentDisposition, Disposition(inline, outName)),
          StatusWritten(status), BodyWritten(input.data)]
  }

  /** The middle of three writes fails exactly when the first two do not
      both fit and the middle one is not empty. */
  lemma MiddleWriteError(open: Bytes, json: Bytes, capacity: nat)
    ensures WriteError(capacity - Accepted(capacity, open), json) ==
      if |open| + |json| <= capacity || json == [] then None else Some(ShortWrite)
  {
  }

  // ---------------------------------------------------------------------
  // The renderer

  class HTTPRenderer<V> {
    /** The base renderer's JSON and XML serializers. */
    const marshalJSON: Marshaller<V>
    const marshalXML: Marshaller<V>
    /** jsonMarshal(v, false, false): compact JSON, used by JSONP. */
    const jsonMarshal: Marshaller<V>

    var opts: HttpOptions
    /** Whether the AppendCharset hook (a no-op) was called. */
    ghost var appendCharsetCalled: bool

    /** NewHTTPRenderer(config...): the default options, then the first
        configuration callback, if any, applied once to them. */
    constructor (marshalJSON: Marshaller<V>, marshalXML: Marshaller<V>, jsonMarshal: Marshaller<V>,
                 defaultCharset: string, config: seq<HttpOptions -> HttpOptions>)
      ensures this.marshalJSON == marshalJSON && this.marshalXML == marshalXML
      ensures this.jsonMarshal == jsonMarshal
      ensures opts == if |config| > 0 then config[0](DefaultOptions(defaultCharset))
                      else DefaultOptions(defaultCharset)
      ensures |config| == 0 ==>
        && opts.appendCharset && opts.defaultCharset == defaultCharset
        && opts.contentBinary == ContentBinary && opts.contentHTML == ContentHTML
        && opts.contentXML == ContentXML && opts.contentText == ContentText
        && opts.contentJSON == ContentJSON && opts.contentJSONP == ContentJSONP
      ensures appendCharsetCalled == opts.appendCharset
    {
      this.marshalJSON := marshalJSON;
      this.marshalXML := marshalXML;
      this.jsonMarshal := jsonMarshal;
      opts := DefaultOptions(defaultCharset);
      appendCharsetCalled := false;
      new;
      if |config| > 0 {
        opts := config[0](opts);
      }
      if opts.appendCharset {
        appendCharsetCalled := true;
      }
    }

    /** Empty: the same response as NoContent. */
    method Empty(w: RecordingWriter) returns (err: Option<Error>)
      modifies w
      ensures w.trace == old(w.trace) + NoContentCalls()
      ensures w.code == Some(StatusNoContent)
      ensures w.headers == old(w.headers) && w.body == old(w.body) && w.capacity == old(w.capacity)
      ensures err == None
    {
      err := NoContent(w);
    }

    /** NoContent: status 204, no header, no body, no error. */
    method NoContent(w: RecordingWriter) returns (err: Option<Error>)
      modifies w
      ensures w.trace == old(w.trace) + NoContentCalls()
      ensures w.code == Some(StatusNoContent)
      ensures w.headers == old(w.headers) && w.body == old(w.body) && w.capacity == old(w.capacity)
      ensures err == None
    {
      w.WriteHeader(StatusNoContent);
      err := None;
    }

    /** String: the same response as Text. */
    method String(w: RecordingWriter, status: int, v: string) returns (err: Option<Error>)
      modifies w
      ensures w.trace == old(w.trace) + TextCalls(status, v)
      ensures w.code == Some(status)
      ensures w.headers == old(w.headers)[ContentType := TextPlainUtf8]
      ensures w.body == old(w.body) + Take(Encode(v), old(w.capacity))
      ensures w.capacity == old(w.capacity) - |Take(Encode(v), old(w.capacity))|
      ensures err == WriteError(old(w.capacity), Encode(v))
    {
      err := Text(w, status, v);
    }

    /** Text: the status line, then Content-Type text/plain in UTF-8, then
        the bytes of `v`; returns the error of that write. */
    method Text(w: RecordingWriter, status: int, v: string) returns (err: Option<Error>)
      modifies w
      ensures w.trace == old(w.trace) + TextCalls(status, v)
      ensures w.code == Some(status)
      ensures w.headers == old(w.headers)[ContentType := TextPlainUtf8]
      ensures w.body == old(w.body) + Take(Encode(v), old(w.capacity))
      ensures w.capacity == old(w.capacity) - |Take(Encode(v), old(w.capacity))|
      ensures err == WriteError(old(w.capacity), Encode(v))
    {
      w.WriteHeader(status);
      w.SetHeader(ContentType, TextPlainUtf8);
      var _, e := w.Write(Encode(v));
      err := e;
    }

    /** The base renderer's JSON(w, v) and XML(w, v) once `v` is serialized:
        a serialization error is returned before anything is written,
        otherwise the bytes are written once and that write's error returned. */
    static method WriteEncoded(w: RecordingWriter, encoded: Result<Bytes, Error>) returns (err: Option<Error>)
      modifies w
      ensures w.trace == old(w.trace) + (if encoded.Success? then [BodyWritten(encoded.value)] else [])
      ensures w.headers == old(w.headers) && w.code == old(w.code)
      ensures encoded.Failure? ==>
        err == Some(encoded.error) && w.body == old(w.body) && w.capacity == old(w.capacity)
      ensures encoded.Success? ==>
        && w.body == old(w.body) + Take(encoded.value, old(w.capacity))
        && w.capacity == old(w.capacity) - |Take(encoded.value, old(w.capacity))|
        && err == WriteError(old(w.capacity), encoded.value)
    {
      match encoded
      case Failure(e) =>
        err := Some(e);
      case Success(bs) =>
        var _, e := w.Write(bs);
        err := e;
    }

    /** JSON: Content-Type from the options, then the status line, then the
        serialized value; a serialization error comes after the status line. */
    method JSON(w: RecordingWriter, status: int, v: V) returns (err: Option<Error>)
      modifies w
      ensures w.trace == old(w.trace) + MarshalledCalls(opts.contentJSON, status, marshalJSON(v))
      ensures w.code == Some(status)
      ensures w.headers == old(w.headers)[ContentType := opts.contentJSON]
      ensures marshalJSON(v).Failure? ==>
        err == Some(marshalJSON(v).error) && w.body == old(w.body) && w.capacity == old(w.capacity)
      ensures marshalJSON(v).Success? ==>
        && w.body == old(w.body) + Take(marshalJSON(v).value, old(w.capacity))
        && w.capacity == old(w.capacity) - |Take(marshalJSON(v).value, old(w.capacity))|
        && err == WriteError(old(w.capacity), marshalJSON(v).value)
    {
      w.SetHeader(ContentType, opts.contentJSON);
      w.WriteHeader(status);
      err := WriteEncoded(w, marshalJSON(v));
    }

    /** JSONP: Content-Type and the status line always; then nothing more
        on a serialization error or an empty callback; otherwise the body
        `callback(json);` in three writes, returning the middle write's error. */
    method JSONP(w: RecordingWriter, status: int, callback: string, v: V) returns (err: Option<Error>)
      modifies w
      ensures w.trace == old(w.trace) + JsonpCalls(opts.contentJSONP, status, callback, jsonMarshal(v))
      ensures w.code == Some(status)
      ensures w.headers == old(w.headers)[ContentType := opts.contentJSONP]
      ensures jsonMarshal(v).Failure? ==>
        err == Some(jsonMarshal(v).error) && w.body == old(w.body) && w.capacity == old(w.capacity)
      ensures jsonMarshal(v).Success? && callback == "" ==>
        err == Some(EmptyCallbackError) && w.body == old(w.body) && w.capacity == old(w.capacity)
      ensures jsonMarshal(v).Success? && callback != "" ==>
        var open, json := Encode(callback + "("), jsonMarshal(v).value;
        var payload := open + json + Encode(");");
        && w.body == old(w.body) + Take(payload, old(w.capacity))
        && w.capacity == old(w.capacity) - |Take(payload, old(w.capacity))|
        && err == (if |open| + |json| <= old(w.capacity) || json == [] then None else Some(ShortWrite))
        && (|payload| <= old(w.capacity) ==> w.body == old(w.body) + payload && err == None)
    {
      w.SetHeader(ContentType, opts.contentJSONP);
      w.WriteHeader(status);
      var encoded := jsonMarshal(v);
      if encoded.Failure? {
        return Some(encoded.error);
      }
      if callback == "" {
        return Some(EmptyCallbackError);
      }
      err := WriteJsonpBody(w, callback, encoded.value);
      MiddleWriteError(Encode(callback + "("), encoded.value, old(w.capacity));
    }

    /** The three writes of a JSONP body; only the middle write's error is kept. */
    static method WriteJsonpBody(w: RecordingWriter, callback: string, json: Bytes) returns (err: Option<Error>)
      modifies w
      ensures w.trace == old(w.trace) + JsonpBody(callback, json)
      ensures w.headers == old(w.headers) && w.code == old(w.code)
      ensures var payload := Encode(callback + "(") + json + Encode(");");
        && w.body == old(w.body) + Take(payload, old(w.capacity))
        && w.capacity == old(w.capacity) - |Take(payload, old(w.capacity))|
      ensures err == WriteError(old(w.capacity) - Accepted(old(w.capacity), Encode(callback + "(")), json)
    {
      var open, close := Encode(callback + "("), Encode(");");
      ghost var body0, cap0 := w.body, w.capacity;
      var _, _ := w.Write(open);
      assert w.body == body0 + Take(open, cap0);
      var _, e := w.Write(json);
      TakeAppend(open, json, cap0);
      assert w.body == body0 + Take(open + json, cap0);
      var _, _ := w.Write(close);
      TakeAppend(open + json, close, cap0);
      err := e;
    }

    /** XML: Content-Type from the options, then the status line, then the
        serialized value; a serialization error comes after the status line. */
    method XML(w: RecordingWriter, status: int, v: V) returns (err: Option<Error>)
      modifies w
      ensures w.trace == old(w.trace) + MarshalledCalls(opts.contentXML, status, marshalXML(v))
      ensures w.code == Some(status)
      ensures w.headers == old(w.headers)[ContentType := opts.contentXML]
      ensures marshalXML(v).Failure? ==>
        err == Some(marshalXML(v).error) && w.body == old(w.body) && w.capacity == old(w.capacity)
      ensures marshalXML(v).Success? ==>
        && w.body == old(w.body) + Take(marshalXML(v).value, old(w.capacity))
        && w.capacity == old(w.capacity) - |Take(marshalXML(v).value, old(w.capacity))|
        && err == WriteError(old(w.capacity), marshalXML(v).value)
    {
      w.SetHeader(ContentType, opts.contentXML);
      w.WriteHeader(status);
      err := WriteEncoded(w, marshalXML(v));
    }

    /** Binary: read the input first; on a read error return it with the
        writer untouched. Otherwise set Content-Type and Content-Disposition,
        then the status line, then write all the bytes read. */
    method Binary(w: RecordingWriter, status: int, input: Reader, outName: string, inline: bool)
      returns (err: Option<Error>)
      modifies w
      ensures w.trace == old(w.trace) + BinaryCalls(opts.contentBinary, status, input, outName, inline)
      ensures input.Unreadable? ==> err == Some(input.error) && w.State() == old(w.State())
      ensures input.Readable? ==>
        && w.code == Some(status)
        && w.headers == old(w.headers)[ContentType := opts.contentBinary]
                                      [ContentDisposition := Disposition(inline, outName)]
        && w.body == old(w.body) + Take(input.data, old(w.capacity))
        && w.capacity == old(w.capacity) - |Take(input.data, old(w.capacity))|
        && err == WriteError(old(w.capacity), input.data)
    {
      if input.Unreadable? {
        return Some(input.error);
      }
      var bs := input.data;
      var dispositionType := DispositionAttachment;
      if inline {
        dispositionType := DispositionInline;
      }
      w.SetHeader(ContentType, opts.contentBinary);
      w.SetHeader(ContentDisposition, dispositionType + "; filename=" + outName);
      w.WriteHeader(status);
      var _, e := w.Write(bs);
      err := e;
    }
  }
}
