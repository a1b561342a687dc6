/**
 * The two components together: a handler behind the request logger that
 * answers with one renderer method. The renderer's calls reach the status
 * writer, so what the log line shows is determined by what the renderer
 * did.
 */
module Pipeline {
  import opened Wrappers
  import opened Utf8
  import opened ResponseWriter
  import opened RequestLogger
  import opened HttpRenderer

  /** A NoContent response is logged as 204, in the success colour. */
  lemma NoContentIsLogged()
    ensures CapturedStatus(NoContentCalls()) == StatusNoContent
    ensures ColorForStatus(CapturedStatus(NoContentCalls())) == FgGreen
  {
  }

  /** A Text response is logged with its status, or 200 for status 0,
      because its body write comes after the status line. */
  lemma TextIsLogged(status: int, v: string)
    ensures CapturedStatus(TextCalls(status, v)) == if status == 0 then 200 else status
  {
    var after := [HeaderSet(ContentType, TextPlainUtf8), BodyWritten(Encode(v))];
    LastSignalWins([], status, after);
    assert after[1].BodyWritten?;
    assert [] + [StatusWritten(status)] + after == TextCalls(status, v);
  }

  /** A JSON or XML response is logged with its status; only a successful
      serialization writes a body that can turn status 0 into 200. */
  lemma MarshalledIsLogged(contentType: string, status: int, encoded: Result<Bytes, Error>)
    ensures CapturedStatus(MarshalledCalls(contentType, status, encoded)) ==
      if status == 0 && encoded.Success? then 200 else status
  {
  }

  /** A JSONP response is logged with its status; a serialization error or
      an empty callback leaves no body write behind. */
  lemma JsonpIsLogged(contentType: string, status: int, callback: string, encoded: Result<Bytes, Error>)
    ensures CapturedStatus(JsonpCalls(contentType, status, callback, encoded)) ==
      if status == 0 && encoded.Success? && callback != "" then 200 else status
  {
    var before := [HeaderSet(ContentType, contentType)];
    var after := if encoded.Success? && callback != "" then JsonpBody(callback, encoded.value) else [];
    LastSignalWins(before, status, after);
    if encoded.Success? && callback != "" {
      assert after[0].BodyWritten?;
    }
    assert before + [StatusWritten(status)] + after == JsonpCalls(contentType, status, callback, encoded);
  }

  /** A Binary response whose input cannot be read is logged with status 0,
      in red; a readable one with its status, or 200 for status 0. */
  lemma BinaryIsLogged(contentType: string, status: int, input: Reader, outName: string, inline: bool)
    ensures CapturedStatus(BinaryCalls(contentType, status, input, outName, inline)) ==
      if input.Unreadable? then 0 else if status == 0 then 200 else status
    ensures input.Unreadable? ==>
      ColorForStatus(CapturedStatus(BinaryCalls(contentType, status, input, outName, inline))) == FgRed
  {
  }

  /** A header, a status line and three body writes ask to write the three bodies. */
  lemma PayloadOfThreeWrites(key: string, value: string, status: int, a: Bytes, b: Bytes, c: Bytes)
    ensures Payload([HeaderSet(key, value), StatusWritten(status), BodyWritten(a), BodyWritten(b), BodyWritten(c)])
      == a + b + c
  {
    var calls := [HeaderSet(key, value), StatusWritten(status), BodyWritten(a), BodyWritten(b), BodyWritten(c)];
    PayloadCons(calls[0], calls[1..]);
    PayloadCons(calls[1], calls[2..]);
    PayloadCons(calls[2], calls[3..]);
    PayloadCons(calls[3], calls[4..]);
    PayloadCons(calls[4], []);
    assert [calls[0]] + calls[1..] == calls;
    assert [calls[1]] + calls[2..] == calls[1..];
    assert [calls[2]] + calls[3..] == calls[2..];
    assert [calls[3]] + calls[4..] == calls[3..];
    assert [calls[4]] + [] == calls[4..];
    assert Payload(calls[4..]) == c;
    assert Payload(calls[3..]) == b + c;
    assert Payload(calls[2..]) == a + b + c;
  }

  /** The bytes a successful JSONP response asks to write are `callback(json);`:
      the callback's encoding, the byte of `(`, the JSON, then the bytes of `);`. */
  lemma JsonpPayload(contentType: string, status: int, callback: string, json: Bytes)
    requires callback != ""
    ensures Payload(JsonpCalls(contentType, status, callback, Success(json))) ==
      Encode(callback + "(") + json + Encode(");")
    ensures Payload(JsonpCalls(contentType, status, callback, Success(json))) ==
      Encode(callback) + [0x28] + json + [0x29, 0x3B]
  {
    var open, close := Encode(callback + "("), Encode(");");
    assert JsonpCalls(contentType, status, callback, Success(json)) ==
      [HeaderSet(ContentType, contentType), StatusWritten(status), BodyWritten(open), BodyWritten(json), BodyWritten(close)];
    PayloadOfThreeWrites(ContentType, contentType, status, open, json, close);
    JsonpDelimiters(callback);
  }

  /** The bytes around the JSON in a JSONP body. */
  lemma JsonpDelimiters(callback: string)
    ensures Encode(callback + "(") == Encode(callback) + [0x28]
    ensures Encode(");") == [0x29, 0x3B]
  {
    EncodeAppend(callback, "(");
    EncodeAscii("(");
    EncodeAscii(");");
  }

  /** The length captured for a successful JSONP response is the part of
      `callback(json);` the connection accepted. */
  lemma JsonpLength(r: Recording, contentType: string, status: int, callback: string, json: Bytes)
    requires callback != ""
    ensures CapturedLength(r, JsonpCalls(contentType, status, callback, Success(json))) ==
      |Take(Encode(callback + "(") + json + Encode(");"), r.capacity)|
  {
    CapturedLengthIsAcceptedPayload(r, JsonpCalls(contentType, status, callback, Success(json)));
    JsonpPayload(contentType, status, callback, json);
  }
}
