/** The HTTP boundary of the service: the response a handler produces, the `res` object
    that accumulates headers and is written once, `sendJSON` / `sendError`, and `getBody`. */
module Http {
  import opened Wrappers
  import opened Utf8
  import Json
  import Decimal

  /** What `res.end(...)` is given: nothing, a serialised JSON value, plain text, or file bytes. */
  datatype Body = Empty | JsonBody(value: Json.Value) | TextBody(text: string) | FileBody(data: seq<byte>)

  /** A response as `res.writeHead(status, headers)` followed by `res.end(body)` writes it. */
  datatype Response = Response(status: nat, headers: map<string, string>, body: Body)

  /** The bytes that go on the wire for a body. */
  function Wire(b: Body): (r: seq<byte>)
    ensures r == [] <==> b.Empty? || (b.TextBody? && b.text == []) || (b.FileBody? && b.data == [])
  {
    match b
    case Empty => []
    case JsonBody(v) => Encode(Json.Stringify(v))
    case TextBody(t) => Encode(t)
    case FileBody(d) => d
  }

  /** `sendJSON(res, status, data)`: the given status, the value as body, and exactly
      the two headers `Content-Type: application/json` and `Content-Length`. */
  function SendJSON(status: nat, data: Json.Value): (r: Response)
    ensures r.status == status && r.body == JsonBody(data)
    ensures r.headers.Keys == {"Content-Type", "Content-Length"}
    ensures r.headers["Content-Type"] == "application/json"
  {
    var body := Json.Stringify(data);
    Response(status, map["Content-Type" := "application/json", "Content-Length" := Decimal.Show(ByteLength(body))],
             JsonBody(data))
  }

  /** The Content-Length `sendJSON` declares is a decimal numeral whose value is the
      number of bytes actually written. */
  lemma ContentLengthIsExact(status: nat, data: Json.Value)
    ensures var r := SendJSON(status, data);
      Decimal.Canonical(r.headers["Content-Length"]) && Decimal.Parse(r.headers["Content-Length"]) == |Wire(r.body)|
  {
    var body := Json.Stringify(data);
    EncodeLength(body);
    Decimal.ParseShow(ByteLength(body));
  }

  /** The JSON error envelope `{error: message}`. */
  function ErrorEnvelope(message: string): Json.Value {
    Json.Obj([Json.Member("error", Json.Str(message))])
  }

  /** `sendError(res, status, message)`: a JSON response of the given status whose body is
      the error envelope. */
  function SendError(status: nat, message: string): (r: Response)
    ensures r.status == status && r.body == JsonBody(ErrorEnvelope(message))
    ensures r.headers.Keys == {"Content-Type", "Content-Length"}
    ensures r.headers["Content-Type"] == "application/json"
  {
    SendJSON(status, ErrorEnvelope(message))
  }

  /** The bytes `sendError` writes are `{"error":` and the quoted message, in braces, and
      its Content-Length counts them. */
  lemma ErrorBodyText(status: nat, message: string)
    ensures var r := SendError(status, message);
      && Wire(r.body) == Encode("{\"error\":" + Json.Quote(message) + "}")
      && Decimal.Parse(r.headers["Content-Length"]) == |Wire(r.body)|
  {
    Json.ErrorEnvelopeText(message);
    ContentLengthIsExact(status, ErrorEnvelope(message));
  }

  /** `res.writeHead(204); res.end()`. */
  const NoContent := Response(204, map[], Empty)

  /** A request body stream after it finished: the chunks in arrival order (each already
      turned into text), or a stream error. */
  datatype BodyRead = Chunks(chunks: seq<string>) | StreamError

  datatype BodyError = InvalidJson | StreamFailed

  /** The raw text: the chunks appended in arrival order. */
  function Concat(chunks: seq<string>): string {
    if chunks == [] then "" else Concat(chunks[..|chunks| - 1]) + chunks[|chunks| - 1]
  }

  /** Splitting the chunks anywhere does not change the raw text. */
  lemma {:induction false} ConcatAppend(a: seq<string>, b: seq<string>)
    ensures Concat(a + b) == Concat(a) + Concat(b)
  {
    if b != [] {
      assert (a + b)[..|a + b| - 1] == a + b[..|b| - 1];
      ConcatAppend(a, b[..|b| - 1]);
    } else {
      assert a + b == a;
    }
  }

  /** The raw text is empty exactly when every chunk is (in particular when none arrived). */
  lemma {:induction false} ConcatEmptyIff(chunks: seq<string>)
    ensures Concat(chunks) == "" <==> forall i :: 0 <= i < |chunks| ==> chunks[i] == ""
  {
    if chunks != [] {
      ConcatEmptyIff(chunks[..|chunks| - 1]);
      assert forall i :: 0 <= i < |chunks| - 1 ==> chunks[..|chunks| - 1][i] == chunks[i];
    }
  }

  /** The outcome `getBody` settles with. An empty raw text resolves to `{}`; otherwise
      the text is handed to `parse` (`JSON.parse`), and a text it rejects gives
      `Invalid JSON`; a stream error rejects. */
  function GetBody(read: BodyRead, parse: string -> Option<Json.Value>): (r: Result<Json.Value, BodyError>)
    ensures read.StreamError? ==> r == Err(StreamFailed)
    ensures read.Chunks? && (forall i :: 0 <= i < |read.chunks| ==> read.chunks[i] == "") ==> r == Ok(Json.Obj([]))
    ensures read.Chunks? && Concat(read.chunks) != "" ==>
              (r.Ok? <==> parse(Concat(read.chunks)).Some?)
              && (r.Ok? ==> r.value == parse(Concat(read.chunks)).value)
              && (r.Err? ==> r.error == InvalidJson)
  {
    match read
    case StreamError => Err(StreamFailed)
    case Chunks(chunks) =>
      ConcatEmptyIff(chunks);
      var raw := Concat(chunks);
      if raw == "" then Ok(Json.Obj([]))
      else match parse(raw)
        case Some(v) => Ok(v)
        case None => Err(InvalidJson)
  }

  /** A body that arrives as one non-empty chunk is exactly what `parse` makes of it. */
  lemma GetBodyOneChunk(raw: string, parse: string -> Option<Json.Value>)
    requires raw != ""
    ensures GetBody(Chunks([raw]), parse) == if parse(raw).Some? then Ok(parse(raw).value) else Err(InvalidJson)
  {
    assert Concat([raw]) == raw by {
      assert [raw][..0] == [];
    }
  }

  /** `getBody(req)`: accumulates `raw` chunk by chunk, then decides. */
  method ReadBody(read: BodyRead, parse: string -> Option<Json.Value>) returns (r: Result<Json.Value, BodyError>)
    ensures r == GetBody(read, parse)
  {
    match read
    case StreamError =>
      r := Err(StreamFailed);
    case Chunks(chunks) =>
      var raw := "";
      var i := 0;
      while i < |chunks|
        invariant 0 <= i <= |chunks|
        invariant raw == Concat(chunks[..i])
      {
        assert chunks[..i + 1][..i] == chunks[..i];
        raw := raw + chunks[i];
        i := i + 1;
      }
      assert chunks[..i] == chunks;
      if raw == "" {
        r := Ok(Json.Obj([]));
      } else {
        var parsed := parse(raw);
        if parsed.Some? {
          r := Ok(parsed.value);
        } else {
          r := Err(InvalidJson);
        }
      }
  }

  /** Node's `ServerResponse`: headers accumulate through `setHeader` until the single
      `writeHead` + `end`, which merges them with the headers given to `writeHead`
      (those win on a clash) and sends the response. */
  class ServerResponse {
    var headers: map<string, string>
    var sent: Option<Response>

    constructor ()
      ensures headers == map[] && sent == None
    {
      headers := map[];
      sent := None;
    }

    /** `res.setHeader(name, value)`. */
    method SetHeader(name: string, value: string)
      modifies this
      ensures headers == old(headers)[name := value] && sent == old(sent)
    {
      headers := headers[name := value];
    }

    /** `res.writeHead(r.status, r.headers); res.end(r.body)`; the response goes out once. */
    method Send(r: Response)
      requires sent == None
      modifies this
      ensures sent == Some(Response(r.status, old(headers) + r.headers, r.body))
      ensures headers == old(headers)
    {
      sent := Some(Response(r.status, headers + r.headers, r.body));
    }
  }
}
