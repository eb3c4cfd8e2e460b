/**
 * The framework types the application code is written against: the incoming
 * request, the bearer token it may carry, the message records, the functional
 * ServerResponse value and the servlet response object that filters and error
 * handlers update in place.
 */
module Web {
  import opened Wrappers

  /** Claims of a decoded JWT that the application's validators look at. */
  datatype Jwt = Jwt(
    issuer: Option<string>,     // the "iss" claim, absent when the token has none
    audience: Option<seq<string>>, // the "aud" claim as a list, None when the token has none
    timestampsValid: bool       // what the library's clock-based checks conclude
  )

  /**
   * A bearer token as received. Parsing and signature verification are library
   * code; the model keeps only their verdicts: whether the token parses, and the
   * issuer whose published signing keys verify its signature (None when no
   * issuer's keys do).
   */
  datatype BearerToken = BearerToken(wellFormed: bool, signingIssuer: Option<string>, claims: Jwt)

  /**
   * An HTTP request: method name, path (servlet path plus path info), the raw
   * query string if any, and the bearer token of its Authorization header if any.
   */
  datatype Request = Request(httpMethod: string, path: string, query: Option<string>, bearer: Option<BearerToken>)

  /** The message record handed back by the message endpoints. */
  datatype Message = Message(text: string)

  /** The error payload; its text may be null, as a throwable's message may be. */
  datatype ErrorMessage = ErrorMessage(text: Option<string>)

  /**
   * A response body; JSON serialisation of the record is not modelled.
   * `ErrorPage` is what the servlet container's error dispatch renders for a
   * status sent as an error or for an exception nothing caught; the framework's
   * default error attributes it holds (timestamp, path, ...) are not modelled.
   */
  datatype Body = MessageBody(message: Message) | ErrorBody(error: ErrorMessage) | ErrorPage(code: int)

  /** A throwable, reduced to its (nullable) message. */
  datatype Throwable = Throwable(message: Option<string>)

  /** The immutable response value produced by functional route handlers. */
  datatype ServerResponse = ServerResponse(status: int, body: Body)

  /** One call made on a servlet response, in the order it was made. */
  datatype ResponseOp =
    | HeaderSet(name: string, value: string)
    | StatusSet(code: int)
    | ContentTypeSet(contentType: string)
    | BodyWritten(body: Body)
    | BufferFlushed

  /** Decimal digits of a natural number, most significant first. */
  function Decimal(n: nat): (r: string)
    ensures |r| > 0
    decreases n
  {
    if n < 10 then [('0' as int + n) as char] else Decimal(n / 10) + [('0' as int + n % 10) as char]
  }

  /** The text a header gets when it is set from an integer. */
  function IntHeaderValue(i: int): (r: string)
    ensures |r| > 0
  {
    if i < 0 then "-" + Decimal(-i) else Decimal(i)
  }

  /**
   * A servlet response. `isHttp` tells whether it is an HTTP response (the only
   * kind that has status, headers and a content type); the HTTP-only methods
   * require it, as their Java receiver type does. Header names map to the list
   * of their values, so that setting and appending can be told apart; `ops`
   * records every call in order.
   */
  class ServletResponse {
    const isHttp: bool
    var status: int
    var contentType: Option<string>
    var headers: map<string, seq<string>>
    var written: seq<Body>
    var flushed: bool
    var ops: seq<ResponseOp>

    constructor (isHttp: bool)
      ensures this.isHttp == isHttp
      ensures status == 200 && contentType == None && headers == map[]
      ensures written == [] && !flushed && ops == []
    {
      this.isHttp := isHttp;
      status := 200;
      contentType := None;
      headers := map[];
      written := [];
      flushed := false;
      ops := [];
    }

    /** Replaces every value of header `name` by `value`. */
    method SetHeader(name: string, value: string)
      requires isHttp
      modifies this`headers, this`ops
      ensures headers == old(headers)[name := [value]]
      ensures ops == old(ops) + [HeaderSet(name, value)]
    {
      headers := headers[name := [value]];
      ops := ops + [HeaderSet(name, value)];
    }

    /** Replaces every value of header `name` by the decimal text of `value`. */
    method SetIntHeader(name: string, value: int)
      requires isHttp
      modifies this`headers, this`ops
      ensures headers == old(headers)[name := [IntHeaderValue(value)]]
      ensures ops == old(ops) + [HeaderSet(name, IntHeaderValue(value))]
    {
      SetHeader(name, IntHeaderValue(value));
    }

    method SetStatus(code: int)
      requires isHttp
      modifies this`status, this`ops
      ensures status == code
      ensures ops == old(ops) + [StatusSet(code)]
    {
      status := code;
      ops := ops + [StatusSet(code)];
    }

    method SetContentType(contentType: string)
      modifies this`contentType, this`ops
      ensures this.contentType == Some(contentType)
      ensures ops == old(ops) + [ContentTypeSet(contentType)]
    {
      this.contentType := Some(contentType);
      ops := ops + [ContentTypeSet(contentType)];
    }

    /** Writes a serialised body through the response's writer. */
    method Write(body: Body)
      modifies this`written, this`ops
      ensures written == old(written) + [body]
      ensures ops == old(ops) + [BodyWritten(body)]
    {
      written := written + [body];
      ops := ops + [BodyWritten(body)];
    }

    method FlushBuffer()
      modifies this`flushed, this`ops
      ensures flushed
      ensures ops == old(ops) + [BufferFlushed]
    {
      flushed := true;
      ops := ops + [BufferFlushed];
    }
  }

  /**
   * The rest of a filter chain, reduced to the record of what it was handed:
   * the request, the response, and the headers the response held at that moment.
   */
  class FilterChain {
    var calls: seq<(Request, ServletResponse, map<string, seq<string>>)>

    constructor ()
      ensures calls == []
    {
      calls := [];
    }

    method DoFilter(request: Request, response: ServletResponse)
      modifies this
      ensures calls == old(calls) + [(request, response, response.headers)]
    {
      calls := calls + [(request, response, response.headers)];
    }
  }
}
