/**
 The per-request observability pipeline: `addRequestId`, then `captureResponseBody`, then
 pino-http configured with `genReqId`, `customLogLevel`, `customErrorMessage` and the
 `req`/`err` serializers. Requests and responses are objects whose fields the stages update.
 */
module RequestLogger {
  import opened Wrappers
  import opened JsText
  import opened StatusCodes
  import opened EnvConfig
  import opened Logger

  /** The inbound header read by `addRequestId` (Node stores incoming header names in lower case). */
  const REQUEST_ID_HEADER: string := "x-request-id"
  /** The outbound header `addRequestId` sets. */
  const RESPONSE_ID_HEADER: string := "X-Request-Id"
  /** The `res.locals` key the capturing `send` writes. */
  const RESPONSE_BODY_KEY: string := "responseBody"

  /** `getLogLevel`: error from 500 up, warn from 400 up, info below. */
  function GetLogLevel(status: int): (l: Level)
    ensures l == Error <==> status >= INTERNAL_SERVER_ERROR
    ensures l == Warn <==> BAD_REQUEST <= status < INTERNAL_SERVER_ERROR
    ensures l == Info <==> status < BAD_REQUEST
  {
    if status >= INTERNAL_SERVER_ERROR then Error
    else if status >= BAD_REQUEST then Warn
    else Info
  }

  /** A higher status never gets a less severe level. */
  lemma GetLogLevelMonotone(s1: int, s2: int)
    requires s1 <= s2
    ensures Severity(GetLogLevel(s1)) <= Severity(GetLogLevel(s2))
  {
  }

  /** The thresholds follow the status-code classes of section 15 of RFC 9110. */
  lemma GetLogLevelFollowsStatusClasses(status: int)
    ensures IsServerError(status) ==> GetLogLevel(status) == Error
    ensures IsClientError(status) ==> GetLogLevel(status) == Warn
    ensures IsBelowClientError(status) ==> GetLogLevel(status) == Info
  {
  }

  /** A header's value, or undefined. */
  function Header(headers: map<string, string>, name: string): (v: Option<string>)
    ensures v.Some? <==> name in headers
    ensures v.Some? ==> v.value == headers[name]
  {
    if name in headers then Some(headers[name]) else None
  }

  /** `existingId || randomUUID()`: the inbound id unless it is absent or empty. */
  function ResolveRequestId(existing: Option<string>, freshId: string): (id: string)
    requires freshId != ""
    ensures id != ""
    ensures existing.Some? && existing.value != "" ==> id == existing.value
    ensures existing.None? || existing.value == "" ==> id == freshId
  {
    if existing.Some? && existing.value != "" then existing.value else freshId
  }

  const ERROR_MESSAGE_PREFIX: string := "Request failed with status code: "

  /**
   `customErrorMessage`: the fixed prefix, then the status code in decimal, with a minus
   sign for a negative code.
   */
  function ErrorMessage(status: int): (m: string)
    ensures |m| > |ERROR_MESSAGE_PREFIX| && m[..|ERROR_MESSAGE_PREFIX|] == ERROR_MESSAGE_PREFIX
    ensures m[|ERROR_MESSAGE_PREFIX|] == '-' <==> status < 0
    ensures status >= 0 ==> IsDigit(m[|ERROR_MESSAGE_PREFIX|])
    ensures forall i :: |ERROR_MESSAGE_PREFIX| < i < |m| ==> IsDigit(m[i])
    ensures status >= 0 ==> DigitsValue(m[|ERROR_MESSAGE_PREFIX|..]) == status
    ensures status < 0 ==> DigitsValue(m[|ERROR_MESSAGE_PREFIX| + 1..]) == -status
    ensures m[|ERROR_MESSAGE_PREFIX|] == '0' ==> status == 0 && |m| == |ERROR_MESSAGE_PREFIX| + 1
    ensures status < 0 ==> |m| >= |ERROR_MESSAGE_PREFIX| + 2 && m[|ERROR_MESSAGE_PREFIX| + 1] != '0'
  {
    var m := ERROR_MESSAGE_PREFIX + Decimal(status);
    assert m[|ERROR_MESSAGE_PREFIX|..] == Decimal(status);
    assert m[|ERROR_MESSAGE_PREFIX| + 1..] == Decimal(status)[1..];
    m
  }

  /** The failure message determines the status code it was built from. */
  lemma ErrorMessageDeterminesStatus(s1: int, s2: int)
    requires ErrorMessage(s1) == ErrorMessage(s2)
    ensures s1 == s2
  {
    var n := |ERROR_MESSAGE_PREFIX|;
    assert Decimal(s1) == ErrorMessage(s1)[n..] == ErrorMessage(s2)[n..] == Decimal(s2);
    DecimalInjective(s1, s2);
  }

  /** The behaviour installed as `res.send`: Express's own, or a capturing wrapper around another. */
  datatype SendBehaviour = NativeSend | CaptureBody(original: SendBehaviour)

  /** Whether the installed behaviour is a capturing wrapper. */
  predicate Captures(b: SendBehaviour)
  {
    b.CaptureBody?
  }

  /** What a call of `send` can change: `res.locals` and the bodies written to the client. */
  datatype SendState = SendState(locals: map<string, string>, delivered: seq<string>)

  /**
   The effect of `res.send(body)` under a behaviour: one more body is delivered, and the
   `responseBody` local exists afterwards exactly when it did before or the behaviour captures.
   */
  function Perform(b: SendBehaviour, st: SendState, body: string): (r: SendState)
    ensures |r.delivered| == |st.delivered| + 1
    ensures r.locals.Keys == if Captures(b) then st.locals.Keys + {RESPONSE_BODY_KEY} else st.locals.Keys
  {
    match b
    case NativeSend => st.(delivered := st.delivered + [body])
    case CaptureBody(original) => Perform(original, st.(locals := st.locals[RESPONSE_BODY_KEY := body]), body)
  }

  /** Whatever wrappers are installed, the body reaches the client exactly once, unchanged. */
  lemma {:induction false} PerformDelivers(b: SendBehaviour, st: SendState, body: string)
    ensures Perform(b, st, body).delivered == st.delivered + [body]
  {
    match b
    case NativeSend =>
    case CaptureBody(original) =>
      PerformDelivers(original, st.(locals := st.locals[RESPONSE_BODY_KEY := body]), body);
  }

  /** A capturing behaviour records the body under `responseBody` and changes no other local. */
  lemma {:induction false} PerformLocals(b: SendBehaviour, st: SendState, body: string)
    ensures Perform(b, st, body).locals ==
            if Captures(b) then st.locals[RESPONSE_BODY_KEY := body] else st.locals
  {
    match b
    case NativeSend =>
    case CaptureBody(original) =>
      var st' := st.(locals := st.locals[RESPONSE_BODY_KEY := body]);
      PerformLocals(original, st', body);
      assert st'.locals[RESPONSE_BODY_KEY := body] == st'.locals;
  }

  /**
   The wrapper is transparent: wrapping a behaviour changes nothing a caller of `send` observes
   except that `res.locals.responseBody` now holds the body.
   */
  lemma {:induction false} CaptureIsTransparent(b: SendBehaviour, st: SendState, body: string)
    ensures Perform(CaptureBody(b), st, body).delivered == Perform(b, st, body).delivered
    ensures Perform(CaptureBody(b), st, body).locals == Perform(b, st, body).locals[RESPONSE_BODY_KEY := body]
  {
    var st' := st.(locals := st.locals[RESPONSE_BODY_KEY := body]);
    PerformDelivers(b, st', body);
    PerformDelivers(b, st, body);
    PerformLocals(b, st', body);
    PerformLocals(b, st, body);
    assert st'.locals[RESPONSE_BODY_KEY := body] == st'.locals;
  }

  /** The parts of an Express request the pipeline reads or writes. */
  class Request {
    var httpMethod: string
    var url: string
    var headers: map<string, string>
    var params: map<string, string>
    var query: map<string, string>
    /** `req.id`, assigned by pino-http from `genReqId`. */
    var id: Option<string>

    constructor (httpMethod: string, url: string, headers: map<string, string>,
                 params: map<string, string>, query: map<string, string>)
      ensures this.httpMethod == httpMethod && this.url == url && this.headers == headers
      ensures this.params == params && this.query == query && this.id == None
    {
      this.httpMethod, this.url, this.headers := httpMethod, url, headers;
      this.params, this.query, this.id := params, query, None;
    }
  }

  /** The parts of an Express response the pipeline reads or writes. */
  class Response {
    var statusCode: int
    var headers: map<string, string>
    var locals: map<string, string>
    /** The bodies Express's own `send` has written out. */
    var delivered: seq<string>
    /** The function currently installed as `res.send`. */
    var send: SendBehaviour

    constructor (statusCode: int)
      ensures this.statusCode == statusCode && headers == map[] && locals == map[]
      ensures delivered == [] && send == NativeSend
    {
      this.statusCode := statusCode;
      headers, locals, delivered, send := map[], map[], [], NativeSend;
    }

    /** `res.setHeader(name, value)`. */
    method SetHeader(name: string, value: string)
      modifies this`headers
      ensures headers == old(headers)[name := value]
    {
      headers := headers[name := value];
    }

    /** `res.send(body)` with the installed behaviour; like Express's, it returns the response itself. */
    method Send(body: string) returns (self: Response)
      modifies this`locals, this`delivered
      ensures self == this
      ensures SendState(locals, delivered) == Perform(send, old(SendState(locals, delivered)), body)
    {
      self := SendWith(send, body);
    }

    /** Runs one behaviour of `send`, the wrapper delegating to the original on the same receiver. */
    method SendWith(b: SendBehaviour, body: string) returns (self: Response)
      modifies this`locals, this`delivered
      ensures self == this
      ensures SendState(locals, delivered) == Perform(b, old(SendState(locals, delivered)), body)
      decreases b
    {
      match b
      case NativeSend =>
        delivered := delivered + [body];
        self := this;
      case CaptureBody(original) =>
        locals := locals[RESPONSE_BODY_KEY := body];
        self := SendWith(original, body);
    }
  }

  /**
   `addRequestId`: resolves the id, writes it to the request header and the response header, and
   calls `next` (the result is true when `next` was called). `freshId` stands for `randomUUID()`.
   */
  method AddRequestId(req: Request, res: Response, freshId: string) returns (next: bool)
    requires freshId != ""
    modifies req`headers, res`headers
    ensures next
    ensures var id := ResolveRequestId(Header(old(req.headers), REQUEST_ID_HEADER), freshId);
            && req.headers == old(req.headers)[REQUEST_ID_HEADER := id]
            && res.headers == old(res.headers)[RESPONSE_ID_HEADER := id]
  {
    var existingId := Header(req.headers, REQUEST_ID_HEADER);
    var requestId := ResolveRequestId(existingId, freshId);
    req.headers := req.headers[REQUEST_ID_HEADER := requestId];
    res.SetHeader(RESPONSE_ID_HEADER, requestId);
    next := true;
  }

  /** `captureResponseBody`: outside production, wraps the installed `send`; then calls `next`. */
  method CaptureResponseBody(res: Response, env: Env) returns (next: bool)
    modifies res`send
    ensures next
    ensures res.send == if env.IsProduction() then old(res.send) else CaptureBody(old(res.send))
  {
    if !env.IsProduction() {
      var originalSend := res.send;
      res.send := CaptureBody(originalSend);
    }
    next := true;
  }

  /** `genReqId`: the request id pino-http adopts, read from the request header. */
  function GenReqId(headers: map<string, string>): (id: Option<string>)
    ensures id.Some? <==> REQUEST_ID_HEADER in headers
    ensures id.Some? ==> id.value == headers[REQUEST_ID_HEADER]
  {
    Header(headers, REQUEST_ID_HEADER)
  }

  /** pino-http's id assignment: `req.id` becomes what `genReqId` returns. */
  method AssignRequestId(req: Request)
    modifies req`id
    ensures req.id == GenReqId(req.headers)
  {
    req.id := GenReqId(req.headers);
  }

  /**
   The exported middleware list run in order: `addRequestId`, `captureResponseBody`, pino-http.
   Because the id is written before pino-http reads it, the logged id, the request header and
   the response header agree.
   */
  method RunPipeline(req: Request, res: Response, env: Env, freshId: string)
    requires freshId != ""
    modifies req, res
    ensures var id := ResolveRequestId(Header(old(req.headers), REQUEST_ID_HEADER), freshId);
            && req.headers == old(req.headers)[REQUEST_ID_HEADER := id]
            && res.headers == old(res.headers)[RESPONSE_ID_HEADER := id]
            && req.id == Some(id)
    ensures res.send == if env.IsProduction() then old(res.send) else CaptureBody(old(res.send))
    ensures req.httpMethod == old(req.httpMethod) && req.url == old(req.url)
    ensures req.params == old(req.params) && req.query == old(req.query)
    ensures res.statusCode == old(res.statusCode) && res.locals == old(res.locals)
    ensures res.delivered == old(res.delivered)
  {
    var next := AddRequestId(req, res, freshId);
    if next {
      next := CaptureResponseBody(res, env);
      if next {
        AssignRequestId(req);
      }
    }
  }

  /** The `req` serializer's output; `query` is undefined unless in development. */
  datatype SerializedReq = SerializedReq(
    httpMethod: string, url: string, id: Option<string>,
    params: map<string, string>, query: Option<map<string, string>>)

  /** The `req` serializer. */
  function SerializeReq(req: Request, env: Env): (r: SerializedReq)
    reads req
    ensures r.httpMethod == req.httpMethod && r.url == req.url && r.id == req.id && r.params == req.params
    ensures r.query.Some? <==> env.IsDevelopment()
    ensures r.query.Some? ==> r.query.value == req.query
  {
    SerializedReq(req.httpMethod, req.url, req.id, req.params,
                  if env.IsDevelopment() then Some(req.query) else None)
  }

  /** The error object pino-http hands to the `err` serializer. */
  datatype HttpError = HttpError(typeName: string, message: string, stack: Option<string>)

  /** The `err` serializer's output; `stack` is undefined unless in development. */
  datatype SerializedErr = SerializedErr(typeName: string, message: string, stack: Option<string>)

  /** The `err` serializer. */
  function SerializeErr(err: HttpError, env: Env): (r: SerializedErr)
    ensures r.typeName == err.typeName && r.message == err.message
    ensures env.IsDevelopment() ==> r.stack == err.stack
    ensures !env.IsDevelopment() ==> r.stack.None?
  {
    SerializedErr(err.typeName, err.message, if env.IsDevelopment() then err.stack else None)
  }

  /**
   In production pino-http's serializers drop the request's query parameters and the error's
   stack. This is about pino-http's `req` and `err` records only: the service's own error
   records keep the stack (ServiceObservability.ProductionKeepsServiceStack).
   */
  lemma ProductionOmitsDiagnostics(req: Request, err: HttpError, env: Env)
    requires env.IsProduction()
    ensures SerializeReq(req, env).query.None? && SerializeErr(err, env).stack.None?
  {
  }

  /**
   The gates differ: outside both production and development (NODE_ENV "test") the body is
   captured, yet query and stack are still omitted.
   */
  lemma TestEnvCapturesButOmitsDiagnostics(req: Request, err: HttpError, env: Env)
    requires env.nodeEnv == Test
    ensures !env.IsProduction()
    ensures SerializeReq(req, env).query.None? && SerializeErr(err, env).stack.None?
  {
  }
}
