# User service and request-logging core, modelled in Dafny

This project models the decision logic of a small Express backend:

- the **user lookup service** (`UserService.findAll`, `UserService.findById`), which turns one
  outcome of the user repository (a value, an absent value, or a thrown error) into a
  `ServiceResponse` success/failure envelope and emits log records;
- the **request-logging middleware**: `getLogLevel`'s status thresholds, `addRequestId`'s
  correlation-id resolution, `captureResponseBody`'s wrapper around `res.send`, the `req`/`err`
  serializers' environment gating, and the order of the exported middleware list;
- the **structured logger's configuration**: the `LOG_LEVELS` table behind `formatters.level`,
  the minimum level and the pretty transport chosen from the environment.

Modules, one per file:

| file | module | models |
|---|---|---|
| wrappers.dfy | Wrappers | `Option`, standing for JavaScript's `null`/`undefined` |
| status_codes.dfy | StatusCodes | 400, 404, 500 and the status-code classes of section 15 of RFC 9110 |
| js_text.dfy | JsText | `toUpperCase` on ASCII text; an integer rendered in a template literal |
| env_config.dfy | EnvConfig | `env.isProduction` / `env.isDevelopment`, both derived from one NODE_ENV value |
| logger.dfy | Logger | backend/src/common/utils/logger.ts |
| request_logger.dfy | RequestLogger | backend/src/common/middleware/requestLogger.ts |
| user_service.dfy | UserService | backend/src/api/user/userService.ts |
| service_observability.dfy | ServiceObservability | properties linking the service's envelopes and records to the logger configuration |

Logic with no state changes is written as functions. Where the middleware changes objects in
place, the model does too: `Request` and `Response` are classes. `addRequestId` sets
`req.headers`. `res.setHeader` sets the response headers. `captureResponseBody` replaces the
behaviour installed as `res.send`. Calling `send` updates `res.locals` and what has been
delivered. The effect of a `send` behaviour is given by the function `Perform`; the `Send`
methods are proved against it.

External inputs become parameters:
- `freshId` stands for `randomUUID()` and is only required to be non-empty.
- `env` stands for the environment configuration.
- `Outcome` stands for what the awaited repository call produced.

The request serializer's query parameters and the error serializer's stack are gated on
`env.isDevelopment` (requestLogger.ts lines 39 and 48). Body capture (requestLogger.ts line 58),
the minimum level (logger.ts line 32) and the transport (logger.ts line 15) are gated on
`env.isProduction`. So under NODE_ENV "test" the body is captured but query and stack are
omitted (`RequestLogger.TestEnvCapturesButOmitsDiagnostics`).

The stack gate covers pino-http's `err` serializer only. It does not mean that production logs
never carry stack traces. The service's own catch blocks log `error.stack` at error level
(userService.ts lines 35 and 69), and that record passes production's "info" minimum
(`ServiceObservability.ProductionKeepsServiceStack`).

## Model

| member | source | states |
|---|---|---|
| `UserService.FindAll` | backend/src/api/user/userService.ts:16-43 | Succeeds exactly on a non-empty list, with message "Users found" and that list as payload. An absent or empty result gives "No Users found", null payload, 404. Any rejection, `null` included, gives the fixed message "An error occurred while retrieving users.", null payload, 500 (the corrected catch block; see Findings). Two records are logged: the debug attempt, then a second record that is fixed completely. On an absent or empty result it is the info record "No users found in database" without fields. On success it is the info record that reports the number of users as a decimal. On a rejection it is an error record carrying the error's message and stack. |
| `UserService.FindById` | backend/src/api/user/userService.ts:46-79 | Succeeds exactly when the user is present, with message "User found" and that same user. Absent gives "User not found", null payload, 404. Any rejection, `null` included, gives "An error occurred while finding user.", null payload, 500 (the corrected catch block; see Findings). Every record carries the user id. The second record is fixed completely: "User not found with specified ID" when absent, "Successfully retrieved user" with the user's name when present, and an error record carrying the error text and stack on a rejection. |
| `UserService.FindAllAsWritten` | backend/src/api/user/userService.ts:32-35 | As written, the call rejects exactly when the repository rejects with `null` or `undefined`, after only the debug record. On every other outcome it settles with FindAll's envelope and records. |
| `UserService.FindByIdAsWritten` | backend/src/api/user/userService.ts:65-71 | As written, the call rejects exactly on a `null` or `undefined` rejection, after only the debug record. Otherwise it settles with FindById's envelope and records. |
| `UserService.NullRejectionEscapesFindAll` | backend/src/api/user/userService.ts:33-35 | On a `null` rejection, findAll as written rejects, while the corrected FindAll returns the 500 envelope. |
| `UserService.NullRejectionEscapesFindById` | backend/src/api/user/userService.ts:66-71 | On a `null` rejection, findById as written rejects for every id, while the corrected FindById returns the 500 envelope. |
| `UserService.MessageText` | backend/src/api/user/userService.ts:34 | The interpolated message is the error's message, or "undefined" when the rejection value has none. |
| `UserService.ErrorFields` | backend/src/api/user/userService.ts:35 | The error record holds an `error` field exactly when the rejection value has a message, and a `stack` field exactly when it has a stack, with those values and no other field. |
| `UserService.FailuresCarryNullPayload` | backend/src/api/user/userService.ts:23-77 | Every failure envelope either operation builds has a null payload and status 404 or 500. |
| `UserService.FindAllMessageIsConstant` | backend/src/api/user/userService.ts:23-41 | For every outcome, findAll's envelope message is one of its three constants, so no error text reaches it. |
| `UserService.FindByIdMessageIsConstant` | backend/src/api/user/userService.ts:53-77 | For every id and outcome, findById's envelope message is one of its three constants. |
| `UserService.FindAllHidesError` | backend/src/api/user/userService.ts:32-41 | Any two rejections give the same envelope. Rejections with different message text give different logs. |
| `UserService.FindByIdHidesError` | backend/src/api/user/userService.ts:65-78 | Any two ids and errors give the same envelope when the repository throws. Different ids give different logs. |
| `ServiceObservability.FailureStatusSelectsLevel` | backend/src/common/middleware/requestLogger.ts:29 | Used as the HTTP status, a not-found envelope's status is a client error logged at warn. A thrown-error envelope's status is a server error logged at error. |
| `ServiceObservability.ErrorRecordAlwaysEmitted` | backend/src/api/user/userService.ts:18-71 | In every environment the error record of findAll and of findById passes the minimum level. Each one's debug "Attempting" record passes exactly outside production. |
| `ServiceObservability.ProductionKeepsServiceStack` | backend/src/api/user/userService.ts:35-69 | In production the service's own error records, from findAll and from findById, are still written, and they carry the rejection's stack. |
| `RequestLogger.GetLogLevel` | backend/src/common/middleware/requestLogger.ts:9-13 | Each of these holds in both directions: "error" iff status >= 500; "warn" iff 400 <= status < 500; "info" iff status < 400. |
| `RequestLogger.GetLogLevelMonotone` | backend/src/common/middleware/requestLogger.ts:9-13 | A higher status never gets a less severe level (info < warn < error). |
| `RequestLogger.GetLogLevelFollowsStatusClasses` | backend/src/common/middleware/requestLogger.ts:9-13 | 5xx gives error, 4xx gives warn, and 1xx to 3xx give info, following section 15 of RFC 9110. |
| `RequestLogger.ResolveRequestId` | backend/src/common/middleware/requestLogger.ts:16-17 | A non-empty inbound id is kept unchanged. An absent or empty one is replaced by the fresh id. The result is never empty. |
| `RequestLogger.AddRequestId` | backend/src/common/middleware/requestLogger.ts:15-24 | The request's `x-request-id` and the response's `X-Request-Id` both become the resolved id. No other header changes, and `next` is called. |
| `RequestLogger.Response.SetHeader` | backend/src/common/middleware/requestLogger.ts:21 | Sets one response header and leaves the others. |
| `RequestLogger.CaptureResponseBody` | backend/src/common/middleware/requestLogger.ts:53-66 | Outside production the installed `send` is wrapped once. In production it is left unchanged. `next` is called either way. |
| `RequestLogger.Response.Send` | backend/src/common/middleware/requestLogger.ts:60-63 | Calling `send` has exactly the effect `Perform` gives for the installed behaviour, and returns the receiver. |
| `RequestLogger.Response.SendWith` | backend/src/common/middleware/requestLogger.ts:60-63 | The wrapper stores the body in `res.locals.responseBody`. It then delegates to the original on the same receiver and returns what the original returns. |
| `RequestLogger.Perform` | backend/src/common/middleware/requestLogger.ts:59-63 | One `send` call delivers exactly one more body, and the `responseBody` local is added exactly when the installed behaviour is a capturing wrapper; the other keys of `res.locals` stay. |
| `RequestLogger.PerformDelivers` | backend/src/common/middleware/requestLogger.ts:60-63 | However many wrappers are installed, the body reaches the client exactly once, unchanged. |
| `RequestLogger.PerformLocals` | backend/src/common/middleware/requestLogger.ts:60-63 | A capturing behaviour sets `responseBody` to the body and changes no other local. The native send changes no local. |
| `RequestLogger.CaptureIsTransparent` | backend/src/common/middleware/requestLogger.ts:58-65 | Wrapping changes what is delivered not at all. It changes the locals only by recording the body. |
| `RequestLogger.GenReqId` | backend/src/common/middleware/requestLogger.ts:28 | pino-http's id is the request's `x-request-id` header, or undefined when that is absent. |
| `RequestLogger.AssignRequestId` | backend/src/common/middleware/requestLogger.ts:28 | `req.id` becomes what `genReqId` returns. |
| `RequestLogger.RunPipeline` | backend/src/common/middleware/requestLogger.ts:68 | The stages run as addRequestId, captureResponseBody, pino-http. The id pino-http adopts equals both headers' resolved id, `send` is wrapped exactly outside production, and nothing else changes. |
| `RequestLogger.SerializeReq` | backend/src/common/middleware/requestLogger.ts:34-40 | Method, url, id and params are always copied. Query is present iff in development, and then equals the request's. |
| `RequestLogger.SerializeErr` | backend/src/common/middleware/requestLogger.ts:45-49 | Type and message are always copied. The stack is copied in development and undefined otherwise. |
| `RequestLogger.ProductionOmitsDiagnostics` | backend/src/common/middleware/requestLogger.ts:39-48 | In production pino-http's `req` serializer drops the query parameters and its `err` serializer drops the stack. This concerns those two serializers only (see ProductionKeepsServiceStack). |
| `RequestLogger.TestEnvCapturesButOmitsDiagnostics` | backend/src/common/middleware/requestLogger.ts:39-58 | Under NODE_ENV "test" body capture is active, yet query and stack are omitted. |
| `RequestLogger.ErrorMessage` | backend/src/common/middleware/requestLogger.ts:31-32 | The failure message is the fixed prefix "Request failed with status code: " followed by the status in decimal: a minus sign exactly for a negative status, then digits without a leading zero (a lone "0" only for status 0) that read back as the status's absolute value. |
| `RequestLogger.ErrorMessageDeterminesStatus` | backend/src/common/middleware/requestLogger.ts:31-32 | Distinct status codes give distinct failure messages: the message names its status. |
| `JsText.Decimal` | backend/src/common/middleware/requestLogger.ts:32 | An integer's rendering is non-empty digits, with a leading minus exactly for negatives, no leading zero (0 is rendered as the single digit "0"), and the digits read back as the integer's absolute value. |
| `JsText.NatDecimal` | backend/src/api/user/userService.ts:30 | A natural number's rendering is non-empty decimal digits without a leading zero, and they read back as that number. |
| `JsText.DecimalInjective` | backend/src/api/user/userService.ts:67 | The rendering determines the integer. |
| `JsText.UpperChar` | backend/src/common/utils/logger.ts:42 | `a`..`z` become the matching capital, every other character is kept, and the result is never a lower-case letter. |
| `JsText.ToUpperCase` | backend/src/common/utils/logger.ts:42 | Length is kept, no lower-case letter remains, every character outside `a`..`z` is kept, and each lower-case letter becomes its capital. |
| `JsText.ToUpperCaseIdempotent` | backend/src/common/utils/logger.ts:42 | Upper-casing an upper-cased label changes nothing. |
| `Logger.LogLevelsKeys` | backend/src/common/utils/logger.ts:5-12 | The table's keys are exactly the six level labels trace, debug, info, warn, error, fatal. |
| `Logger.LogLevelsAreUpperCase` | backend/src/common/utils/logger.ts:5-12 | Every table entry is its key upper-cased. |
| `Logger.PrototypeKeysOutsideTable` | backend/src/common/utils/logger.ts:5-12 | No name inherited from Object.prototype is an own key of the table. |
| `Logger.LookupLogLevels` | backend/src/common/utils/logger.ts:42 | `LOG_LEVELS[level]` finds an own entry first, otherwise an inherited Object.prototype member, otherwise undefined; it is defined exactly for the six labels and the prototype's names. |
| `Logger.FormatLevel` | backend/src/common/utils/logger.ts:38-44 | The raw `level` field equals the input label. A known label gets its table entry. Every label's `levelLabel` is the label upper-cased (own-property lookup; see Findings). |
| `Logger.FormatKnownLevel` | backend/src/common/utils/logger.ts:5-42 | Each of the six levels is labelled TRACE, DEBUG, INFO, WARN, ERROR or FATAL. |
| `Logger.FormatLevelAsWritten` | backend/src/common/utils/logger.ts:38-44 | As written, `level` equals the label. `levelLabel` is the upper-cased label unless the label names an Object.prototype member, and then that inherited member. |
| `Logger.AsWrittenAgreesWithFormatLevel` | backend/src/common/utils/logger.ts:42 | For every label not inherited from Object.prototype, the formatter as written and `FormatLevel` agree. |
| `Logger.ConstructorLabelNotUpperCased` | backend/src/common/utils/logger.ts:42 | As written, the label "constructor" is not mapped to "CONSTRUCTOR"; `FormatLevel` maps it there. |
| `Logger.MinLevel` | backend/src/common/utils/logger.ts:32 | The minimum level is info iff production and debug iff not. |
| `Logger.Transport` | backend/src/common/utils/logger.ts:15-27 | The pino-pretty transport, ignoring pid and hostname, is used iff not in production. |
| `Logger.PrettyExactlyWhenDebug` | backend/src/common/utils/logger.ts:15-32 | Pretty output and debug verbosity always go together. |
| `Logger.EnabledByEnvironment` | backend/src/common/utils/logger.ts:32 | Production writes info and above. Every other environment also writes debug. |
| `Logger.Emitted` | backend/src/common/utils/logger.ts:32 | The records written are exactly the logged ones at or above the minimum level. |
| `Logger.EmittedConcat` | backend/src/common/utils/logger.ts:32 | Filtering keeps the order of the calls: the records written for two runs of calls are the first run's followed by the second's. |
| `Logger.EmittedSingle` | backend/src/common/utils/logger.ts:32 | A single call is written once when its level is enabled and not at all otherwise; with EmittedConcat this fixes the written sequence. |

## Left out

- backend/src/index.ts (listen, signal handlers, the 10-second forced exit, `process.exit`): asynchronous process plumbing with no sequential decision to state.
- `async`/`await`: each service operation is a function of the awaited repository outcome.
- UserRepository, the User model, ServiceResponse and envConfig are not part of this model. `User` keeps only `name`, the one field the service reads. `EnvConfig` assumes both flags come from one NODE_ENV value.
- UserService.FindAll: the `Success` envelope carries no status. The default status of `ServiceResponse.success` is defined in a file not part of this model.
- UserService.FindById: an id is an unbounded integer. Non-integer and NaN `number` values are not modelled, and neither is the loss of precision above 2^53, where distinct integers are not distinct JavaScript numbers.
- JsText.Decimal: renders plain digits for every integer. JavaScript renders a `number` this way only when its magnitude is below 10^21; from there on it uses exponent notation ("1e+21"). The model's rendering of an id is faithful only below that bound. Counts and status codes stay far below it.
- UserService.FindAll and UserService.FindById: a rejection value is either `null`/`undefined` or a value whose `message` and `stack` are strings or undefined. A non-string `message` or `stack` is not modelled.
- pino and pino-http internals: the log record layout, `responseTime`, the `res` serializer's timing field, and when the custom success or error message is chosen. `customSuccessMessage` is plain string interpolation and is not modelled. `customLogLevel` is `GetLogLevel` applied to the response status.
- The `messageFormat`, `translateTime` and `colorize` settings of pino-pretty appear only as constants. Pretty-printing itself is foreign.
- `name: "chat-app"`, `base: undefined` (no pid or hostname fields) and the `timestamp` function: configuration constants and wall-clock time.
- JsText.UpperChar and JsText.ToUpperCase: only ASCII `a`..`z` are upper-cased. JavaScript's full Unicode mapping, which can change length (for example "ß" becomes "SS"), is not modelled. No property above depends on it, because the fallback is `toUpperCase` itself.
- Express internals: header-name case normalisation (request header keys are taken as already lower-case, as Node delivers them). `res.send` re-entering itself through `res.json` for object bodies is not modelled, which would make the captured body the JSON text. Bodies and locals are modelled as strings.
- RequestLogger.AssignRequestId and RequestLogger.RunPipeline: pino-http's own code is not part of this model. It is modelled as setting `req.id` to `genReqId(req)` whatever `req.id` held before; Express delivers a request without an `id`, so this only matters if something upstream had set one.
- `randomUUID`: a non-empty `freshId` parameter. UUID format and uniqueness are not modelled.

## Findings

| source | as written | input that shows it | evidently intended | confidence | as-written member | corrected member |
|---|---|---|---|---|---|---|
| backend/src/api/user/userService.ts:33-35 | The catch block reads `message` and `stack` from the caught value without a guard. A rejection with `null` or `undefined` therefore throws a TypeError inside the catch block, and `findAll` rejects. | the repository's `findAllAsync` rejecting with `null` | every repository failure is caught and turned into the 500 envelope, and nothing propagates past the service | not executed; depends on the repository, which is not part of this model, ever rejecting with `null` or `undefined` | `UserService.NullRejectionEscapesFindAll` | `UserService.FindAll` |
| backend/src/api/user/userService.ts:66-71 | The same unguarded read of `message` and `stack` in `findById`'s catch block. The call rejects instead of returning an envelope. | `findByIdAsync` rejecting with `undefined`, for any id | the 500 envelope "An error occurred while finding user." | not executed; depends on the repository rejecting with `null` or `undefined` | `UserService.NullRejectionEscapesFindById` | `UserService.FindById` |
| backend/src/common/utils/logger.ts:42 | The table is indexed with a plain property access, which also finds the members every object inherits from Object.prototype. Those are truthy, so the upper-case fallback is skipped. | the label "constructor" (likewise "toString", "valueOf", "__proto__", ...) gives Object's constructor function as `levelLabel` | every label outside the six-entry table falls back to the label upper-cased | not executed; reachable only if pino passes such a label, and pino passes only the configured level labels | `Logger.ConstructorLabelNotUpperCased` | `Logger.FormatLevel` |
