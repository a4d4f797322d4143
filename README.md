# Connector error handling and AMQP publisher, modelled in Dafny

This project models two parts of the connector runtime host and proves properties of them.

- **The HTTP error-normalisation middleware** (`genericErrorHandler`).
  It receives one thrown value and either passes it on to `next(error)` or writes one HTTP status with one error envelope `{ "error": { code, message, stacktrace?, details? } }`.
  The module `GenericErrorHandler` represents the thrown value as a record holding the set of classes on its prototype chain. That makes the handler's first-match-wins order of `instanceof` tests observable: a value that is both a `SyntaxError` and an `ApplicationError` is answered as a `SyntaxError`.
  `Normalize` is the pure decision. `HandleError` is the thin method that records a single write on the response, or a single call of `next`.
  `sanitizeStatus` works on JavaScript numbers, including NaN and the infinities. `stackTraceFromError` is built on a model of `String.prototype.split` (module `JsString`), with its inverse, `join`.
- **The AMQP publisher module** (`AMQPPublisherModule`), modelled as the class `AmqpPublisher.PublisherModule`.
  It has the fields of the source: `eventSubscriptions`, `connection` and `channel`.
  It works against an `Environment`. The environment holds the event bus's live subscriptions, keyed by id, and a log of every call the module makes on the bus and on the broker. This makes ordering and "nothing left subscribed" checkable.
  The broker's answers are parameters: which awaited call of `start` is rejected, and whether `publish` reports the message as buffered.

`init` is modelled as `PublisherModule.Init`, which changes nothing, as in the source.

Two methods without contracts of their own exercise the publisher's contracts end to end:
- `AmqpPublisher.LifecycleScenario` runs one other subscriber, then `start` without an exchange, one unbuffered publish, then `stop`. Only the other subscriber is left on the bus, and the log holds the calls in the order start, publish, stop.
- `AmqpPublisher.PartialStartScenario` runs a `start` whose `createChannel` is rejected, followed by `stop`. The connection is kept and no channel is set. `stop` then closes only the connection, so the log is connect, create channel, close connection.

Three details of the handler that are easy to miss:
- The invalid-JSON code is `error.connector.validation.invalidJsonInPayload`.
- For an unknown error, the message is the fixed text `An unexpected error occurred.`. The thrown value's own message goes into `details`.
- An `ApplicationError` envelope is a production envelope: no stack trace, no details.

## Model

| member | source | states |
|---|---|---|
| `GenericErrorHandler.SanitizeStatus` | src/infrastructure/httpServer/middlewares/genericErrorHandler.ts:120-130 | the result is always in [100,599]; it is the input itself when the input is a number in that range, and 500 otherwise (non-numbers, out-of-range numbers, infinities, NaN) |
| `GenericErrorHandler.SanitizeStatusIdempotent` | src/infrastructure/httpServer/middlewares/genericErrorHandler.ts:120-130 | sanitising an already sanitised status gives the same status |
| `GenericErrorHandler.SanitizeStatusAsWritten` | src/infrastructure/httpServer/middlewares/genericErrorHandler.ts:120-130 | `sanitizeStatus` exactly as written: the result is NaN iff the input is NaN; every other result is a number in [100,599]; an in-range number is returned as it is, and a non-number becomes 500 |
| `GenericErrorHandler.SanitizeStatusAgreesExceptNaN` | src/infrastructure/httpServer/middlewares/genericErrorHandler.ts:120-130 | for every input except NaN, the function exactly as written returns the same number as the intended one |
| `GenericErrorHandler.SanitizeStatusAsWrittenKeepsNaN` | src/infrastructure/httpServer/middlewares/genericErrorHandler.ts:120-130 | as written, NaN comes back unchanged (outside [100,599]); the intended function maps it to 500 |
| `GenericErrorHandler.StackTraceFromError` | src/infrastructure/httpServer/middlewares/genericErrorHandler.ts:132-137 | never empty; without a stack it is the single line `<There is no stacktrace>`; with a stack, its lines contain no newline and joined with newlines give back the stack |
| `JsString.Split` | src/infrastructure/httpServer/middlewares/genericErrorHandler.ts:134 | `split` on one character yields at least one piece, and no piece contains the separator |
| `JsString.JoinSplit` | src/infrastructure/httpServer/middlewares/genericErrorHandler.ts:134 | joining the pieces of a split with the separator gives back the string |
| `JsString.SplitJoin` | src/infrastructure/httpServer/middlewares/genericErrorHandler.ts:134 | splitting a join of separator-free pieces gives back the pieces (split and join are inverse) |
| `GenericErrorHandler.Normalize` | src/infrastructure/httpServer/middlewares/genericErrorHandler.ts:12-118 | the handler delegates iff headers were already sent, and then passes on the thrown value itself; every status it writes is in [100,599] |
| `GenericErrorHandler.ExactlyOneBranchFires` | src/infrastructure/httpServer/middlewares/genericErrorHandler.ts:15-117 | for every input, exactly one branch of the chain fires (its test holds and no earlier test does) |
| `GenericErrorHandler.HeadersSentDelegates` | src/infrastructure/httpServer/middlewares/genericErrorHandler.ts:16-19 | with headers sent, the outcome is `next(error)` whatever was thrown |
| `GenericErrorHandler.SyntaxErrorResponds400` | src/infrastructure/httpServer/middlewares/genericErrorHandler.ts:21-28 | a SyntaxError yields 400 with `error.connector.validation.invalidJsonInPayload`, whatever other classes the value has |
| `GenericErrorHandler.RouteNotFoundResponds404` | src/infrastructure/httpServer/middlewares/genericErrorHandler.ts:30-36 | a RouteNotFoundError that is not a SyntaxError yields 404 with `error.connector.routeDoesNotExist` |
| `GenericErrorHandler.ClientErrorsNever500` | src/infrastructure/httpServer/middlewares/genericErrorHandler.ts:21-36 | neither of those two ever yields 500 |
| `GenericErrorHandler.MethodAndAcceptErrors` | src/infrastructure/httpServer/middlewares/genericErrorHandler.ts:38-57 | MethodNotAllowedError yields 405 with `error.connector.http.methodNotAllowed`; NotAcceptableError yields 406 with `error.connector.http.notAcceptable` |
| `GenericErrorHandler.ApplicationErrorPassesThrough` | src/infrastructure/httpServer/middlewares/genericErrorHandler.ts:59-73 | an ApplicationError's code and message reach the envelope verbatim; the status is 404 iff the error equals a record-not-found sentinel, else 400 |
| `GenericErrorHandler.RequestErrorUsesItsStatus` | src/infrastructure/httpServer/middlewares/genericErrorHandler.ts:75-96 | a RequestError is answered with its sanitised status (its own when in range) and a developer envelope of its code, its reason, its stack trace lines and its details |
| `GenericErrorHandler.RequestStatusAsWritten` | src/infrastructure/httpServer/middlewares/genericErrorHandler.ts:93-94 | for a RequestError, the status the code as written passes to `res.status` is the status `Normalize` writes, except for a NaN status: the code passes NaN, and `Normalize` writes 500 |
| `GenericErrorHandler.UnknownErrorResponds500` | src/infrastructure/httpServer/middlewares/genericErrorHandler.ts:98-105 | any other value is answered with 500, `error.connector.unexpected`, its stack trace lines and its details |
| `GenericErrorHandler.DetailsRule` | src/infrastructure/httpServer/middlewares/genericErrorHandler.ts:77-82 | in both developer branches, the details are the value's message if it has one, else its serialisation |
| `GenericErrorHandler.Fallback` | src/infrastructure/httpServer/middlewares/genericErrorHandler.ts:106-117 | the catch block always answers 500 with `error.connector.errorInErrorHandler`, the message "The error handler ran into an error, caused by '<inner message>', this should not happen", the inner failure's stack trace lines and the fixed details text |
| `GenericErrorHandler.HandlerFailureFallsBack` | src/infrastructure/httpServer/middlewares/genericErrorHandler.ts:75-117 | a thrown null or undefined makes the handler itself fail (reading `stack`), and the answer is the fallback 500 envelope naming that TypeError |
| `GenericErrorHandler.HandleError` | src/infrastructure/httpServer/middlewares/genericErrorHandler.ts:12-118 | exactly one effect: one call of `next(error)` with nothing written, or one `status().json()` write of what `Normalize` decides, after which headers are sent |
| `GenericErrorHandler.HandleTwice` | src/infrastructure/httpServer/middlewares/genericErrorHandler.ts:16-19 | handling two failures on one response writes at most one response; the second failure is passed to `next` |
| `AmqpPublisher.PublisherModule.Init` | src/modules/amqpPublisher/AMQPPublisherModule.ts:20-22 | `init` changes none of the module's fields |
| `AmqpPublisher.PublisherModule.constructor` | src/modules/amqpPublisher/AMQPPublisherModule.ts:15-18 | a new module has no subscriptions, no connection and no channel |
| `AmqpPublisher.PublisherModule.Start` | src/modules/amqpPublisher/AMQPPublisherModule.ts:24-39 | without a URL it fails and changes nothing; otherwise it makes exactly the calls of `StartActions` and sets each field once the awaited call before it succeeds; a successful start appends exactly one `("**", id)` subscription, with the fresh id the bus returned, and advances the bus's id counter by one; a failed start leaves the subscriptions and the bus untouched; the module invariant is kept |
| `AmqpPublisher.StartWithoutUrlFailsFirst` | src/modules/amqpPublisher/AMQPPublisherModule.ts:24-26 | an undefined or empty URL fails with the "url not defined" error before any call |
| `AmqpPublisher.AssertExchangeIffConfigured` | src/modules/amqpPublisher/AMQPPublisherModule.ts:28-34 | once a channel exists, the exchange is asserted iff one is configured: right after the channel is created, before the subscription, with type defaulting to fanout |
| `AmqpPublisher.StartSubscribesOnceOnSuccess` | src/modules/amqpPublisher/AMQPPublisherModule.ts:36-38 | start subscribes at most once, to `"**"` with the bus's id, as its last call, and does so iff it succeeds |
| `AmqpPublisher.PublisherModule.HandleEvent` | src/modules/amqpPublisher/AMQPPublisherModule.ts:41-51 | publishes the event's data (or `{}` for a non-data event) to the configured exchange name (or `""`) with the event's namespace as routing key; an unbuffered publish only yields `NotBuffered`; the bus and the module's fields are unchanged; a module holding a subscription always has a channel |
| `AmqpPublisher.PublisherModule.Stop` | src/modules/amqpPublisher/AMQPPublisherModule.ts:53-60 | makes exactly the calls of `StopActions`; afterwards none of the recorded ids is live and every other subscription is untouched; works without a channel or connection |
| `AmqpPublisher.StopUnsubscribesBeforeClosing` | src/modules/amqpPublisher/AMQPPublisherModule.ts:53-59 | every recorded subscription is revoked, in list order, before any close; the channel is closed before the connection; each close happens iff its handle exists |

## Left out

- The module registry, lifecycle states across modules, `CoreHttpApiModule` and the infrastructure base class are not part of this model. Their lifecycle order lives in a runtime library that is not shown, and the rest is library wiring.
- `HttpError` ids and the exact construction of `HttpError.forProd`/`forDev` and `Envelope.error`: the module that defines them is not part of this model. The model assumes a production error carries only code and message, and a developer error also carries the stack trace and details.
- Logging in both files: it is a side channel and never changes an envelope or the module state.
- `json-stringify-safe`: the result of `stringify(error)` is an opaque string carried by the thrown value.
- Failures inside the handler's `try` block other than reading `stack` of a thrown null or undefined: a throwing property getter, a throwing `stringify`, or a throwing `res.json`. They would all reach the same `Fallback`; only the null/undefined case is derived from the code. The TypeError message uses the V8 engine's wording, and its stack is a field of the thrown value.
- Message and stack properties that are not strings: an absent or empty property is the empty string.
- The Express `res` object beyond the headers-sent flag and the status and body written.
- amqplib semantics, the network and `async`/`await` scheduling. A rejected `connect`, `createChannel` or `assertExchange` is the parameter `rejected`. A rejected `close` is caught and only logged in the source, so the model always records both close calls and has no parameter for their outcome.
- `JSON.stringify` of the payload and `Buffer.from`: the log records the payload value before serialisation, and event data is an opaque value.
- Event-bus dispatch, wildcard topic matching and delivery order: the bus is a map from subscription id to target. `unsubscribe` removes the subscription with the given id; the bus library that does this is not part of this model.
- The TypeError from `this.channel!.publish` when there is no channel is the result `NoChannel`; where it propagates in the bus dispatcher is not modelled.
- GenericErrorHandler.Normalize: models the handler with the corrected `sanitizeStatus`. For a RequestError whose status is NaN, it writes 500, whereas the code as written passes NaN to `res.status` (see Findings). `RequestStatusAsWritten` states the exact difference.
- GenericErrorHandler.RequestErrorUsesItsStatus: states the RequestError answer with the corrected `sanitizeStatus`, so for a NaN status it gives 500 where the code as written gives NaN. The code's status for every other input is the same, by `RequestStatusAsWritten`.

## Findings

| source | as written | input that shows it | evidently intended | confidence | as-written member | corrected member |
|---|---|---|---|---|---|---|
| src/infrastructure/httpServer/middlewares/genericErrorHandler.ts:120-130 | `sanitizeStatus` tests `typeof status !== "number"` and then `status < 100 \|\| status > 599`; NaN is a number and both comparisons are false, so NaN is returned unchanged and passed to `res.status` | a RequestError whose `status` is `NaN` | every status outside [100,599], and every value that is not a real number, becomes 500, as the comment "prevent express errors" says | medium, not executed | `GenericErrorHandler.SanitizeStatusAsWrittenKeepsNaN` | `GenericErrorHandler.SanitizeStatus` |
