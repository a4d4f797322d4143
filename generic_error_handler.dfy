/** The HTTP error-normalisation middleware: one thrown value, classified once, becomes either
    "pass it on to the next handler" or one HTTP status with one error envelope. */
module GenericErrorHandler {
  import opened Wrappers
  import JsString

  // ---------------------------------------------------------------------------------------------
  // JavaScript values the handler inspects
  // ---------------------------------------------------------------------------------------------

  /** A JavaScript number: a finite value, NaN, or one of the two infinities. */
  datatype JsNumber = Finite(value: real) | NaN | Infinity | NegInfinity

  /** A value of type `any` as seen by `typeof status === "number"`. */
  datatype StatusField = Number(n: JsNumber) | NotNumber

  /** JavaScript's `n < bound` (false whenever `n` is NaN). */
  predicate JsLess(n: JsNumber, bound: real)
  {
    match n
    case Finite(x) => x < bound
    case NaN => false
    case Infinity => false
    case NegInfinity => true
  }

  /** JavaScript's `n > bound` (false whenever `n` is NaN). */
  predicate JsGreater(n: JsNumber, bound: real)
  {
    match n
    case Finite(x) => x > bound
    case NaN => false
    case Infinity => true
    case NegInfinity => false
  }

  /** The error classes the handler tests with `instanceof`, in the order it tests them. */
  datatype ErrorClass =
    | SyntaxErrorClass
    | RouteNotFoundErrorClass
    | MethodNotAllowedErrorClass
    | NotAcceptableErrorClass
    | ApplicationErrorClass
    | RequestErrorClass

  /** The value a request handler threw. A `Nullish` value is a thrown `null` or `undefined`; reading a
      property of it raises a TypeError whose engine-made stack is `typeErrorStack`. Any other value is
      a `Thrown` record: `classes` are the classes on its prototype chain (a subclass of several tested
      classes, or a plain string with none); an absent or empty string property is `""`;
      `serialized` is what `stringify(error)` returns for it; `isRecordNotFound` says whether the
      application error equals one of the two record-not-found sentinels. */
  datatype Thrown =
    | Nullish(isNull: bool, typeErrorStack: string)
    | Thrown(
        classes: set<ErrorClass>,
        message: string,
        stack: string,
        serialized: string,
        code: string,
        reason: string,
        status: StatusField,
        isRecordNotFound: bool)

  // ---------------------------------------------------------------------------------------------
  // The response
  // ---------------------------------------------------------------------------------------------

  /** `HttpError`: a production error carries only code and message, a developer error also
      carries the stack trace lines and details. */
  datatype HttpError = HttpError(code: string, message: string, stacktrace: Option<seq<string>>, details: Option<string>)

  /** `Envelope.error(e)`: the wire wrapper `{ "error": e }`. */
  datatype Envelope = ErrorEnvelope(error: HttpError)

  /** What the handler does with one failure: call `next(error)`, or write one status and body. */
  datatype Outcome = Delegate(error: Thrown) | Respond(status: real, body: Envelope)

  function ForProd(code: string, message: string): HttpError
  {
    HttpError(code, message, None, None)
  }

  function ForDev(code: string, message: string, stacktrace: seq<string>, details: string): HttpError
  {
    HttpError(code, message, Some(stacktrace), Some(details))
  }

  const InvalidJsonCode := "error.connector.validation.invalidJsonInPayload"
  const InvalidJsonMessage := "The given payload is not a valid json object."
  const RouteDoesNotExistCode := "error.connector.routeDoesNotExist"
  const RouteDoesNotExistMessage := "This route does not exist."
  const MethodNotAllowedCode := "error.connector.http.methodNotAllowed"
  const MethodNotAllowedMessage := "The request method is not supported for the requested resource."
  const NotAcceptableCode := "error.connector.http.notAcceptable"
  const NotAcceptableMessage := "The requested resource is capable of generating only content not acceptable according to the Accept headers sent in the request."
  const UnexpectedCode := "error.connector.unexpected"
  const UnexpectedMessage := "An unexpected error occurred."
  const ErrorInErrorHandlerCode := "error.connector.errorInErrorHandler"
  const ErrorInErrorHandlerDetails := "Report this to a connector developer"
  const NoStacktrace := "<There is no stacktrace>"

  // ---------------------------------------------------------------------------------------------
  // sanitizeStatus
  // ---------------------------------------------------------------------------------------------

  /** `sanitizeStatus` exactly as written: a non-number, or a number below 100 or above 599, becomes
      500; every other number, NaN included, is returned as it is. */
  function SanitizeStatusAsWritten(status: StatusField): (r: JsNumber)
    ensures r == NaN <==> status == Number(NaN)
    ensures r != NaN ==> r.Finite? && 100.0 <= r.value <= 599.0
    ensures InStatusRange(status) ==> r == status.n
    ensures !status.Number? ==> r == Finite(500.0)
  {
    if !status.Number? then Finite(500.0)
    else if JsLess(status.n, 100.0) || JsGreater(status.n, 599.0) then Finite(500.0)
    else status.n
  }

  /** The status values `sanitizeStatus` is meant to keep: numbers from 100 to 599. */
  predicate InStatusRange(status: StatusField)
  {
    status.Number? && status.n.Finite? && 100.0 <= status.n.value <= 599.0
  }

  /** `sanitizeStatus` as intended: an in-range number is kept, everything else, NaN included, is 500. */
  function SanitizeStatus(status: StatusField): (r: real)
    ensures 100.0 <= r <= 599.0
    ensures InStatusRange(status) ==> r == status.n.value
    ensures !InStatusRange(status) ==> r == 500.0
  {
    if InStatusRange(status) then status.n.value else 500.0
  }

  /** As written, NaN passes `sanitizeStatus` unchanged: it is a number and both comparisons are false. */
  lemma SanitizeStatusAsWrittenKeepsNaN()
    ensures SanitizeStatusAsWritten(Number(NaN)) == NaN
    ensures !InStatusRange(Number(NaN)) && SanitizeStatus(Number(NaN)) == 500.0
  {
  }

  /** On every input other than NaN, the code as written and the intended function agree. */
  lemma SanitizeStatusAgreesExceptNaN(status: StatusField)
    requires status != Number(NaN)
    ensures SanitizeStatusAsWritten(status) == Finite(SanitizeStatus(status))
  {
  }

  /** Sanitising an already sanitised status changes nothing. */
  lemma SanitizeStatusIdempotent(status: StatusField)
    ensures SanitizeStatus(Number(Finite(SanitizeStatus(status)))) == SanitizeStatus(status)
  {
  }

  // ---------------------------------------------------------------------------------------------
  // stackTraceFromError
  // ---------------------------------------------------------------------------------------------

  /** `stackTraceFromError`, given the value's `stack` property: its lines, or a single placeholder
      line when there is no stack. */
  function StackTraceFromError(stack: string): (lines: seq<string>)
    ensures |lines| >= 1
    ensures forall i :: 0 <= i < |lines| ==> '\n' !in lines[i]
    ensures stack == "" ==> lines == [NoStacktrace]
    ensures stack != "" ==> JsString.Join(lines, '\n') == stack
  {
    if stack != "" then
      JsString.JoinSplit(stack, '\n');
      JsString.Split(stack, '\n')
    else [NoStacktrace]
  }

  // ---------------------------------------------------------------------------------------------
  // genericErrorHandler
  // ---------------------------------------------------------------------------------------------

  /** The failure raised inside the handler's `try` block: its message and its stack. */
  datatype InnerFailure = InnerFailure(message: string, stack: string)

  /** The TypeError an engine raises when the handler reads `stack` of a thrown null or undefined. */
  function StackReadFailure(isNull: bool, typeErrorStack: string): InnerFailure
  {
    InnerFailure("Cannot read properties of " + (if isNull then "null" else "undefined") + " (reading 'stack')",
                 typeErrorStack)
  }

  /** `details`: the thrown value's message when it has one, else its serialisation. */
  function Details(e: Thrown): string
    requires e.Thrown?
  {
    if e.message != "" then e.message else e.serialized
  }

  /** The `try` block of `genericErrorHandler`, a chain of tests where the first match wins. */
  function Attempt(headersSent: bool, e: Thrown): Result<Outcome, InnerFailure>
  {
    if headersSent then Success(Delegate(e))
    else if e.Thrown? && SyntaxErrorClass in e.classes then
      Success(Respond(400.0, ErrorEnvelope(ForProd(InvalidJsonCode, InvalidJsonMessage))))
    else if e.Thrown? && RouteNotFoundErrorClass in e.classes then
      Success(Respond(404.0, ErrorEnvelope(ForProd(RouteDoesNotExistCode, RouteDoesNotExistMessage))))
    else if e.Thrown? && MethodNotAllowedErrorClass in e.classes then
      Success(Respond(405.0, ErrorEnvelope(ForProd(MethodNotAllowedCode, MethodNotAllowedMessage))))
    else if e.Thrown? && NotAcceptableErrorClass in e.classes then
      Success(Respond(406.0, ErrorEnvelope(ForProd(NotAcceptableCode, NotAcceptableMessage))))
    else if e.Thrown? && ApplicationErrorClass in e.classes then
      Success(Respond(if e.isRecordNotFound then 404.0 else 400.0, ErrorEnvelope(ForProd(e.code, e.message))))
    else if e.Nullish? then
      // stackTraceFromError reads `error.stack` of null or undefined
      Failure(StackReadFailure(e.isNull, e.typeErrorStack))
    else if RequestErrorClass in e.classes then
      Success(Respond(SanitizeStatus(e.status),
                      ErrorEnvelope(ForDev(e.code, e.reason, StackTraceFromError(e.stack), Details(e)))))
    else
      Success(Respond(500.0, ErrorEnvelope(ForDev(UnexpectedCode, UnexpectedMessage, StackTraceFromError(e.stack), Details(e)))))
  }

  /** The `catch` block: the fixed envelope for a failure inside the handler itself. */
  function Fallback(f: InnerFailure): (o: Outcome)
    ensures o.Respond? && o.status == 500.0
    ensures o.body.error.code == ErrorInErrorHandlerCode
    ensures o.body.error.message ==
      "The error handler ran into an error, caused by '" + f.message + "', this should not happen"
    ensures o.body.error.details == Some(ErrorInErrorHandlerDetails)
    ensures o.body.error.stacktrace == Some(StackTraceFromError(f.stack))
  {
    Respond(500.0, ErrorEnvelope(ForDev(
      ErrorInErrorHandlerCode,
      "The error handler ran into an error, caused by '" + f.message + "', this should not happen",
      StackTraceFromError(f.stack),
      ErrorInErrorHandlerDetails)))
  }

  /** `genericErrorHandler` as a function of `res.headersSent` and the thrown value. It delegates
      exactly when headers were sent; every status it writes is a valid HTTP status. */
  function Normalize(headersSent: bool, e: Thrown): (o: Outcome)
    ensures o.Delegate? <==> headersSent
    ensures o.Delegate? ==> o.error == e
    ensures o.Respond? ==> 100.0 <= o.status <= 599.0
  {
    match Attempt(headersSent, e)
    case Success(o) => o
    case Failure(f) => Fallback(f)
  }

  // ---------------------------------------------------------------------------------------------
  // Branches: each has its own test; a branch fires when its test holds and no earlier one does
  // ---------------------------------------------------------------------------------------------

  datatype Branch =
    | HeadersSent
    | InvalidJson
    | RouteMissing
    | MethodNotAllowed
    | NotAcceptable
    | Application
    | HandlerFailure
    | Request
    | Unexpected

  /** The position of a branch in the handler's chain of tests. */
  function Rank(b: Branch): nat
  {
    match b
    case HeadersSent => 0
    case InvalidJson => 1
    case RouteMissing => 2
    case MethodNotAllowed => 3
    case NotAcceptable => 4
    case Application => 5
    case HandlerFailure => 6
    case Request => 7
    case Unexpected => 8
  }

  /** The test of one branch, taken on its own. */
  predicate Matches(b: Branch, headersSent: bool, e: Thrown)
  {
    match b
    case HeadersSent => headersSent
    case InvalidJson => e.Thrown? && SyntaxErrorClass in e.classes
    case RouteMissing => e.Thrown? && RouteNotFoundErrorClass in e.classes
    case MethodNotAllowed => e.Thrown? && MethodNotAllowedErrorClass in e.classes
    case NotAcceptable => e.Thrown? && NotAcceptableErrorClass in e.classes
    case Application => e.Thrown? && ApplicationErrorClass in e.classes
    case HandlerFailure => e.Nullish?
    case Request => e.Thrown? && RequestErrorClass in e.classes
    case Unexpected => e.Thrown?
  }

  /** Branch `b` fires: its test holds and the test of every earlier branch fails. */
  predicate Fires(b: Branch, headersSent: bool, e: Thrown)
  {
    Matches(b, headersSent, e) && forall b' :: Rank(b') < Rank(b) ==> !Matches(b', headersSent, e)
  }

  /** Exactly one branch fires for every input. */
  lemma ExactlyOneBranchFires(headersSent: bool, e: Thrown)
    ensures exists b :: Fires(b, headersSent, e)
    ensures forall b1, b2 :: Fires(b1, headersSent, e) && Fires(b2, headersSent, e) ==> b1 == b2
  {
    var b :=
      if Matches(HeadersSent, headersSent, e) then HeadersSent
      else if Matches(InvalidJson, headersSent, e) then InvalidJson
      else if Matches(RouteMissing, headersSent, e) then RouteMissing
      else if Matches(MethodNotAllowed, headersSent, e) then MethodNotAllowed
      else if Matches(NotAcceptable, headersSent, e) then NotAcceptable
      else if Matches(Application, headersSent, e) then Application
      else if Matches(HandlerFailure, headersSent, e) then HandlerFailure
      else if Matches(Request, headersSent, e) then Request
      else Unexpected;
    assert Fires(b, headersSent, e);
    forall b1, b2 | Fires(b1, headersSent, e) && Fires(b2, headersSent, e) ensures b1 == b2 {
      assert Rank(b1) == Rank(b2);
    }
  }

  /** Headers already sent: the handler calls `next(error)` and writes nothing, whatever was thrown. */
  lemma HeadersSentDelegates(e: Thrown)
    ensures Normalize(true, e) == Delegate(e)
  {
  }

  /** A SyntaxError yields 400 with the invalid-JSON code, whatever other classes the value has. */
  lemma SyntaxErrorResponds400(e: Thrown)
    requires Fires(InvalidJson, false, e)
    ensures Normalize(false, e) == Respond(400.0, ErrorEnvelope(ForProd(InvalidJsonCode, InvalidJsonMessage)))
  {
  }

  /** A RouteNotFoundError that is not a SyntaxError yields 404 with the route-does-not-exist code. */
  lemma RouteNotFoundResponds404(e: Thrown)
    requires Fires(RouteMissing, false, e)
    ensures Normalize(false, e) == Respond(404.0, ErrorEnvelope(ForProd(RouteDoesNotExistCode, RouteDoesNotExistMessage)))
  {
    assert !Matches(HeadersSent, false, e) && !Matches(InvalidJson, false, e);
  }

  /** Neither a SyntaxError nor a RouteNotFoundError is ever answered with 500. */
  lemma ClientErrorsNever500(e: Thrown)
    requires Fires(InvalidJson, false, e) || Fires(RouteMissing, false, e)
    ensures Normalize(false, e).Respond? && Normalize(false, e).status != 500.0
  {
  }

  /** MethodNotAllowedError yields 405 and NotAcceptableError 406, each with its fixed code. */
  lemma MethodAndAcceptErrors(e: Thrown)
    ensures Fires(MethodNotAllowed, false, e) ==>
      Normalize(false, e) == Respond(405.0, ErrorEnvelope(ForProd(MethodNotAllowedCode, MethodNotAllowedMessage)))
    ensures Fires(NotAcceptable, false, e) ==>
      Normalize(false, e) == Respond(406.0, ErrorEnvelope(ForProd(NotAcceptableCode, NotAcceptableMessage)))
  {
    if Fires(MethodNotAllowed, false, e) {
      assert !Matches(HeadersSent, false, e) && !Matches(InvalidJson, false, e) && !Matches(RouteMissing, false, e);
    }
    if Fires(NotAcceptable, false, e) {
      assert !Matches(HeadersSent, false, e) && !Matches(InvalidJson, false, e) && !Matches(RouteMissing, false, e) && !Matches(MethodNotAllowed, false, e);
    }
  }

  /** An ApplicationError keeps its code and message verbatim, without stack trace or details; the
      status is 404 exactly when it equals a record-not-found sentinel, otherwise 400. */
  lemma ApplicationErrorPassesThrough(e: Thrown)
    requires Fires(Application, false, e)
    ensures Normalize(false, e).Respond?
    ensures Normalize(false, e).body.error == HttpError(e.code, e.message, None, None)
    ensures Normalize(false, e).status == 404.0 <==> e.isRecordNotFound
    ensures !e.isRecordNotFound ==> Normalize(false, e).status == 400.0
  {
    assert !Matches(HeadersSent, false, e) && !Matches(InvalidJson, false, e) && !Matches(RouteMissing, false, e) && !Matches(MethodNotAllowed, false, e) && !Matches(NotAcceptable, false, e);
  }

  /** A RequestError answers with its own status, sanitised, and a developer envelope of its code,
      its reason, its stack trace lines and its details. */
  lemma RequestErrorUsesItsStatus(e: Thrown)
    requires Fires(Request, false, e)
    ensures Normalize(false, e) == Respond(SanitizeStatus(e.status),
      ErrorEnvelope(HttpError(e.code, e.reason, Some(StackTraceFromError(e.stack)), Some(Details(e)))))
    ensures InStatusRange(e.status) ==> Normalize(false, e).status == e.status.n.value
  {
    assert !Matches(HeadersSent, false, e) && !Matches(InvalidJson, false, e) && !Matches(RouteMissing, false, e) && !Matches(MethodNotAllowed, false, e) && !Matches(NotAcceptable, false, e) && !Matches(Application, false, e) && !Matches(HandlerFailure, false, e);
  }

  /** The status the RequestError branch hands to `res.status`, as written: the same number as
      `Normalize` writes, except for NaN, which the code passes on and `Normalize` turns into 500. */
  lemma RequestStatusAsWritten(e: Thrown)
    requires Fires(Request, false, e)
    ensures e.status != Number(NaN) ==> SanitizeStatusAsWritten(e.status) == Finite(Normalize(false, e).status)
    ensures e.status == Number(NaN) ==> SanitizeStatusAsWritten(e.status) == NaN && Normalize(false, e).status == 500.0
  {
    RequestErrorUsesItsStatus(e);
    if e.status != Number(NaN) {
      SanitizeStatusAgreesExceptNaN(e.status);
    }
  }

  /** Any other thrown value is answered with 500 and the unexpected-error code. */
  lemma UnknownErrorResponds500(e: Thrown)
    requires Fires(Unexpected, false, e)
    ensures Normalize(false, e) == Respond(500.0,
      ErrorEnvelope(HttpError(UnexpectedCode, UnexpectedMessage, Some(StackTraceFromError(e.stack)), Some(Details(e)))))
  {
    assert !Matches(HeadersSent, false, e) && !Matches(InvalidJson, false, e) && !Matches(RouteMissing, false, e) && !Matches(MethodNotAllowed, false, e) && !Matches(NotAcceptable, false, e) && !Matches(Application, false, e) && !Matches(HandlerFailure, false, e) && !Matches(Request, false, e);
  }

  /** The details of a developer envelope are the value's message if it has one, else its serialisation. */
  lemma DetailsRule(e: Thrown)
    requires Fires(Request, false, e) || Fires(Unexpected, false, e)
    ensures Normalize(false, e).body.error.details == Some(if e.message != "" then e.message else e.serialized)
  {
    if Fires(Request, false, e) {
      RequestErrorUsesItsStatus(e);
    } else {
      UnknownErrorResponds500(e);
    }
  }

  /** When the handler itself fails (a thrown null or undefined), it answers with the fixed
      500 envelope whose message names the inner failure. */
  lemma HandlerFailureFallsBack(e: Thrown)
    requires Fires(HandlerFailure, false, e)
    ensures Normalize(false, e) == Fallback(StackReadFailure(e.isNull, e.typeErrorStack))
    ensures Normalize(false, e).status == 500.0
    ensures Normalize(false, e).body.error.code == ErrorInErrorHandlerCode
  {
  }

  // ---------------------------------------------------------------------------------------------
  // The single effect on the response
  // ---------------------------------------------------------------------------------------------

  /** The parts of Express's `res` and `next` the handler touches: the headers-sent flag, the
      `res.status(s).json(body)` writes, and the calls of `next(error)`. */
  class Exchange {
    var headersSent: bool
    var writes: seq<(real, Envelope)>
    var forwarded: seq<Thrown>

    constructor (headersSent: bool)
      ensures this.headersSent == headersSent && writes == [] && forwarded == []
    {
      this.headersSent := headersSent;
      writes := [];
      forwarded := [];
    }

    /** `res.status(status).json(body)`: writes the response and with it the headers. */
    method Send(status: real, body: Envelope)
      modifies this
      ensures headersSent
      ensures writes == old(writes) + [(status, body)] && forwarded == old(forwarded)
    {
      writes := writes + [(status, body)];
      headersSent := true;
    }

    /** `next(error)`. */
    method Next(error: Thrown)
      modifies this
      ensures forwarded == old(forwarded) + [error]
      ensures writes == old(writes) && headersSent == old(headersSent)
    {
      forwarded := forwarded + [error];
    }
  }

  /** `genericErrorHandler(error, req, res, next)`: performs exactly one of `next(error)` or one
      response write, as `Normalize` decides. */
  method HandleError(error: Thrown, ex: Exchange)
    modifies ex
    ensures match Normalize(old(ex.headersSent), error)
      case Delegate(e) =>
        ex.forwarded == old(ex.forwarded) + [e] && ex.writes == old(ex.writes) && ex.headersSent == old(ex.headersSent)
      case Respond(s, b) =>
        ex.writes == old(ex.writes) + [(s, b)] && ex.forwarded == old(ex.forwarded) && ex.headersSent
  {
    var outcome := Normalize(ex.headersSent, error);
    match outcome
    case Delegate(e) => ex.Next(e);
    case Respond(s, b) => ex.Send(s, b);
  }

  /** Handling a second failure on the same exchange never writes a second response. */
  method HandleTwice(first: Thrown, second: Thrown, ex: Exchange)
    modifies ex
    ensures ex.headersSent
    ensures |ex.writes| <= |old(ex.writes)| + 1
    ensures |ex.forwarded| >= 1 && ex.forwarded[|ex.forwarded| - 1] == second
  {
    HandleError(first, ex);
    HandleError(second, ex);
  }
}
