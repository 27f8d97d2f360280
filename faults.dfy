/** Faults thrown by the fleet's remote calls, the JSON error body every
    handler answers with, and the two fault translators of the gateway: the
    per-route "BadIdent means 404" catch blocks and the global error
    middleware that turns any escaped fault into a status and a body. */
module Faults {
  import opened Wrappers
  import opened Text

  /** The `{ status, message, stack }` body of every error response. */
  datatype JsonError = JsonError(status: int, message: string, stack: string)

  /** An error thrown by a remote call or rethrown by a handler. `status`
      and `statusCode` are the optional numeric properties Koa reads;
      `connectError` says whether it is a `Quantel.ConnectError`. */
  datatype Fault = Fault(
    message: string,
    status: Option<int>,
    statusCode: Option<int>,
    connectError: bool,
    stack: string)

  /** What an awaited remote call does: return a value or throw. */
  datatype Reply<+T> = Returned(value: T) | Threw(fault: Fault)

  /** What a route handler does with a request: answer with a body, answer
      with an error body (its status set to match), or let a fault escape
      to the error middleware. */
  datatype Response<+T> = Answer(value: T) | Refuse(error: JsonError) | Raise(fault: Fault)

  /** A request body as the body parser leaves it: parsed, or refused with
      the parser's error message (its `onerror` hook answers 400 and the
      POST routes then return at once). */
  datatype RequestBody<+T> = Parsed(body: T) | Unparsable(message: string)

  /** An error body with an empty stack, as every validation failure has. */
  function Reject(status: int, message: string): JsonError
  {
    JsonError(status, message, "")
  }

  /** The catch block of the lookup routes: a fault whose message mentions
      BadIdent becomes a 404 with the route's message, every other fault is
      rethrown unchanged, and a returned value is the answer. */
  function NotFoundOnBadIdent<T>(reply: Reply<T>, message: string): (r: Response<T>)
    ensures r.Answer? <==> reply.Returned?
    ensures r.Answer? ==> r.value == reply.value
    ensures r.Refuse? <==> reply.Threw? && Occurs(reply.fault.message, "BadIdent")
    ensures r.Refuse? ==> r.error == Reject(404, message)
    ensures r.Raise? ==> r.fault == reply.fault
  {
    ContainsIsOccurs(if reply.Threw? then reply.fault.message else "", "BadIdent");
    match reply
    case Returned(v) => Answer(v)
    case Threw(f) =>
      if Contains(f.message, "BadIdent") then Refuse(Reject(404, message)) else Raise(f)
  }

  /** A route that only validates and forwards: a refused request is
      answered with its error body and the fleet is not asked; otherwise
      the fleet's answer is the route's answer and its fault escapes
      unchanged (`catch (err) { throw err }`). */
  function Guarded<P, T>(check: Result<P, JsonError>, reply: Reply<T>): (r: Response<T>)
    ensures r.Refuse? <==> check.Err?
    ensures r.Refuse? ==> r.error == check.error
    ensures check.Ok? ==> (r.Answer? <==> reply.Returned?)
    ensures r.Answer? ==> r.value == reply.value
    ensures r.Raise? ==> reply.Threw? && r.fault == reply.fault
  {
    match check
    case Err(e) => Refuse(e)
    case Ok(_) =>
      match reply
      case Returned(v) => Answer(v)
      case Threw(f) => Raise(f)
  }

  /** A decision turned into what the handler does: an accepted value is
      the answer, a refusal its error body; nothing escapes. */
  function FromResult<T>(x: Result<T, JsonError>): (r: Response<T>)
    ensures r.Answer? <==> x.Ok?
    ensures r.Answer? ==> r.value == x.value
    ensures r.Refuse? <==> x.Err?
    ensures r.Refuse? ==> r.error == x.error
  {
    match x
    case Ok(v) => Answer(v)
    case Err(e) => Refuse(e)
  }

  /** A route that first awaits a fleet call outside any `try` and then
      decides on its result: the call's fault escapes unchanged, otherwise
      the decision is the answer. */
  function Lift<S, T>(reply: Reply<S>, decide: S -> Result<T, JsonError>): (r: Response<T>)
    ensures r.Raise? <==> reply.Threw?
    ensures r.Raise? ==> r.fault == reply.fault
    ensures reply.Returned? ==> r == FromResult(decide(reply.value))
  {
    match reply
    case Returned(v) => FromResult(decide(v))
    case Threw(f) => Raise(f)
  }

  /** `a || b` on an optional status: a missing or zero status is falsy. */
  function StatusOr(a: Option<int>, b: int): (r: int)
    ensures r == b || (a.Some? && r == a.value)
  {
    if a.Some? && a.value != 0 then a.value else b
  }

  const TransientMessage: string :=
    "Bad gateway. CORBA subsystem reports a transient connection problem. Check network connection and/or ISA server status."

  /** The catch block of the error middleware: a TRANSIENT fault is
      reworded and given status code 502; the response status is then
      `err.statusCode || err.status || 500` and the body carries the
      (possibly reworded) message and the stack. */
  function HandleFault(f: Fault): (e: JsonError)
    ensures e.status != 0
    ensures e.stack == f.stack
    ensures Occurs(f.message, "TRANSIENT") ==> e.status == 502 && e.message == TransientMessage
    ensures !Occurs(f.message, "TRANSIENT") ==> e.message == f.message
    ensures !Occurs(f.message, "TRANSIENT") && (f.statusCode.None? || f.statusCode.value == 0) ==>
      e.status == StatusOr(f.status, 500)
    ensures !Occurs(f.message, "TRANSIENT") && f.statusCode.Some? && f.statusCode.value != 0 ==>
      e.status == f.statusCode.value
  {
    ContainsIsOccurs(f.message, "TRANSIENT");
    var g := if Contains(f.message, "TRANSIENT")
      then f.(message := TransientMessage, statusCode := Some(502))
      else f;
    var status := StatusOr(g.statusCode, StatusOr(g.status, 500));
    JsonError(status, g.message, g.stack)
  }
}
