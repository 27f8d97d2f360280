/** The gateway's outermost middleware: after the router has run, a 404
    left without a body gets a JSON "not found" body, and any fault that
    escaped a route is turned into a status and a JSON error body. */
module Middleware {
  import opened Faults
  import opened JsValues

  /** A response body: not set, a JSON error, or a route's answer. */
  datatype Body = NoBody | ErrorBody(error: JsonError) | Payload(value: Value)

  /** `ctx.body` as a condition. */
  predicate HasBody(b: Body)
  {
    match b
    case NoBody => false
    case ErrorBody(_) => true
    case Payload(v) => Truthy(v)
  }

  /** How `await next()` ended: normally, or by throwing. */
  datatype Outcome = Finished | Failed(fault: Fault)

  /** The part of the context the middleware reads and writes. */
  datatype Snapshot = Snapshot(status: int, body: Body)

  function NotFoundBody(verb: string, path: string): JsonError
  {
    Reject(404, "Not found. Request " + verb + " " + path)
  }

  /** The response the middleware leaves, given the one the router left. */
  function Settled(s: Snapshot, verb: string, path: string, outcome: Outcome): (t: Snapshot)
    ensures outcome.Failed? ==> t == Snapshot(HandleFault(outcome.fault).status, ErrorBody(HandleFault(outcome.fault)))
    ensures outcome.Finished? && s.status == 404 && !HasBody(s.body) ==>
      t == Snapshot(404, ErrorBody(NotFoundBody(verb, path)))
    ensures outcome.Finished? && (s.status != 404 || HasBody(s.body)) ==> t == s
  {
    match outcome
    case Failed(f) =>
      var e := HandleFault(f);
      Snapshot(e.status, ErrorBody(e))
    case Finished =>
      if s.status == 404 && !HasBody(s.body)
      then Snapshot(404, ErrorBody(NotFoundBody(verb, path)))
      else s
  }

  /** Every response the middleware leaves with status 404 has a body, and
      an error body always carries the response's own status. */
  lemma SettledNotFoundHasBody(s: Snapshot, verb: string, path: string, outcome: Outcome)
    ensures var t := Settled(s, verb, path, outcome);
      t.status == 404 ==> HasBody(t.body)
    ensures var t := Settled(s, verb, path, outcome);
      outcome.Failed? ==> t.body.ErrorBody? && t.body.error.status == t.status && t.status != 0
  {
  }

  /** Settling a finished request twice changes nothing the first time did
      not. */
  lemma SettledIdempotent(s: Snapshot, verb: string, path: string)
    ensures Settled(Settled(s, verb, path, Finished), verb, path, Finished) ==
      Settled(s, verb, path, Finished)
  {
  }

  /** A request no route matched keeps Koa's initial 404 without a body
      and is answered with the request's method and path. */
  lemma UnmatchedRequest(verb: string, path: string)
    ensures Settled(Snapshot(404, NoBody), verb, path, Finished).body.error.message ==
      "Not found. Request " + verb + " " + path
  {
  }

  /** The request context as the middleware and the routes see it. */
  class Context {
    const verb: string   // the request method
    const path: string
    var status: int
    var body: Body

    function State(): Snapshot
      reads this
    {
      Snapshot(status, body)
    }

    /** A fresh context: Koa starts every response at 404 with no body. */
    constructor(verb: string, path: string)
      ensures this.verb == verb && this.path == path
      ensures State() == Snapshot(404, NoBody)
    {
      this.verb := verb;
      this.path := path;
      status := 404;
      body := NoBody;
    }

    /** What a route does to the context: an answer becomes the body (Koa
      then reports 200), a refusal sets the status and the error body, and
      a fault leaves the context alone and escapes. */
    method Respond(r: Response<Value>) returns (outcome: Outcome)
      modifies this
      ensures r.Answer? ==> State() == Snapshot(200, Payload(r.value)) && outcome == Finished
      ensures r.Refuse? ==> State() == Snapshot(r.error.status, ErrorBody(r.error)) && outcome == Finished
      ensures r.Raise? ==> State() == old(State()) && outcome == Failed(r.fault)
    {
      match r {
        case Answer(v) =>
          body := Payload(v);
          status := 200;
          outcome := Finished;
        case Refuse(e) =>
          status := e.status;
          body := ErrorBody(e);
          outcome := Finished;
        case Raise(f) =>
          outcome := Failed(f);
      }
    }

    /** The middleware's code after `await next()` and in its catch block. */
    method Settle(outcome: Outcome)
      modifies this
      ensures State() == Settled(old(State()), verb, path, outcome)
    {
      match outcome {
        case Finished =>
          if status == 404 && !HasBody(body) {
            body := ErrorBody(NotFoundBody(verb, path));
            status := 404;
          }
        case Failed(f) =>
          var e := HandleFault(f);
          status := e.status;
          body := ErrorBody(e);
      }
    }
  }
}
