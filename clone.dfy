/** `POST /default/copy`: validation of a clone request body, the
    coercion of its history flag, and the translation of the fleet's
    BadIdent fault. */
module Clone {
  import opened Wrappers
  import opened Text
  import opened Faults
  import opened JsValues
  import opened Numbers

  /** The fields of the posted body that the route reads; a missing field
      is `Undefined`. The same record, with its history coerced, is what
      `cloneInterZone` receives. */
  datatype CloneInfo = CloneInfo(zoneID: Value, clipID: Value, poolID: Value, priority: Value, history: Value)

  /** `Quantel.Priority.HIGH`, the largest priority accepted. */
  const HighPriority: int := 15

  const ZoneMessage: string :=
    "Bad request. Where present, a clone request must use a positive integer for the zone ID."
  const ClipMessage: string :=
    "Bad request. A clone request must have a positive integer for the source clip ID."
  const PoolMessage: string :=
    "Bad request. A clone request must have a positive integer for the destiniation pool ID."
  const PriorityMessage: string :=
    "Bad request. A clone request with priority specified must use an integer in the range 0 to 15."
  const HistoryMessage: string :=
    "Bad request. A history parameter for a clone request must be either 'true' or 'false'."

  /** The five checks, in the order the route makes them. An absent or
      zero zone ID or priority skips its check. */
  predicate ZoneOk(c: CloneInfo) { !InvalidOptional(c.zoneID) }
  predicate ClipOk(c: CloneInfo) { Positive(c.clipID) }
  predicate PoolOk(c: CloneInfo) { NonNegative(c.poolID) }
  predicate PriorityOk(c: CloneInfo)
  {
    !Truthy(c.priority) || (NonNegative(c.priority) && ToNumber(c.priority).value <= HighPriority)
  }
  predicate HistoryOk(c: CloneInfo) { CoerceHistory(c.history).Some? }

  /** The history flag: the strings "true" and "false" become booleans, a
      boolean or a falsy value passes unchanged, and any other truthy
      value is refused (None). */
  function CoerceHistory(h: Value): (r: Option<Value>)
    ensures r.None? <==> Truthy(h) && !h.Bool? && h != Str("true") && h != Str("false")
    ensures h == Str("true") ==> r == Some(Bool(true))
    ensures h == Str("false") ==> r == Some(Bool(false))
    ensures !Truthy(h) || h.Bool? ==> r == Some(h)
    ensures r.Some? && Truthy(h) ==> r.value.Bool?
  {
    if !Truthy(h) then Some(h)
    else
      var coerced := if h == Str("false") then Bool(false) else if h == Str("true") then Bool(true) else h;
      if coerced.Bool? then Some(coerced) else None
  }

  /** The body validation of `POST /default/copy`: the first failing
      check, in the order zone, clip, pool, priority, history, decides the
      400 message; when all pass, the body goes on with its history
      coerced. */
  function ValidateClone(c: CloneInfo): (r: Result<CloneInfo, JsonError>)
    ensures r == Err(Reject(400, ZoneMessage)) <==> !ZoneOk(c)
    ensures r == Err(Reject(400, ClipMessage)) <==> ZoneOk(c) && !ClipOk(c)
    ensures r == Err(Reject(400, PoolMessage)) <==> ZoneOk(c) && ClipOk(c) && !PoolOk(c)
    ensures r == Err(Reject(400, PriorityMessage)) <==>
      ZoneOk(c) && ClipOk(c) && PoolOk(c) && !PriorityOk(c)
    ensures r == Err(Reject(400, HistoryMessage)) <==>
      ZoneOk(c) && ClipOk(c) && PoolOk(c) && PriorityOk(c) && !HistoryOk(c)
    ensures r.Ok? <==> ZoneOk(c) && ClipOk(c) && PoolOk(c) && PriorityOk(c) && HistoryOk(c)
    ensures r.Ok? ==> r.value == c.(history := CoerceHistory(c.history).value)
  {
    if !ZoneOk(c) then Err(Reject(400, ZoneMessage))
    else if !ClipOk(c) then Err(Reject(400, ClipMessage))
    else if !PoolOk(c) then Err(Reject(400, PoolMessage))
    else if !PriorityOk(c) then Err(Reject(400, PriorityMessage))
    else match CoerceHistory(c.history)
      case None => Err(Reject(400, HistoryMessage))
      case Some(h) => Ok(c.(history := h))
  }

  /** The route's checks made as the source makes them, returning at the
      first failure and rewriting the history field of the body in place. */
  method CheckCloneRequest(body: CloneInfo) returns (r: Result<CloneInfo, JsonError>)
    ensures r == ValidateClone(body)
  {
    var clone := body;
    if Truthy(clone.zoneID) && !NonNegative(clone.zoneID) {
      return Err(Reject(400, ZoneMessage));
    }
    if !Positive(clone.clipID) {
      return Err(Reject(400, ClipMessage));
    }
    if !NonNegative(clone.poolID) {
      return Err(Reject(400, PoolMessage));
    }
    if Truthy(clone.priority) &&
       (!NonNegative(clone.priority) || ToNumber(clone.priority).value > HighPriority) {
      return Err(Reject(400, PriorityMessage));
    }
    if Truthy(clone.history) {
      if clone.history.Str? {
        if clone.history.s == "false" {
          clone := clone.(history := Bool(false));
        } else if clone.history.s == "true" {
          clone := clone.(history := Bool(true));
        }
      }
      if !clone.history.Bool? {
        return Err(Reject(400, HistoryMessage));
      }
    }
    return Ok(clone);
  }

  /** A label ending in an opening quote, the value, and the closing
      quote. */
  function Quoted(tag: string, v: string): string
  {
    tag + v + "'"
  }

  /** The 404 message of a BadIdent fault, quoting the three identifiers as
      they were posted (an absent zone ID prints as "undefined"). */
  function BadIdentMessage(c: CloneInfo): string
  {
    "Not found. One of the " + Quoted("source clip ID '", ToText(c.clipID)) +
    ", " + Quoted("source zone ID '", ToText(c.zoneID)) +
    " or " + Quoted("destiniation pool ID '", ToText(c.poolID)) + " was not found."
  }

  /** The whole route: a body the parser refused is answered with the
      parser's message; then validation; then the fleet's answer, where
      BadIdent becomes a 404 and any other fault escapes. */
  function CloneRoute<T>(body: RequestBody<CloneInfo>, reply: Reply<T>): (r: Response<T>)
    ensures body.Unparsable? ==> r == Refuse(Reject(400, body.message))
    ensures body.Parsed? && ValidateClone(body.body).Err? ==> r == Refuse(ValidateClone(body.body).error)
    ensures body.Parsed? && ValidateClone(body.body).Ok? ==>
      r == NotFoundOnBadIdent(reply, BadIdentMessage(ValidateClone(body.body).value))
  {
    match body
    case Unparsable(m) => Refuse(Reject(400, m))
    case Parsed(c) =>
      match ValidateClone(c)
      case Err(e) => Refuse(e)
      case Ok(clone) => NotFoundOnBadIdent(reply, BadIdentMessage(clone))
  }

  /** A request that fails validation never reaches the fleet: its answer
      is the same whatever the fleet would have replied. */
  lemma InvalidCloneNeedsNoFleet<T>(body: RequestBody<CloneInfo>, r1: Reply<T>, r2: Reply<T>)
    requires body.Unparsable? || ValidateClone(body.body).Err?
    ensures CloneRoute(body, r1) == CloneRoute(body, r2)
    ensures CloneRoute(body, r1).Refuse? && CloneRoute(body, r1).error.status == 400
  {
  }

  /** The BadIdent answer quotes each of the three submitted identifiers
      between single quotes, right after its own label, whatever the
      coerced history. */
  lemma BadIdentQuotesIdentifiers<T>(c: CloneInfo, f: Fault)
    requires ValidateClone(c).Ok? && Occurs(f.message, "BadIdent")
    ensures var r := CloneRoute(Parsed(c), Reply<T>.Threw(f));
      r.Refuse? && r.error.status == 404 &&
      Occurs(r.error.message, "source clip ID '" + ToText(c.clipID) + "'") &&
      Occurs(r.error.message, "source zone ID '" + ToText(c.zoneID) + "'") &&
      Occurs(r.error.message, "destiniation pool ID '" + ToText(c.poolID) + "'")
  {
    var q1 := Quoted("source clip ID '", ToText(c.clipID));
    var q2 := Quoted("source zone ID '", ToText(c.zoneID));
    var q3 := Quoted("destiniation pool ID '", ToText(c.poolID));
    var p, s1, s2, s3 := "Not found. One of the ", ", ", " or ", " was not found.";
    var m := BadIdentMessage(c);
    assert m == p + q1 + s1 + q2 + s2 + q3 + s3;
    assert CloneRoute(Parsed(c), Reply<T>.Threw(f)) == Refuse(Reject(404, m));
    OccursAfter(p, q1);
    OccursAtExtend(p + q1, s1, q1, |p|);
    OccursAtExtend(p + q1 + s1, q2, q1, |p|);
    OccursAtExtend(p + q1 + s1 + q2, s2, q1, |p|);
    OccursAtExtend(p + q1 + s1 + q2 + s2, q3, q1, |p|);
    OccursAtExtend(p + q1 + s1 + q2 + s2 + q3, s3, q1, |p|);
    OccursAfter(p + q1 + s1, q2);
    OccursAtExtend(p + q1 + s1 + q2, s2, q2, |p + q1 + s1|);
    OccursAtExtend(p + q1 + s1 + q2 + s2, q3, q2, |p + q1 + s1|);
    OccursAtExtend(p + q1 + s1 + q2 + s2 + q3, s3, q2, |p + q1 + s1|);
    OccursAfter(p + q1 + s1 + q2 + s2, q3);
    OccursAtExtend(p + q1 + s1 + q2 + s2 + q3, s3, q3, |p + q1 + s1 + q2 + s2|);
  }

  /** The route's tests: a zone ID of "wtf", a clip ID of -321, a pool ID
      of "wtf", a priority of 16 and a history of "wtf" each draw their own
      message, and a history of "wtf" behind a priority of 16 draws the
      priority message. */
  lemma CloneValidationExamples()
    ensures ValidateClone(CloneInfo(Str("wtf"), Num(1234), Num(4321), Num(15), Undefined))
      == Err(Reject(400, ZoneMessage))
    ensures ValidateClone(CloneInfo(Num(1000), Num(-321), Num(4321), Num(15), Undefined))
      == Err(Reject(400, ClipMessage))
    ensures ValidateClone(CloneInfo(Num(1000), Num(1234), Str("wtf"), Num(15), Undefined))
      == Err(Reject(400, PoolMessage))
    ensures ValidateClone(CloneInfo(Num(1000), Num(1234), Num(4321), Num(16), Str("wtf")))
      == Err(Reject(400, PriorityMessage))
    ensures ValidateClone(CloneInfo(Num(1000), Num(1234), Num(4321), Num(15), Str("wtf")))
      == Err(Reject(400, HistoryMessage))
    ensures ValidateClone(CloneInfo(Undefined, Num(1234), Num(4321), Num(15), Undefined))
      == Ok(CloneInfo(Undefined, Num(1234), Num(4321), Num(15), Undefined))
  {
    assert !IsDigit('w');
  }
}
