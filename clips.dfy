/** The format, copy-progress, clip and clip-search routes: each checks its
    identifier or query before asking the fleet, and each turns the
    fleet's BadIdent (or BadColumnData) fault, or an empty fragment list,
    into a fixed error answer. */
module Clips {
  import opened Wrappers
  import opened Text
  import opened Numbers
  import opened Faults
  import opened JsValues

  /** The largest format number, a 16-bit unsigned value. */
  const MaxFormat: int := 65535

  const FormatMessage: string := "Bad request. Format ID must be a non-negative short number."
  const CopyMessage: string := "Bad request. Copy ID is a clip ID that must be a positive integer."
  const ClipMessage: string := "Bad request. Clip ID must be a positive number."

  /** `GET /default/format/:formatID`, before the fleet is asked: the
      number forwarded, or 400 when the identifier is not a number in
      [0, 65535]. */
  function FormatRequest(id: string): (r: Result<int, JsonError>)
    ensures r.Ok? <==> ParseNumber(id).Some? && 0 <= ParseNumber(id).value <= MaxFormat
    ensures r.Ok? ==> Some(r.value) == ParseNumber(id)
    ensures r.Err? ==> r.error == Reject(400, FormatMessage)
  {
    match ParseNumber(id)
    case Some(n) => if 0 <= n <= MaxFormat then Ok(n) else Err(Reject(400, FormatMessage))
    case None => Err(Reject(400, FormatMessage))
  }

  /** Every 16-bit format number, written in decimal, is forwarded as
      itself; every number outside that range is refused. */
  lemma FormatNumbersRoundTrip(n: int)
    ensures 0 <= n <= MaxFormat ==> FormatRequest(ShowInt(n)) == Ok(n)
    ensures !(0 <= n <= MaxFormat) ==> FormatRequest(ShowInt(n)).Err?
  {
    ParseShowInt(n);
  }

  function FormatNotFound(id: string): string
  {
    "Not found. A format with identifier '" + id + "' was not found."
  }

  /** The whole format route. */
  function FormatRoute<T>(id: string, reply: Reply<T>): (r: Response<T>)
    ensures r.Refuse? && r.error.status == 400 <==> FormatRequest(id).Err?
    ensures r.Refuse? && r.error.status == 400 ==> r.error == FormatRequest(id).error
    ensures r.Answer? <==> FormatRequest(id).Ok? && reply.Returned?
    ensures r.Answer? ==> r.value == reply.value
    ensures r == Refuse(Reject(404, FormatNotFound(id))) <==>
      FormatRequest(id).Ok? && reply.Threw? && Occurs(reply.fault.message, "BadIdent")
    ensures r.Raise? <==> FormatRequest(id).Ok? && reply.Threw? && !Occurs(reply.fault.message, "BadIdent")
    ensures r.Raise? ==> r.fault == reply.fault
  {
    match FormatRequest(id)
    case Err(e) => Refuse(e)
    case Ok(_) => NotFoundOnBadIdent(reply, FormatNotFound(id))
  }

  /** `GET /default/copy/:copyID`, before the fleet is asked: the clip ID
      forwarded, or 400 unless it is a number of at least 1. */
  function CopyRequest(id: string): (r: Result<int, JsonError>)
    ensures r.Ok? <==> ParseNumber(id).Some? && ParseNumber(id).value >= 1
    ensures r.Ok? ==> Some(r.value) == ParseNumber(id)
    ensures r.Err? ==> r.error == Reject(400, CopyMessage)
  {
    match ParseNumber(id)
    case Some(n) => if n >= 1 then Ok(n) else Err(Reject(400, CopyMessage))
    case None => Err(Reject(400, CopyMessage))
  }

  function CopyNotFound(id: string): string
  {
    "Not found. A copy associated with clip ID '" + id + "' was not found."
  }

  /** The whole copy-progress route. */
  function CopyRoute<T>(id: string, reply: Reply<T>): (r: Response<T>)
    ensures r.Refuse? && r.error.status == 400 <==> CopyRequest(id).Err?
    ensures r.Refuse? && r.error.status == 400 ==> r.error == CopyRequest(id).error
    ensures r.Answer? <==> CopyRequest(id).Ok? && reply.Returned?
    ensures r.Answer? ==> r.value == reply.value
    ensures r == Refuse(Reject(404, CopyNotFound(id))) <==>
      CopyRequest(id).Ok? && reply.Threw? && Occurs(reply.fault.message, "BadIdent")
    ensures r.Raise? <==> CopyRequest(id).Ok? && reply.Threw? && !Occurs(reply.fault.message, "BadIdent")
    ensures r.Raise? ==> r.fault == reply.fault
  {
    match CopyRequest(id)
    case Err(e) => Refuse(e)
    case Ok(_) => NotFoundOnBadIdent(reply, CopyNotFound(id))
  }

  /** The clip ID check of the clip routes (get, delete, fragments and
      fragment range): any non-negative number, 0 included, although the
      message asks for a positive one. */
  function ClipRequest(id: string): (r: Result<int, JsonError>)
    ensures r.Ok? <==> ParseNumber(id).Some? && ParseNumber(id).value >= 0
    ensures r.Ok? ==> Some(r.value) == ParseNumber(id)
    ensures r.Err? ==> r.error == Reject(400, ClipMessage)
  {
    match ParseNumber(id)
    case Some(n) => if n >= 0 then Ok(n) else Err(Reject(400, ClipMessage))
    case None => Err(Reject(400, ClipMessage))
  }

  /** The clip check accepts 0, which the copy check refuses; both refuse
      text that is not a number. */
  lemma ZeroIsAClipButNotACopy()
    ensures ClipRequest("0") == Ok(0)
    ensures CopyRequest("0").Err?
    ensures ClipRequest("wtf").Err? && CopyRequest("wtf").Err?
  {
    assert ParseNumber("0") == Some(0) by {
      assert AllDigits("0") && DigitsValue("0") == 0;
    }
    assert !IsDigit('w');
  }

  function ClipNotFound(id: string): string
  {
    "Not found. A clip with identifier '" + id + "' was not found."
  }

  /** `GET /default/clip/:clipID`: the clip check, then `getClip`, whose
      BadIdent fault is a 404 naming the clip. */
  function ClipRoute<T>(id: string, reply: Reply<T>): (r: Response<T>)
    ensures r.Refuse? && r.error.status == 400 <==> ClipRequest(id).Err?
    ensures r.Refuse? && r.error.status == 400 ==> r.error == ClipRequest(id).error
    ensures r.Answer? <==> ClipRequest(id).Ok? && reply.Returned?
    ensures r.Answer? ==> r.value == reply.value
    ensures r == Refuse(Reject(404, ClipNotFound(id))) <==>
      ClipRequest(id).Ok? && reply.Threw? && Occurs(reply.fault.message, "BadIdent")
    ensures r.Raise? <==> ClipRequest(id).Ok? && reply.Threw? && !Occurs(reply.fault.message, "BadIdent")
    ensures r.Raise? ==> r.fault == reply.fault
  {
    match ClipRequest(id)
    case Err(e) => Refuse(e)
    case Ok(_) => NotFoundOnBadIdent(reply, ClipNotFound(id))
  }

  /** The body of a delete: `{ deleted: <what deleteClip returned> }`. */
  datatype Deleted<T> = Deleted(deleted: T)

  /** `DELETE /default/clip/:clipID`: the same check and the same BadIdent
      translation as the get route, with the fleet's result wrapped as
      `deleted`. */
  function DeleteClipRoute<T>(id: string, reply: Reply<T>): (r: Response<Deleted<T>>)
    ensures r.Refuse? && r.error.status == 400 <==> ClipRequest(id).Err?
    ensures r.Refuse? && r.error.status == 400 ==> r.error == ClipRequest(id).error
    ensures r.Answer? <==> ClipRequest(id).Ok? && reply.Returned?
    ensures r.Answer? ==> r.value == Deleted(reply.value)
    ensures r == Refuse(Reject(404, ClipNotFound(id))) <==>
      ClipRequest(id).Ok? && reply.Threw? && Occurs(reply.fault.message, "BadIdent")
    ensures r.Raise? <==> ClipRequest(id).Ok? && reply.Threw? && !Occurs(reply.fault.message, "BadIdent")
    ensures r.Raise? ==> r.fault == reply.fault
  {
    match ClipRequest(id)
    case Err(e) => Refuse(e)
    case Ok(_) =>
      match reply
      case Returned(v) => Answer(Deleted(v))
      case Threw(f) => NotFoundOnBadIdent(Reply<Deleted<T>>.Threw(f), ClipNotFound(id))
  }

  /** The fragments of a clip as the fleet returns them. */
  datatype ServerFragments = ServerFragments(clipID: int, fragments: seq<Value>)

  /** `GET /default/clip/:clipID/fragments`: an empty fragment list is
      answered like an unknown clip. */
  function FragmentsRoute(id: string, reply: Reply<ServerFragments>): (r: Response<ServerFragments>)
    ensures ClipRequest(id).Err? ==> r == Refuse(ClipRequest(id).error)
    ensures r.Answer? ==> reply == Returned(r.value) && |r.value.fragments| > 0
    ensures ClipRequest(id).Ok? && reply.Returned? && |reply.value.fragments| > 0 ==>
      r == Answer(reply.value)
    ensures ClipRequest(id).Ok? && reply.Returned? && |reply.value.fragments| == 0 ==>
      r == Refuse(Reject(404, ClipNotFound(id)))
    ensures ClipRequest(id).Ok? && reply.Threw? ==> r == NotFoundOnBadIdent(reply, ClipNotFound(id))
  {
    match ClipRequest(id)
    case Err(e) => Refuse(e)
    case Ok(_) =>
      match reply
      case Returned(f) =>
        if |f.fragments| > 0 then Answer(f) else Refuse(Reject(404, ClipNotFound(id)))
      case Threw(_) => NotFoundOnBadIdent(reply, ClipNotFound(id))
  }

  const InMessage: string := "Bad request. In point must be a positive number."
  const OutMessage: string := "Bad request. Out point must be a positive number."
  const OrderMessage: string := "Bad request. Out point must be after in point."

  /** What `getFragments` receives for a range query. */
  datatype FragmentRange = FragmentRange(clipID: int, start: int, finish: int)

  predicate NonNegativeText(s: string)
  {
    ParseNumber(s).Some? && ParseNumber(s).value >= 0
  }

  /** `GET /default/clip/:clipID/fragments/:in-:out`, before the fleet is
      asked: the clip ID, the in point and the out point are checked in
      that order, then an out point not after the in point is refused. */
  function RangeRequest(id: string, inPoint: string, outPoint: string): (r: Result<FragmentRange, JsonError>)
    ensures r == Err(Reject(400, ClipMessage)) <==> !NonNegativeText(id)
    ensures r == Err(Reject(400, InMessage)) <==> NonNegativeText(id) && !NonNegativeText(inPoint)
    ensures r == Err(Reject(400, OutMessage)) <==>
      NonNegativeText(id) && NonNegativeText(inPoint) && !NonNegativeText(outPoint)
    ensures r == Err(Reject(400, OrderMessage)) <==>
      NonNegativeText(id) && NonNegativeText(inPoint) && NonNegativeText(outPoint) &&
      ParseNumber(outPoint).value <= ParseNumber(inPoint).value
    ensures r.Err? ==>
      r.error in {Reject(400, ClipMessage), Reject(400, InMessage), Reject(400, OutMessage), Reject(400, OrderMessage)}
    ensures r.Ok? ==>
      Some(r.value.clipID) == ParseNumber(id) && Some(r.value.start) == ParseNumber(inPoint) &&
      Some(r.value.finish) == ParseNumber(outPoint) && 0 <= r.value.start < r.value.finish
  {
    if !NonNegativeText(id) then Err(Reject(400, ClipMessage))
    else if !NonNegativeText(inPoint) then Err(Reject(400, InMessage))
    else if !NonNegativeText(outPoint) then Err(Reject(400, OutMessage))
    else
      var start, finish := ParseNumber(inPoint).value, ParseNumber(outPoint).value;
      if finish <= start then Err(Reject(400, OrderMessage))
      else Ok(FragmentRange(ParseNumber(id).value, start, finish))
  }

  function RangeNotFound(id: string): string
  {
    "Not found. A clip with identifier '" + id + "' was not found or range is outside of clip boundary."
  }

  /** The whole range route: a refused range never reaches the fleet, and
      an empty answer is a 404 that also blames the range. */
  function RangeRoute(id: string, inPoint: string, outPoint: string, reply: Reply<ServerFragments>)
    : (r: Response<ServerFragments>)
    ensures RangeRequest(id, inPoint, outPoint).Err? ==>
      r == Refuse(RangeRequest(id, inPoint, outPoint).error)
    ensures r.Answer? ==> reply == Returned(r.value) && |r.value.fragments| > 0
    ensures RangeRequest(id, inPoint, outPoint).Ok? && reply.Returned? && |reply.value.fragments| > 0 ==>
      r == Answer(reply.value)
    ensures RangeRequest(id, inPoint, outPoint).Ok? && reply.Returned? && |reply.value.fragments| == 0 ==>
      r == Refuse(Reject(404, RangeNotFound(id)))
    ensures RangeRequest(id, inPoint, outPoint).Ok? && reply.Threw? ==>
      r == NotFoundOnBadIdent(reply, ClipNotFound(id))
  {
    match RangeRequest(id, inPoint, outPoint)
    case Err(e) => Refuse(e)
    case Ok(_) =>
      match reply
      case Returned(f) =>
        if |f.fragments| > 0 then Answer(f) else Refuse(Reject(404, RangeNotFound(id)))
      case Threw(_) => NotFoundOnBadIdent(reply, ClipNotFound(id))
  }

  /** A range whose out point is not after its in point is refused with
      400 whatever the fleet would have answered. */
  lemma EmptyRangeNeedsNoFleet(id: string, inPoint: string, outPoint: string, r1: Reply<ServerFragments>, r2: Reply<ServerFragments>)
    requires NonNegativeText(id) && NonNegativeText(inPoint) && NonNegativeText(outPoint)
    requires ParseNumber(outPoint).value <= ParseNumber(inPoint).value
    ensures RangeRoute(id, inPoint, outPoint, r1) == RangeRoute(id, inPoint, outPoint, r2)
      == Refuse(Reject(400, OrderMessage))
  {
  }

  /** One entry of the query string. Koa parses the query into an object,
      so each key appears once (a repeated key becomes one entry whose value
      is an array); the queries here are taken to have distinct keys, and
      `Get` reads the first entry in any case. */
  datatype Param = Param(key: string, value: Value)

  function Keys(q: seq<Param>): (ks: seq<string>)
    ensures |ks| == |q| && forall i :: 0 <= i < |q| ==> ks[i] == q[i].key
  {
    seq(|q|, i requires 0 <= i < |q| => q[i].key)
  }

  /** `query[key]`: the value of the first entry with that key, or
      `undefined`. */
  function Get(q: seq<Param>, key: string): Value
  {
    if q == [] then Undefined
    else if q[0].key == key then q[0].value
    else Get(q[1..], key)
  }

  /** `query[key] = v` on a query that holds the key. */
  function SetValue(q: seq<Param>, key: string, v: Value): (r: seq<Param>)
    ensures |r| == |q|
    ensures forall i :: 0 <= i < |q| ==> r[i] == if q[i].key == key then Param(key, v) else q[i]
  {
    seq(|q|, i requires 0 <= i < |q| => if q[i].key == key then Param(key, v) else q[i])
  }

  /** Updating a key changes what reading that key gives and nothing
      else, and keeps the keys and their order. */
  lemma {:induction false} GetAfterSetValue(q: seq<Param>, key: string, v: Value, other: string)
    requires exists i :: 0 <= i < |q| && q[i].key == key
    ensures Get(SetValue(q, key, v), key) == v
    ensures other != key ==> Get(SetValue(q, key, v), other) == Get(q, other)
    ensures Keys(SetValue(q, key, v)) == Keys(q)
    decreases |q|
  {
    var r := SetValue(q, key, v);
    if other != key { GetOtherAfterSetValue(q, key, v, other); }
    if q[0].key != key {
      assert r[0] == q[0];
      assert r[1..] == SetValue(q[1..], key, v);
      var i :| 0 <= i < |q| && q[i].key == key;
      assert q[1..][i - 1].key == key;
      GetAfterSetValue(q[1..], key, v, other);
    }
  }

  lemma {:induction false} GetOtherAfterSetValue(q: seq<Param>, key: string, v: Value, other: string)
    requires other != key
    ensures Get(SetValue(q, key, v), other) == Get(q, other)
    decreases |q|
  {
    if q != [] {
      var r := SetValue(q, key, v);
      assert r[1..] == SetValue(q[1..], key, v);
      GetOtherAfterSetValue(q[1..], key, v, other);
    }
  }

  const MissingQueryMessage: string := "Bad request. Missing search query parameter, e.g. '?Title=...'"
  const LimitMessage: string := "Limit parameter must be a positive number."

  /** `GET /default/clip`, before the fleet is asked: an empty query is
      refused; a present limit must be a number of at least 1 and is then
      replaced in the query by that number. */
  function SearchRequest(q: seq<Param>): (r: Result<seq<Param>, JsonError>)
    ensures r == Err(Reject(400, MissingQueryMessage)) <==> |q| == 0
    ensures r == Err(Reject(400, LimitMessage)) <==> |q| > 0 && InvalidLimit(q)
    ensures r.Err? ==> r.error in {Reject(400, MissingQueryMessage), Reject(400, LimitMessage)}
    ensures r.Ok? ==> Keys(r.value) == Keys(q)
    ensures r.Ok? ==> forall k :: k != "limit" ==> Get(r.value, k) == Get(q, k)
    ensures r.Ok? && Truthy(Get(q, "limit")) ==>
      Get(r.value, "limit") == Num(ToNumber(Get(q, "limit")).value) && Get(r.value, "limit").n >= 1
    ensures r.Ok? && !Truthy(Get(q, "limit")) ==> r.value == q
  {
    if |q| == 0 then Err(Reject(400, MissingQueryMessage))
    else if InvalidLimit(q) then Err(Reject(400, LimitMessage))
    else if Truthy(Get(q, "limit")) then
      LimitKeyPresent(q);
      var r := SetValue(q, "limit", Num(ToNumber(Get(q, "limit")).value));
      forall k | k != "limit"
        ensures Get(r, k) == Get(q, k)
      {
        GetAfterSetValue(q, "limit", Num(ToNumber(Get(q, "limit")).value), k);
      }
      GetAfterSetValue(q, "limit", Num(ToNumber(Get(q, "limit")).value), "");
      Ok(r)
    else Ok(q)
  }

  predicate InvalidLimit(q: seq<Param>)
  {
    Truthy(Get(q, "limit")) && !Positive(Get(q, "limit"))
  }

  /** A truthy value read under a key means the query holds the key. */
  lemma {:induction false} LimitKeyPresent(q: seq<Param>)
    requires Truthy(Get(q, "limit"))
    ensures exists i :: 0 <= i < |q| && q[i].key == "limit"
    decreases |q|
  {
    if q[0].key != "limit" {
      LimitKeyPresent(q[1..]);
      var i :| 0 <= i < |q[1..]| && q[1..][i].key == "limit";
      assert q[i + 1].key == "limit";
    }
  }

  /** The route's checks made as the source makes them, overwriting the
      limit entry of the query in place. */
  method CheckSearchQuery(query: seq<Param>) returns (r: Result<seq<Param>, JsonError>)
    ensures r == SearchRequest(query)
  {
    var q := query;
    if |q| == 0 {
      return Err(Reject(400, MissingQueryMessage));
    }
    var limit := Get(q, "limit");
    if Truthy(limit) {
      if !Positive(limit) {
        return Err(Reject(400, LimitMessage));
      }
      q := SetValue(q, "limit", Num(ToNumber(limit).value));
    }
    return Ok(q);
  }

  /** Normalising the limit is idempotent: a query the route forwards
      would be forwarded unchanged a second time. */
  lemma SearchRequestIdempotent(q: seq<Param>)
    requires SearchRequest(q).Ok?
    ensures SearchRequest(SearchRequest(q).value) == SearchRequest(q)
  {
    var r := SearchRequest(q).value;
    assert |r| == |Keys(r)| == |Keys(q)| == |q|;
    if Truthy(Get(q, "limit")) {
      var n := ToNumber(Get(q, "limit")).value;
      LimitKeyPresent(q);
      var r2 := SetValue(r, "limit", Num(n));
      assert r2 == r by {
        assert forall i :: 0 <= i < |r| ==> r[i].key == q[i].key;
        forall i | 0 <= i < |r|
          ensures r2[i] == r[i]
        {
        }
      }
    }
  }

  function UnknownColumnMessage(q: seq<Param>): string
  {
    "Bad request. Unknown search parameter name '" + Join(Keys(q), ",") + "'."
  }

  /** The whole search route: BadColumnData from the fleet becomes a 400
      naming every query key, comma-separated; any other fault escapes. */
  function SearchRoute<T>(q: seq<Param>, reply: Reply<T>): (r: Response<T>)
    ensures SearchRequest(q).Err? ==> r == Refuse(SearchRequest(q).error)
    ensures SearchRequest(q).Ok? && reply.Returned? ==> r == Answer(reply.value)
    ensures SearchRequest(q).Ok? && reply.Threw? ==>
      if Occurs(reply.fault.message, "BadColumnData")
      then r == Refuse(Reject(400, UnknownColumnMessage(q)))
      else r == Raise(reply.fault)
  {
    match SearchRequest(q)
    case Err(e) => Refuse(e)
    case Ok(forwarded) =>
      match reply
      case Returned(v) => Answer(v)
      case Threw(f) =>
        ContainsIsOccurs(f.message, "BadColumnData");
        if Contains(f.message, "BadColumnData")
        then Refuse(Reject(400, UnknownColumnMessage(forwarded)))
        else Raise(f)
  }
}
