/** The play-port routes that take parameters: reading a port's
    fragments, loading fragments onto a port, wiping it, triggering it and
    setting its jump point. Frame numbers are clamped against the largest
    signed 32-bit value before they are forwarded. */
module Ports {
  import opened Wrappers
  import opened Text
  import opened Numbers
  import opened Faults
  import opened JsValues

  /** `0x7fffffff`, the last frame number the fleet accepts. */
  const MaxFrame: int := 0x7fffffff

  /** An optional numeric option used as a condition (`if (options.start)`):
      present and not 0. */
  predicate Given(x: Option<int>)
  {
    x.Some? && x.value != 0
  }

  /** An optional query parameter as the handlers read it: `+v` when `v`
      is truthy, absent otherwise. */
  function Optional(v: Value): (x: Option<int>)
    ensures x.Some? <==> Truthy(v) && ToNumber(v).Some?
    ensures x.Some? ==> x == ToNumber(v)
  {
    if Truthy(v) then ToNumber(v) else None
  }

  /** A frame count that would run past `MaxFrame` from a given start is cut
      to end at `MaxFrame`; without a start, or within range, it is kept. */
  function Clamp(start: Option<int>, n: int): int
  {
    if Given(start) && n + start.value > MaxFrame then MaxFrame - start.value else n
  }

  /** After clamping, a count measured from a given start ends at
      `MaxFrame` at the latest, and exactly there when it was cut. */
  lemma ClampBound(start: Option<int>, n: int)
    ensures Given(start) ==> start.value + Clamp(start, n) <= MaxFrame
    ensures Given(start) && n + start.value > MaxFrame ==> start.value + Clamp(start, n) == MaxFrame
    ensures !Given(start) || n + start.value <= MaxFrame ==> Clamp(start, n) == n
  {
  }

  /** Clamping twice is clamping once. */
  lemma ClampIdempotent(start: Option<int>, n: int)
    ensures Clamp(start, Clamp(start, n)) == Clamp(start, n)
  {
  }

  // ---- GET /default/server/:serverID/port/:portID/fragments ----

  const StartMessage: string := "Get port fragments parameter 'start' must be non-negative integer."
  const FinishMessage: string := "Get port fragments parameter 'finish' must be non-negative integer."
  const AfterMessage: string := "Get port fragments 'finish' must be after 'start'."

  /** The optional frame window of a port fragment read. */
  datatype FragmentWindow = FragmentWindow(start: Option<int>, finish: Option<int>)

  /** The checks of a port fragment read: `start` and `finish` must be
      non-negative numbers when present; `finish` is clamped as a frame
      count from `start`, and is then refused when, as a frame number, it
      is not after `start` (both compared only when not 0). */
  function PortFragmentsRequest(start: Value, finish: Value): (r: Result<FragmentWindow, JsonError>)
    ensures r == Err(Reject(400, StartMessage)) <==> InvalidOptional(start)
    ensures r == Err(Reject(400, FinishMessage)) <==> !InvalidOptional(start) && InvalidOptional(finish)
    ensures r == Err(Reject(400, AfterMessage)) <==>
      !InvalidOptional(start) && !InvalidOptional(finish) && Truthy(finish) &&
      Given(Optional(start)) && Clamp(Optional(start), ToNumber(finish).value) != 0 &&
      Clamp(Optional(start), ToNumber(finish).value) <= Optional(start).value
    ensures r.Err? ==> r.error in {Reject(400, StartMessage), Reject(400, FinishMessage), Reject(400, AfterMessage)}
    ensures r.Ok? ==> r.value.start == Optional(start)
    ensures r.Ok? ==> r.value.finish == if Truthy(finish)
      then Some(Clamp(Optional(start), ToNumber(finish).value)) else None
    ensures r.Ok? && r.value.start.Some? ==> r.value.start.value >= 0
  {
    if InvalidOptional(start) then Err(Reject(400, StartMessage))
    else if InvalidOptional(finish) then Err(Reject(400, FinishMessage))
    else
      var s := Optional(start);
      if !Truthy(finish) then Ok(FragmentWindow(s, None))
      else
        var f := Clamp(s, ToNumber(finish).value);
        if f != 0 && Given(s) && f <= s.value then Err(Reject(400, AfterMessage))
        else Ok(FragmentWindow(s, Some(f)))
  }

  /** The handler's own steps: fill in the options record field by field,
      clamp `finish` in place, then compare. */
  method ReadPortFragments(start: Value, finish: Value) returns (r: Result<FragmentWindow, JsonError>)
    ensures r == PortFragmentsRequest(start, finish)
  {
    var options := FragmentWindow(None, None);
    if Truthy(start) {
      if !NonNegative(start) {
        return Err(Reject(400, StartMessage));
      }
      options := options.(start := ToNumber(start));
    }
    assert options.start == Optional(start);
    if Truthy(finish) {
      if !NonNegative(finish) {
        return Err(Reject(400, FinishMessage));
      }
      options := options.(finish := ToNumber(finish));
      if Given(options.start) && options.finish.value + options.start.value > MaxFrame {
        options := options.(finish := Some(MaxFrame - options.start.value));
      }
      assert options.finish == Some(Clamp(Optional(start), ToNumber(finish).value));
      if Given(options.finish) && Given(options.start) && options.finish.value <= options.start.value {
        return Err(Reject(400, AfterMessage));
      }
    }
    return Ok(options);
  }

  /** The whole port fragment read: the checks, then `getPortFragments`,
      whose fault is rethrown unchanged. */
  function PortFragmentsRoute<T>(start: Value, finish: Value, reply: Reply<T>): (r: Response<T>)
    ensures r.Refuse? <==> PortFragmentsRequest(start, finish).Err?
    ensures r.Refuse? ==> r.error == PortFragmentsRequest(start, finish).error
    ensures r.Answer? <==> PortFragmentsRequest(start, finish).Ok? && reply.Returned?
    ensures r.Answer? ==> r.value == reply.value
    ensures r.Raise? ==> reply.Threw? && r.fault == reply.fault
  {
    Guarded(PortFragmentsRequest(start, finish), reply)
  }

  /** A window that is forwarded with a start and a finish, both not 0,
      runs forwards and, read as a count, ends within the frame range. */
  lemma ForwardedWindowInRange(start: Value, finish: Value)
    requires PortFragmentsRequest(start, finish).Ok?
    ensures var w := PortFragmentsRequest(start, finish).value;
      Given(w.start) && Given(w.finish) ==>
        w.start.value < w.finish.value && w.start.value + w.finish.value <= MaxFrame
  {
    ClampBound(Optional(start), if Truthy(finish) then ToNumber(finish).value else 0);
  }

  /** The clamp treats `finish` as a count but the comparison treats it as
      a frame number, so a start from half the range on, with a finish that
      reaches past `MaxFrame`, is refused. */
  lemma LateStartRefused(start: Value, finish: Value)
    requires ToNumber(start).Some? && ToNumber(finish).Some? && Truthy(finish)
    requires 2 * ToNumber(start).value >= MaxFrame && ToNumber(start).value != MaxFrame
    requires ToNumber(finish).value >= 0
    requires ToNumber(start).value + ToNumber(finish).value > MaxFrame
    ensures PortFragmentsRequest(start, finish) == Err(Reject(400, AfterMessage))
  {
    NonZeroIsTruthy(start);
  }

  /** A start at exactly `MaxFrame` cuts any positive finish to 0, which
      no longer counts as given, so the read is forwarded. */
  lemma LastFrameStartForwarded(finish: int)
    requires finish > 0
    ensures PortFragmentsRequest(Num(MaxFrame), Num(finish)) ==
      Ok(FragmentWindow(Some(MaxFrame), Some(0)))
  {
  }

  /** For example, start 1500000000 with finish 1600000000 is refused,
      although both lie inside the frame range. */
  lemma LateStartExample()
    ensures PortFragmentsRequest(Num(1500000000), Num(1600000000)) == Err(Reject(400, AfterMessage))
  {
    LateStartRefused(Num(1500000000), Num(1600000000));
  }

  /** A value whose number is not 0 is truthy. */
  lemma NonZeroIsTruthy(v: Value)
    requires ToNumber(v).Some? && ToNumber(v).value != 0
    ensures Truthy(v)
  {
  }

  // ---- POST /default/server/:serverID/port/:portID/fragments ----

  const FragmentsMessage: string := "Bad request. Fragments must be a JSON array with at least one element."
  const OffsetMessage: string := "Bad request. Optional offset parameter must be a non-negative integer."
  const ParsingMessage: string :=
    "A parsing error prevented converting JSON representations of fragments into internal values."
  const JsonType: string := "application/json"

  /** What `loadPlayPort` receives besides the port. */
  datatype LoadInfo = LoadInfo(fragments: seq<Value>, offset: int)

  /** The checks of a fragment load: the parser's own refusal stands; the
      body must be a non-empty JSON array sent as `application/json`; the
      offset, when present, a non-negative number, and 0 otherwise. */
  function LoadRequest(body: RequestBody<Value>, contentType: string, offset: Value): (r: Result<LoadInfo, JsonError>)
    ensures body.Unparsable? ==> r == Err(Reject(400, body.message))
    ensures body.Parsed? ==>
      (r == Err(Reject(400, FragmentsMessage)) <==>
        !body.body.Arr? || |body.body.items| == 0 || contentType != JsonType)
    ensures body.Parsed? ==>
      (r == Err(Reject(400, OffsetMessage)) <==>
        body.body.Arr? && |body.body.items| > 0 && contentType == JsonType && InvalidOptional(offset))
    ensures body.Parsed? && r.Err? ==> r.error in {Reject(400, FragmentsMessage), Reject(400, OffsetMessage)}
    ensures r.Ok? ==> body == Parsed(Arr(r.value.fragments)) && |r.value.fragments| > 0
    ensures r.Ok? ==> r.value.offset >= 0
    ensures r.Ok? ==> r.value.offset == if Truthy(offset) then ToNumber(offset).value else 0
  {
    match body
    case Unparsable(m) => Err(Reject(400, m))
    case Parsed(v) =>
      if !v.Arr? || |v.items| == 0 || contentType != JsonType then Err(Reject(400, FragmentsMessage))
      else if InvalidOptional(offset) then Err(Reject(400, OffsetMessage))
      else Ok(LoadInfo(v.items, if Truthy(offset) then ToNumber(offset).value else 0))
  }

  /** The whole load route. Its catch block tests
      `err.message.indexOf('was expected')` for truthiness, so every fault
      becomes a 400 parsing error carrying the fault's stack, except one
      whose message starts with "was expected", which is rethrown. */
  function LoadRoute<T>(body: RequestBody<Value>, contentType: string, offset: Value, reply: Reply<T>)
    : (r: Response<T>)
    ensures LoadRequest(body, contentType, offset).Err? ==>
      r == Refuse(LoadRequest(body, contentType, offset).error)
    ensures LoadRequest(body, contentType, offset).Ok? && reply.Returned? ==> r == Answer(reply.value)
    ensures LoadRequest(body, contentType, offset).Ok? && reply.Threw? ==>
      if "was expected" <= reply.fault.message
      then r == Raise(reply.fault)
      else r == Refuse(JsonError(400, ParsingMessage, reply.fault.stack))
  {
    match LoadRequest(body, contentType, offset)
    case Err(e) => Refuse(e)
    case Ok(_) =>
      match reply
      case Returned(v) => Answer(v)
      case Threw(f) =>
        IndexOfIsZeroIffPrefix(f.message, "was expected");
        if IndexOf(f.message, "was expected") != 0
        then Refuse(JsonError(400, ParsingMessage, f.stack))
        else Raise(f)
  }

  /** Any fault from a valid load whose message does not mention
      "was expected" at all, a BadIdent or a TRANSIENT fault included, is
      answered as a parsing error and never reaches the error middleware. */
  lemma LoadFaultBecomesParsingError<T>(body: RequestBody<Value>, contentType: string, offset: Value, f: Fault)
    requires LoadRequest(body, contentType, offset).Ok?
    requires !Occurs(f.message, "was expected")
    ensures LoadRoute<T>(body, contentType, offset, Reply<T>.Threw(f)) ==
      Refuse(JsonError(400, ParsingMessage, f.stack))
  {
  }

  // ---- DELETE /default/server/:serverID/port/:portID/fragments ----

  const WipeStartMessage: string := "Wipe parameter 'start' must be non-negative integer."
  const WipeFramesMessage: string := "Wipe parameter 'frames' must be non-negative integer."

  /** What `wipe` receives besides the port. */
  datatype WipeInfo = WipeInfo(start: Option<int>, frames: int)

  /** The decimal text of `MaxFrame`, as `${0x7fffffff}` prints it. */
  function MaxFrameText(): (t: string)
    ensures ParseNumber(t) == Some(MaxFrame) && t != ""
  {
    ParseShowInt(MaxFrame);
    ShowInt(MaxFrame)
  }

  /** The query text `MAX` stands for the decimal text of `MaxFrame`. */
  function FramesText(v: Value): (t: Value)
    ensures Truthy(t) == Truthy(v)
    ensures v == Str("MAX") ==> ToNumber(t) == Some(MaxFrame)
    ensures v != Str("MAX") ==> t == v
  {
    if v == Str("MAX") then Str(MaxFrameText()) else v
  }

  /** The frame count a wipe asks for before clamping: every frame when
      `frames` is absent. */
  function RequestedFrames(frames: Value): int
    requires !InvalidOptional(FramesText(frames))
  {
    if Truthy(frames) then ToNumber(FramesText(frames)).value else MaxFrame
  }

  /** The checks of a wipe: `start` and `frames` must be non-negative
      numbers when present (`frames` may also be `MAX`); the count is then
      clamped from `start`. */
  function WipeRequest(start: Value, frames: Value): (r: Result<WipeInfo, JsonError>)
    ensures r == Err(Reject(400, WipeStartMessage)) <==> InvalidOptional(start)
    ensures r == Err(Reject(400, WipeFramesMessage)) <==>
      !InvalidOptional(start) && InvalidOptional(FramesText(frames))
    ensures r.Err? ==> r.error in {Reject(400, WipeStartMessage), Reject(400, WipeFramesMessage)}
    ensures r.Ok? ==> r.value.start == Optional(start)
    ensures r.Ok? ==> r.value.frames == Clamp(Optional(start), RequestedFrames(frames))
    ensures r.Ok? && r.value.start.Some? ==> r.value.start.value >= 0
  {
    if InvalidOptional(start) then Err(Reject(400, WipeStartMessage))
    else if InvalidOptional(FramesText(frames)) then Err(Reject(400, WipeFramesMessage))
    else Ok(WipeInfo(Optional(start), Clamp(Optional(start), RequestedFrames(frames))))
  }

  /** The handler's own steps: rewrite `MAX` in the query, fill in the
      options, default the count, clamp it in place. */
  method WipePort(start: Value, frames: Value) returns (r: Result<WipeInfo, JsonError>)
    ensures r == WipeRequest(start, frames)
  {
    var startOption: Option<int> := None;
    if Truthy(start) {
      if !NonNegative(start) {
        return Err(Reject(400, WipeStartMessage));
      }
      startOption := ToNumber(start);
    }
    assert startOption == Optional(start);
    var count: int;
    if Truthy(frames) {
      var text := FramesText(frames);
      if Truthy(text) && !NonNegative(text) {
        return Err(Reject(400, WipeFramesMessage));
      }
      count := ToNumber(text).value;
    } else {
      count := MaxFrame;
    }
    assert count == RequestedFrames(frames);
    if Given(startOption) && count + startOption.value > MaxFrame {
      count := MaxFrame - startOption.value;
    }
    assert count == Clamp(startOption, RequestedFrames(frames));
    return Ok(WipeInfo(startOption, count));
  }

  /** The whole wipe route: the checks, then `wipe`, whose fault is
      rethrown unchanged. */
  function WipeRoute<T>(start: Value, frames: Value, reply: Reply<T>): (r: Response<T>)
    ensures r.Refuse? <==> WipeRequest(start, frames).Err?
    ensures r.Refuse? ==> r.error == WipeRequest(start, frames).error
    ensures r.Answer? <==> WipeRequest(start, frames).Ok? && reply.Returned?
    ensures r.Answer? ==> r.value == reply.value
    ensures r.Raise? ==> reply.Threw? && r.fault == reply.fault
  {
    Guarded(WipeRequest(start, frames), reply)
  }

  /** `frames=MAX` and a missing `frames` wipe the same frames: from the
      start to the end of the frame range. */
  lemma WipeMaxIsWipeAll(start: Value)
    ensures WipeRequest(start, Str("MAX")) == WipeRequest(start, Undefined)
    ensures WipeRequest(start, Undefined).Ok? && Given(Optional(start)) ==>
      Optional(start).value + WipeRequest(start, Undefined).value.frames == MaxFrame
  {
    assert Truthy(Str("MAX"));
    ClampBound(Optional(start), MaxFrame);
  }

  /** A start past the frame range is not refused: the clamp forwards a
      negative frame count. */
  lemma WipeLateStartNegativeFrames(start: int, frames: Value)
    requires start > MaxFrame
    requires !InvalidOptional(FramesText(frames))
    ensures WipeRequest(Num(start), frames) == Ok(WipeInfo(Some(start), MaxFrame - start))
    ensures MaxFrame - start < 0
  {
  }

  // ---- POST /default/server/:serverID/port/:portID/trigger/:trigger ----

  datatype Trigger = Start | Stop | Jump

  const TriggerMessage: string := "Trigger must have path parameter 'START', 'STOP' or 'JUMP'."

  function TriggerName(t: Trigger): string
  {
    match t
    case Start => "START"
    case Stop => "STOP"
    case Jump => "JUMP"
  }

  /** The path segment of a trigger, matched exactly (case included). */
  function ParseTrigger(s: string): (t: Option<Trigger>)
    ensures t.Some? <==> s in {"START", "STOP", "JUMP"}
    ensures t.Some? ==> TriggerName(t.value) == s
  {
    if s == "START" then Some(Start)
    else if s == "STOP" then Some(Stop)
    else if s == "JUMP" then Some(Jump)
    else None
  }

  lemma TriggerRoundTrip(t: Trigger)
    ensures ParseTrigger(TriggerName(t)) == Some(t)
  {
  }

  /** What `trigger` receives besides the port. */
  datatype TriggerInfo = TriggerInfo(trigger: Trigger, offset: Option<int>)

  /** The checks of a trigger: the trigger name first, then the optional
      offset, which is forwarded only when present. */
  function TriggerRequest(name: string, offset: Value): (r: Result<TriggerInfo, JsonError>)
    ensures r == Err(Reject(400, TriggerMessage)) <==> ParseTrigger(name).None?
    ensures r == Err(Reject(400, OffsetMessage)) <==> ParseTrigger(name).Some? && InvalidOptional(offset)
    ensures r.Ok? <==> ParseTrigger(name).Some? && !InvalidOptional(offset)
    ensures r.Ok? ==> TriggerName(r.value.trigger) == name
    ensures r.Ok? ==> r.value.offset == Optional(offset)
    ensures r.Ok? && r.value.offset.Some? ==> r.value.offset.value >= 0
  {
    match ParseTrigger(name)
    case None => Err(Reject(400, TriggerMessage))
    case Some(t) =>
      if InvalidOptional(offset) then Err(Reject(400, OffsetMessage))
      else Ok(TriggerInfo(t, Optional(offset)))
  }

  /** The whole trigger route: the checks, then `trigger`, whose fault is
      rethrown unchanged. */
  function TriggerRoute<T>(name: string, offset: Value, reply: Reply<T>): (r: Response<T>)
    ensures r.Refuse? <==> TriggerRequest(name, offset).Err?
    ensures r.Refuse? ==> r.error == TriggerRequest(name, offset).error
    ensures r.Answer? <==> TriggerRequest(name, offset).Ok? && reply.Returned?
    ensures r.Answer? ==> r.value == reply.value
    ensures r.Raise? ==> reply.Threw? && r.fault == reply.fault
  {
    Guarded(TriggerRequest(name, offset), reply)
  }

  // ---- POST and PUT /default/server/:serverID/port/:portID/jump ----

  /** The check of `jump` and `setJump`: the offset, when present, must
      be a non-negative number; it defaults to 0. */
  function JumpRequest(offset: Value): (r: Result<int, JsonError>)
    ensures r.Err? <==> InvalidOptional(offset)
    ensures r.Err? ==> r.error == Reject(400, OffsetMessage)
    ensures r.Ok? ==> r.value >= 0
    ensures r.Ok? && Truthy(offset) ==> Some(r.value) == ToNumber(offset)
    ensures r.Ok? && !Truthy(offset) ==> r.value == 0
  {
    if InvalidOptional(offset) then Err(Reject(400, OffsetMessage))
    else if Truthy(offset) then Ok(ToNumber(offset).value)
    else Ok(0)
  }

  /** The whole `jump` and `setJump` routes: the check, then the call,
      whose fault is rethrown unchanged. */
  function JumpRoute<T>(offset: Value, reply: Reply<T>): (r: Response<T>)
    ensures r.Refuse? <==> JumpRequest(offset).Err?
    ensures r.Refuse? ==> r.error == Reject(400, OffsetMessage)
    ensures r.Answer? <==> JumpRequest(offset).Ok? && reply.Returned?
    ensures r.Answer? ==> r.value == reply.value
    ensures r.Raise? ==> reply.Threw? && r.fault == reply.fault
  {
    Guarded(JumpRequest(offset), reply)
  }

  /** A jump offset that a trigger would accept is accepted by a jump
      too, and forwarded as the same number, or as 0 when absent. */
  lemma JumpAgreesWithTrigger(name: string, offset: Value)
    requires TriggerRequest(name, offset).Ok?
    ensures JumpRequest(offset).Ok?
    ensures JumpRequest(offset).value ==
      match TriggerRequest(name, offset).value.offset
      case Some(n) => n
      case None => 0
  {
  }
}
