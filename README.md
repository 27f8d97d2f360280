# Quantel gateway request layer in Dafny

This project models the request validation and normalisation layer of the
Quantel gateway, `src/server.ts`. The gateway is a Koa HTTP server that sits
in front of a fleet of Quantel ISA servers. Each route handler checks its
path, query and body parameters in a fixed order. It then does one of three
things:

- refuses the request with a fixed `{ status, message, stack }` error body;
- clamps and coerces the parameters and forwards a parameter record to the
  fleet;
- translates the fleet's fault into an error body, or lets it escape to the
  global error middleware.

The model states each handler's decision as a function from its inputs to
`Result<Params, JsonError>`, and each whole route as a function to
`Response<T>` (answer, refusal or escaped fault). Handlers that change a
record step by step also get a `method` with local state, proved equal to the
function:

- the connect address rewrite;
- the clone body's history flag;
- the search limit;
- the port-fragment `finish` clamp;
- the wipe `frames` clamp.

The error middleware is a `Context` class whose `status` and `body` fields
are updated in place.

How JavaScript values are modelled:

- Request values are a `Value` datatype. Its coercions are written out:
  truthiness, `+x` and `String(x)`.
- `+x` is an `Option<int>`, where `None` stands for NaN. An empty string
  reads as 0. An optional sign followed by decimal digits reads as that
  integer. Anything else is NaN.
- Because the handlers test truthiness, a JSON number 0, or a numeric
  option that is 0, counts as absent. A query-string value "0" is the
  non-empty text "0", which is truthy: `?offset=0` is forwarded as 0. The
  model keeps both.
- A call into the fleet is a `Reply<T>` parameter: a returned value, or a
  fault whose message may carry a tag (BadIdent, BadColumnData, TRANSIENT,
  ENOTFOUND, ECONNREFUSED, "was expected").

Behaviours of the source that the model keeps as written:

- A clip ID of 0 passes the clip check, although the message asks for a
  positive number (`Clips.ZeroIsAClipButNotACopy`).
- The port-fragment clamp treats `finish` as a frame count measured from
  `start`. The check that follows treats it as a frame number. So a start
  from half the 32-bit range onwards, with a finish reaching past
  `0x7fffffff`, is refused (`Ports.LateStartRefused`). A start of exactly
  `0x7fffffff` cuts the finish to 0, which then counts as absent
  (`Ports.LastFrameStartForwarded`).
- A wipe whose start lies past `0x7fffffff` is forwarded with a negative
  frame count (`Ports.WipeLateStartNegativeFrames`).
- The fragment-load catch block tests `indexOf('was expected')` for
  truthiness. So every fault becomes a 400 parsing error, except one whose
  message starts with "was expected" (`Ports.LoadRoute`,
  `Ports.LoadFaultBecomesParsingError`).
- The pool ID message keeps the source's spelling "destiniation".

Module layout:

| file | module | contents |
|---|---|---|
| `wrappers.dfy` | `Wrappers` | `Option`, `Result` |
| `text.dfy` | `Text` | `indexOf`, `split`, `join`, ASCII `toLowerCase` |
| `numbers.dfy` | `Numbers` | decimal printing and `+s` on strings |
| `js_value.dfy` | `JsValues` | request values and their coercions |
| `faults.dfy` | `Faults` | error bodies, faults, replies, the BadIdent catch, the global status mapping |
| `connect.dfy` | `Connect` | `POST /connect/:addr` |
| `lookup.dfy` | `Lookup` | zone and server lookup routes |
| `clone.dfy` | `Clone` | `POST /default/copy` |
| `clips.dfy` | `Clips` | format, copy, clip, fragment and search routes |
| `ports.dfy` | `Ports` | port fragments read/load/wipe, trigger, jump |
| `middleware.dfy` | `Middleware` | the JSON error middleware |

## Model

| member | source | states |
|---|---|---|
| Text.IndexOf | src/server.ts:60 | `indexOf` gives -1 or the first position where the needle occurs, and no earlier occurrence exists |
| Text.IndexOfIsZeroIffPrefix | src/server.ts:630 | `indexOf` is 0 exactly when the text starts with the needle |
| Text.SplitJoin | src/server.ts:65 | joining the pieces of `split(',')` with ',' gives back the original text |
| Text.SplitSingle | src/server.ts:63-67 | `split` yields one piece exactly when the separator does not occur |
| Text.SplitPiecesFree | src/server.ts:65 | no piece of `split(',')` contains ','; with `Text.SplitJoin` this fixes the pieces exactly |
| Text.ToLower | src/server.ts:92 | no upper-case ASCII letter is left: each becomes its lower-case letter, and every other character is kept |
| Text.ToLowerIdempotent | src/server.ts:92 | lower-casing twice is lower-casing once |
| Numbers.ParseShowInt | src/server.ts:117 | reading back the decimal text of any integer with `+` gives that integer |
| Numbers.ShowNatDigitsValue | src/server.ts:117 | a digit string without a leading zero is exactly the printed form of its value |
| Faults.NotFoundOnBadIdent | src/server.ts:149-160 | a returned value is the answer; a fault mentioning BadIdent becomes a 404 with the route's message; every other fault escapes unchanged |
| Faults.Guarded | src/server.ts:554-600 | a refused request is answered with its error and nothing else; otherwise the fleet's answer is the answer and its fault escapes unchanged |
| Faults.Lift | src/server.ts:269-283 | a fleet call awaited outside any `try`: its fault escapes unchanged, otherwise the decision on its result is the answer or the refusal |
| Faults.HandleFault | src/server.ts:786-797 | a TRANSIENT fault gets the fixed bad-gateway text and 502; otherwise the message is kept and the status is `statusCode`, else `status`, else 500; the stack is kept and the status is never 0 |
| Connect.ConnectTarget | src/server.ts:60-68 | the target is a single URL exactly when the address holds no ',' |
| Connect.RewriteAddress | src/server.ts:60-68 | the handler's in-place rewrite of the address produces exactly `ConnectTarget` |
| Connect.ConnectRoute | src/server.ts:58-81 | the fleet is asked for the rewritten target; its answer is the answer, its fault is classified and rethrown, and the route never refuses |
| Connect.ConnectUrls | src/server.ts:60-68 | the URLs are the pieces of the address, with the default port added when it held no ':', each prefixed with `http://` |
| Connect.ConnectRoundTrip | src/server.ts:60-68 | every URL starts with `http://`, and joining the hosts with ',' gives back the address with the port added |
| Connect.PortOnLastEntryOnly | src/server.ts:60-65 | when no ':' is present, only the last comma-separated entry gains `:2096`; the others are kept as they are |
| Connect.NoPortAddedAfterColon | src/server.ts:60-62 | an address holding a ':' anywhere is not given the default port |
| Connect.ConnectBareHost | src/server.ts:60-67 | a host holding neither ':' nor ',' becomes the single URL `http://<host>:2096` |
| Connect.ConnectLocalhost | src/server.ts:60-67 | `127.0.0.1` becomes the single URL `http://127.0.0.1:2096` |
| Connect.ConnectTwoHosts | src/server.ts:63-65 | two colon-free hosts give two URLs, the first without a port and the second with `:2096` |
| Connect.ClassifyConnectFault | src/server.ts:69-79 | ENOTFOUND gives 404 and "Not found: " before the message, checked before ECONNREFUSED, which gives 502 and "Bad gateway: "; a ConnectError keeps its status; anything else gets 500 |
| Connect.ConnectFailureStatus | src/server.ts:69-79 | once the global middleware has mapped it, a connect failure answers 502 for TRANSIENT; else its own non-zero `statusCode`; else 404 for ENOTFOUND; else 502 for ECONNREFUSED; else a ConnectError's status or 500; else 500 |
| Lookup.FindFirst | src/server.ts:96 | `find` gives the index of the first element satisfying the test, or nothing when none does |
| Lookup.ZoneJson | src/server.ts:91-108 | `default` in any letter case is the default zone; otherwise the first zone whose number equals `+id` or whose name equals `id`, else 404 quoting `id` |
| Lookup.ZoneDirectory | src/server.ts:112-129 | only the exact text `default`, or a zone whose name or printed number equals `id`, gives the listing; otherwise 404 |
| Lookup.TextMatchIsValueMatch | src/server.ts:112-129 | a zone the directory route matches is also matched by the `.json` route |
| Lookup.DirectoryFoundIsJsonFound | src/server.ts:91-129 | every identifier the directory route accepts, `default` included, the `.json` route accepts too |
| Lookup.SignedNumberFoundByValueOnly | src/server.ts:96 | `+n` finds zone n by number in the `.json` route, but not in the directory route |
| Lookup.DefaultKeywordCase | src/server.ts:92 | `DEFAULT` is the default zone for the `.json` route, but not for the directory route |
| Lookup.LookupServer | src/server.ts:269-283 | the first server whose ident equals `+id` or whose name equals `id`; 404 quoting `id` exactly when none matches |
| Lookup.ServerDirectory | src/server.ts:285-299 | the listing `port/` exactly when a server matches; otherwise the same 404 |
| Lookup.ServerPortNames | src/server.ts:301-315 | the port names of the first matching server, the one `LookupServer` finds; the 404 exactly when the lookup fails |
| Lookup.ZoneJsonRoute | src/server.ts:91-108 | the default keyword answers with the fleet's default-zone reply; any other identifier decides on the `listZones()` reply as `ZoneJson` does; a fault of either call escapes unchanged |
| Lookup.ZoneJsonAsksOneCall | src/server.ts:92-96 | the default keyword does not depend on the zone list, and any other identifier does not depend on the default-zone reply |
| Lookup.ZoneDirectoryRoute | src/server.ts:112-129 | exact `default` is answered without the fleet; otherwise a `listZones()` fault escapes and a list is decided as `ZoneDirectory` does |
| Lookup.ServerJsonRoute | src/server.ts:269-283 | a `getServers()` fault escapes unchanged; a list is decided as `LookupServer` does |
| Lookup.ServerDirectoryRoute | src/server.ts:285-299 | a `getServers()` fault escapes unchanged; a list is decided as `ServerDirectory` does |
| Lookup.ServerPortsRoute | src/server.ts:301-315 | a `getServers()` fault escapes unchanged; a list is decided as `ServerPortNames` does |
| Lookup.ServerRoutesAgree | src/server.ts:269-315 | on the same reply the three server routes all answer, all refuse with the same 404, or all let the same fault escape; the port list is that of the server the `.json` route answers with |
| Clone.CoerceHistory | src/server.ts:235-249 | the strings "true" and "false" become booleans; booleans and falsy values pass unchanged; any other truthy value is refused |
| Clone.ValidateClone | src/server.ts:198-249 | zone, clip, pool, priority and history are checked in that order; each 400 message appears exactly when the earlier checks pass and this one fails; success forwards the body with its history coerced |
| Clone.CheckCloneRequest | src/server.ts:196-249 | the handler's early-return checks and in-place history rewrite give exactly `ValidateClone` |
| Clone.CloneRoute | src/server.ts:193-263 | a parser refusal stands; a refused body never reaches the fleet; BadIdent becomes a 404 naming the three identifiers; other faults escape |
| Clone.InvalidCloneNeedsNoFleet | src/server.ts:198-250 | an invalid body is answered the same whatever the fleet would reply |
| Clone.BadIdentQuotesIdentifiers | src/server.ts:251-258 | the 404 message holds `source clip ID '<clip>'`, `source zone ID '<zone>'` and `destiniation pool ID '<pool>'`, each ID quoted right after its own label |
| Clone.CloneValidationExamples | src/server.ts:198-249 | concrete bodies (zone "wtf", clip -321, pool "wtf", priority 16, history "wtf") each give that field's 400, and a body without zone or history is forwarded unchanged |
| Clips.FormatRequest | src/server.ts:135-147 | the format number is forwarded exactly when `+id` is a number in [0, 65535]; otherwise 400 |
| Clips.FormatNumbersRoundTrip | src/server.ts:136 | the decimal text of every number in [0, 65535] is forwarded as that number, and of every other number refused |
| Clips.FormatRoute | src/server.ts:135-161 | a 400 exactly when the check fails, whatever the fleet replies; otherwise the fleet's answer, a 404 naming the format exactly when the fault mentions BadIdent, and any other fault escaping unchanged |
| Clips.CopyRequest | src/server.ts:167-178 | the clip ID is forwarded exactly when `+id` is a number of at least 1; otherwise 400 |
| Clips.CopyRoute | src/server.ts:167-191 | a 400 exactly when the check fails, whatever the fleet replies; otherwise the fleet's answer, a 404 naming the copy exactly when the fault mentions BadIdent, and any other fault escaping unchanged |
| Clips.ClipRequest | src/server.ts:392-404 | the clip ID is forwarded exactly when `+id` is a non-negative number |
| Clips.ZeroIsAClipButNotACopy | src/server.ts:393 | "0" passes the clip check and fails the copy check; non-numeric text fails both |
| Clips.ClipRoute | src/server.ts:392-418 | get: a 400 exactly when the check fails, whatever the fleet replies; otherwise the fleet's answer, a 404 naming the clip exactly when the fault mentions BadIdent, and any other fault escaping unchanged |
| Clips.DeleteClipRoute | src/server.ts:420-445 | delete: the same 400 and BadIdent 404 as the get route, each exactly when its condition holds; the answer is `{ deleted: <deleteClip's result> }`; any other fault escapes unchanged |
| Clips.FragmentsRoute | src/server.ts:449-485 | a valid clip ID with a non-empty fragment list is answered with that list, and every answer holds at least one fragment; an empty list or BadIdent gives the clip 404 |
| Clips.RangeRequest | src/server.ts:487-529 | clip ID, in point and out point are checked in that order, then an out point not after the in point is refused; a range passing all four checks is forwarded, with 0 <= start < finish |
| Clips.RangeRoute | src/server.ts:524-552 | a valid range with a non-empty fragment list is answered with that list; an empty answer gives the 404 that also blames the range; BadIdent gives the plain clip 404 |
| Clips.EmptyRangeNeedsNoFleet | src/server.ts:515-523 | a range whose out point is not after its in point is refused whatever the fleet would reply |
| Clips.GetAfterSetValue | src/server.ts:374 | assigning a query entry changes only that entry's value and keeps every key and their order |
| Clips.SearchRequest | src/server.ts:354-376 | an empty query is refused; a truthy limit must be a number of at least 1 and is then replaced by that number; every other entry and every key is kept; these are the only two refusals, so any other query is forwarded |
| Clips.CheckSearchQuery | src/server.ts:355-375 | the handler's early returns and in-place limit rewrite give exactly `SearchRequest` |
| Clips.SearchRequestIdempotent | src/server.ts:364-375 | a forwarded query would be forwarded unchanged a second time |
| Clips.SearchRoute | src/server.ts:354-390 | BadColumnData becomes a 400 naming every query key, comma-separated; other faults escape |
| Ports.Optional | src/server.ts:560-571 | an optional parameter is present exactly when truthy and a number, and is then `+v` |
| Ports.ClampBound | src/server.ts:678-680 | after clamping from a given start, start plus count is at most `0x7fffffff`, and exactly that when the count was cut; otherwise the count is unchanged |
| Ports.ClampIdempotent | src/server.ts:583-585 | clamping an already clamped count changes nothing |
| Ports.PortFragmentsRequest | src/server.ts:554-596 | start is checked first, then finish; finish is clamped from start; a non-zero finish not after a non-zero start is refused; these are the only three refusals, so a window passing them is forwarded |
| Ports.ReadPortFragments | src/server.ts:556-596 | the handler's field-by-field fill and in-place clamp give exactly `PortFragmentsRequest` |
| Ports.PortFragmentsRoute | src/server.ts:554-600 | refused exactly when the checks fail; otherwise the fleet's answer, or its fault escaping unchanged |
| Ports.ForwardedWindowInRange | src/server.ts:583-594 | a forwarded window with non-zero start and finish has start < finish and start + finish <= `0x7fffffff` |
| Ports.LateStartRefused | src/server.ts:583-594 | a start from half the range onwards with a finish reaching past `0x7fffffff` is refused after the clamp |
| Ports.LastFrameStartForwarded | src/server.ts:583-594 | a start of `0x7fffffff` cuts any positive finish to 0 and the read is forwarded |
| Ports.LateStartExample | src/server.ts:583-594 | start 1500000000 with finish 1600000000 is refused |
| Ports.LoadRequest | src/server.ts:602-628 | a parser refusal stands; the body must be a non-empty array sent as `application/json`; a present offset must be non-negative; the offset defaults to 0; a parsed body fails only with these two refusals, so one passing them is forwarded |
| Ports.LoadRoute | src/server.ts:629-640 | a fault becomes the 400 parsing error with the fault's stack unless its message starts with "was expected", in which case it escapes |
| Ports.LoadFaultBecomesParsingError | src/server.ts:629-640 | a fault from a valid load whose message never mentions "was expected", BadIdent and TRANSIENT included, is answered as the 400 parsing error and never reaches the error middleware |
| Ports.FramesText | src/server.ts:662-664 | `MAX` reads as `0x7fffffff`; any other value is kept |
| Ports.WipeRequest | src/server.ts:643-681 | start is checked, then frames (`MAX` allowed); frames defaults to `0x7fffffff` and is clamped from start; these are the only two refusals, so a wipe passing both is forwarded |
| Ports.WipePort | src/server.ts:645-680 | the handler's query rewrite, default and in-place clamp give exactly `WipeRequest` |
| Ports.WipeRoute | src/server.ts:643-685 | refused exactly when the checks fail; otherwise the fleet's answer, or its fault escaping unchanged |
| Ports.WipeMaxIsWipeAll | src/server.ts:660-680 | `frames=MAX` and no frames give the same wipe, ending exactly at `0x7fffffff` from a given start |
| Ports.WipeLateStartNegativeFrames | src/server.ts:678-680 | a start past `0x7fffffff` is forwarded with the negative count `0x7fffffff - start` |
| Ports.ParseTrigger | src/server.ts:689-702 | exactly `START`, `STOP` and `JUMP` are triggers, case included |
| Ports.TriggerRoundTrip | src/server.ts:689-702 | every trigger's name parses back to that trigger |
| Ports.TriggerRequest | src/server.ts:687-720 | the trigger name is checked before the offset; a present offset must be non-negative and is forwarded, an absent one is left out; forwarded exactly when the name is known and the offset valid |
| Ports.TriggerRoute | src/server.ts:687-724 | refused exactly when the checks fail; otherwise the fleet's answer, or its fault escaping unchanged |
| Ports.JumpRequest | src/server.ts:726-741 | a present offset must be non-negative and is forwarded; otherwise 0 |
| Ports.JumpRoute | src/server.ts:726-768 | `jump` and `setJump`: the offset 400 exactly when the check fails; otherwise the fleet's answer, or its fault escaping unchanged |
| Ports.JumpAgreesWithTrigger | src/server.ts:748-763 | an offset a trigger accepts is accepted by jump and `setJump` as the same number, or 0 when absent |
| Middleware.Settled | src/server.ts:776-797 | a failure answers with `HandleFault`'s status and body; a 404 without a body gets the "Not found. Request <method> <path>" body; any other response is left as it is |
| Middleware.SettledNotFoundHasBody | src/server.ts:776-797 | every 404 the middleware leaves has a body, and after a failure the error body carries the response's own non-zero status |
| Middleware.SettledIdempotent | src/server.ts:776-785 | settling a finished request twice is settling it once |
| Middleware.UnmatchedRequest | src/server.ts:776-785 | a request no route answered is answered with its method and path |
| Middleware.Context.constructor | src/server.ts:771-777 | a fresh context starts at 404 without a body |
| Middleware.Context.Respond | src/server.ts:554-600 | an answer sets the body (status 200), a refusal sets the status and the error body, a fault leaves the context unchanged and escapes |
| Middleware.Context.Settle | src/server.ts:776-797 | the in-place updates of `ctx.status` and `ctx.body` give exactly `Settled` |

## Left out

- `src/cxx/orbital.cc` is not part of this model. It is native CORBA and N-API glue with no behaviour the gateway states.
- The bodies of the `Quantel.*` calls are not modelled. Each route function takes the call's reply as a parameter, a returned value or a thrown fault. The lookup decisions `Lookup.ZoneJson`, `Lookup.ZoneDirectory`, `Lookup.LookupServer`, `Lookup.ServerDirectory` and `Lookup.ServerPortNames` take the returned list itself, and their `*Route` counterparts add the fault.
- The pass-through routes are not modelled, because they check nothing: zone listing, health, connection details, the server, format and copy listings, play-port creation, channel assignment, port status, reset, properties and release.
- Koa, koa-router and body-parser wiring is left out: route matching, `app.listen` and the close hook that destroys the ORB. The body parser's error hook appears only as `RequestBody.Unparsable`, a 400 with the parser's message.
- Console logging is left out.
- Concurrency of the asynchronous handlers is left out. Each request is modelled as one sequential run.
- Path parameters that are forwarded without checks (server ID, port name) are left out of the forwarded records.
- JsValues.ToNumber: does not model fractions, exponents, hexadecimal, surrounding white space or `Infinity`; `+x` is an integer or NaN.
- Text.ToLower: lower-cases ASCII letters only, not the rest of Unicode.
- JavaScript numbers are doubles, but the model's numbers are unbounded integers. So `+s` is not rounded above 2^53, and `String(n)` never prints exponent form (as JavaScript does from 1e21). That affects `JsValues.ToText` and the identifiers quoted in messages. The clamp claims (`Ports.ClampBound` and the lemmas that reach exactly `0x7fffffff`) hold as stated only where double arithmetic is exact, below 2^53.
- Clips.Param: a repeated query key, which Koa turns into one key with an array value, is not modelled; a query is a list of entries with distinct keys.
- Middleware.Context.Respond: does not model Koa's 204 for a null body.
- Middleware.Context.Settle: does not model the checks Koa's status setter makes. A fault carrying a status Koa rejects, as `HandleFault` may produce, would make Koa throw there.
- Clone.HighPriority: `Quantel.Priority.HIGH` is defined in a module that is not part of this model; it is taken as 15, the bound the refusal message names.
