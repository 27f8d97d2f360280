/** The zone and server routes that look an entry up by number or by name
    in a list the fleet returns (`zones.find(...)`, `servers.find(...)`),
    answering 404 with the identifier quoted when nothing matches. */
module Lookup {
  import opened Wrappers
  import opened Text
  import opened Numbers
  import opened Faults

  datatype Zone = Zone(zoneNumber: int, zoneName: string, isRemote: bool)

  datatype Server = Server(ident: int, name: string, portNames: seq<string>)

  /** `xs.find(p)`, as the index of the first element satisfying `p`. */
  function FindFirst<T>(xs: seq<T>, p: T -> bool): (r: Option<nat>)
    ensures r.Some? ==> r.value < |xs| && p(xs[r.value])
    ensures r.Some? ==> forall j :: 0 <= j < r.value ==> !p(xs[j])
    ensures r.None? <==> forall j :: 0 <= j < |xs| ==> !p(xs[j])
    decreases |xs|
  {
    if xs == [] then None
    else if p(xs[0]) then Some(0)
    else
      match FindFirst(xs[1..], p)
      case None => None
      case Some(k) => Some(k + 1)
  }

  /** The `.json` zone route's test: `zoneNumber === +id || zoneName === id`. */
  predicate MatchesByValue(z: Zone, id: string)
  {
    ParseNumber(id) == Some(z.zoneNumber) || z.zoneName == id
  }

  /** The zone directory route's test: `zoneName === id ||
      zoneNumber.toString() === id`. */
  predicate MatchesByText(z: Zone, id: string)
  {
    z.zoneName == id || ShowInt(z.zoneNumber) == id
  }

  function ZoneNotFound(id: string): JsonError
  {
    Reject(404, "Not found. Could not find a zone called '" + id + "'.")
  }

  datatype ZoneAnswer = DefaultZoneInfo | ZoneInfo(zone: Zone)

  /** `GET /:zoneID.json`: "default" in any letter case asks the fleet for
      the default zone; otherwise the first zone matching by number or
      name, or 404. */
  function ZoneJson(id: string, zones: seq<Zone>): (r: Result<ZoneAnswer, JsonError>)
    ensures ToLower(id) == "default" ==> r == Ok(DefaultZoneInfo)
    ensures ToLower(id) != "default" ==>
      (r.Ok? <==> exists i :: 0 <= i < |zones| && MatchesByValue(zones[i], id))
    ensures ToLower(id) != "default" && r.Ok? ==>
      exists i :: 0 <= i < |zones| && r.value == ZoneInfo(zones[i]) && MatchesByValue(zones[i], id) &&
        forall j :: 0 <= j < i ==> !MatchesByValue(zones[j], id)
    ensures r.Err? ==> r.error == ZoneNotFound(id)
  {
    if ToLower(id) == "default" then Ok(DefaultZoneInfo)
    else
      match FindFirst(zones, z => MatchesByValue(z, id))
      case Some(i) => Ok(ZoneInfo(zones[i]))
      case None => Err(ZoneNotFound(id))
  }

  const ZoneListing: seq<string> := ["server/", "clip/", "format/", "copy/"]

  /** `GET /:zoneID/`: exactly "default", or a zone matching by name or by
      printed number, lists the zone's sub-resources; otherwise 404. */
  function ZoneDirectory(id: string, zones: seq<Zone>): (r: Result<seq<string>, JsonError>)
    ensures r.Ok? ==> r.value == ZoneListing
    ensures r.Ok? <==> id == "default" || exists i :: 0 <= i < |zones| && MatchesByText(zones[i], id)
    ensures r.Err? ==> r.error == ZoneNotFound(id)
  {
    if id == "default" then Ok(ZoneListing)
    else if FindFirst(zones, z => MatchesByText(z, id)).Some? then Ok(ZoneListing)
    else Err(ZoneNotFound(id))
  }

  /** A zone the directory route finds by its printed number the `.json`
      route finds too. */
  lemma TextMatchIsValueMatch(z: Zone, id: string)
    requires MatchesByText(z, id)
    ensures MatchesByValue(z, id)
  {
    if z.zoneName != id {
      ParseShowInt(z.zoneNumber);
    }
  }

  /** Hence every zone identifier the directory route accepts the `.json`
      route accepts. */
  lemma DirectoryFoundIsJsonFound(id: string, zones: seq<Zone>)
    requires ZoneDirectory(id, zones).Ok?
    ensures ZoneJson(id, zones).Ok?
  {
    if ToLower(id) != "default" {
      assert id != "default";
      var i :| 0 <= i < |zones| && MatchesByText(zones[i], id);
      TextMatchIsValueMatch(zones[i], id);
    }
  }

  /** The converse fails: a signed spelling of a zone's number ("+7") is
      found by the `.json` route only. */
  lemma SignedNumberFoundByValueOnly(z: Zone)
    requires z.zoneNumber >= 0
    ensures var id := "+" + ShowNat(z.zoneNumber);
      z.zoneName != id ==> MatchesByValue(z, id) && !MatchesByText(z, id)
  {
    var id := "+" + ShowNat(z.zoneNumber);
    assert id[1..] == ShowNat(z.zoneNumber);
    assert ShowInt(z.zoneNumber) != id by {
      assert IsDigit(ShowNat(z.zoneNumber)[0]);
    }
  }

  /** Upper-case "DEFAULT" is the default zone for the `.json` route but an
      ordinary name for the directory route. */
  lemma DefaultKeywordCase(zones: seq<Zone>)
    requires forall i :: 0 <= i < |zones| ==> zones[i].zoneName != "DEFAULT"
    ensures ZoneJson("DEFAULT", zones) == Ok(DefaultZoneInfo)
    ensures ZoneDirectory("DEFAULT", zones).Err?
  {
    assert ToLower("DEFAULT") == "default";
    forall i | 0 <= i < |zones|
      ensures !MatchesByText(zones[i], "DEFAULT")
    {
      var s := ShowInt(zones[i].zoneNumber);
      assert s[0] == '-' || IsDigit(s[0]);
    }
  }

  /** The server routes' test: `ident === +id || name === id`. */
  predicate ServerMatches(s: Server, id: string)
  {
    ParseNumber(id) == Some(s.ident) || s.name == id
  }

  function ServerNotFound(id: string): JsonError
  {
    Reject(404, "Not found. A server with identifier '" + id + "' was not found.")
  }

  /** `GET /default/server/:serverID.json` (and the lookup shared by the
      server directory and port-list routes): the first server matching
      by number or name, or 404. */
  function LookupServer(id: string, servers: seq<Server>): (r: Result<Server, JsonError>)
    ensures r.Ok? <==> exists i :: 0 <= i < |servers| && ServerMatches(servers[i], id)
    ensures r.Ok? ==>
      exists i :: 0 <= i < |servers| && r.value == servers[i] &&
        ServerMatches(servers[i], id) && forall j :: 0 <= j < i ==> !ServerMatches(servers[j], id)
    ensures r.Err? ==> r.error == ServerNotFound(id)
  {
    match FindFirst(servers, s => ServerMatches(s, id))
    case Some(i) => Ok(servers[i])
    case None => Err(ServerNotFound(id))
  }

  /** `GET /default/server/:serverID/`: the directory listing `port/` for
      a server found, or the same 404. */
  function ServerDirectory(id: string, servers: seq<Server>): (r: Result<seq<string>, JsonError>)
    ensures r.Ok? <==> exists i :: 0 <= i < |servers| && ServerMatches(servers[i], id)
    ensures r.Ok? ==> r.value == ["port/"]
    ensures r.Err? ==> r.error == ServerNotFound(id)
  {
    match LookupServer(id, servers)
    case Ok(_) => Ok(["port/"])
    case Err(e) => Err(e)
  }

  /** `GET /default/server/:serverID/port/`: the port names of the server
      found, or the same 404. */
  function ServerPortNames(id: string, servers: seq<Server>): (r: Result<seq<string>, JsonError>)
    ensures r.Ok? ==>
      LookupServer(id, servers).Ok? && r.value == LookupServer(id, servers).value.portNames
    ensures r.Err? <==> LookupServer(id, servers).Err?
    ensures r.Err? ==> r.error == ServerNotFound(id)
  {
    match LookupServer(id, servers)
    case Ok(s) => Ok(s.portNames)
    case Err(e) => Err(e)
  }

  /** What the `.json` zone route answers with: the fleet's default-zone
      information, or the zone found. */
  datatype ZoneBody<D> = DefaultZone(info: D) | FoundZone(zone: Zone)

  /** The whole `GET /:zoneID.json` route. The default keyword awaits
      `getDefaultZoneInfo()` and any other identifier awaits `listZones()`;
      neither call is inside a `try`, so its fault escapes unchanged. */
  function ZoneJsonRoute<D>(id: string, defaultInfo: Reply<D>, zones: Reply<seq<Zone>>): (r: Response<ZoneBody<D>>)
    ensures ToLower(id) == "default" ==>
      (r.Answer? <==> defaultInfo.Returned?) && (r.Raise? <==> defaultInfo.Threw?) && !r.Refuse?
    ensures ToLower(id) == "default" && r.Answer? ==> r.value == DefaultZone(defaultInfo.value)
    ensures ToLower(id) == "default" && r.Raise? ==> r.fault == defaultInfo.fault
    ensures ToLower(id) != "default" ==> (r.Raise? <==> zones.Threw?)
    ensures ToLower(id) != "default" && r.Raise? ==> r.fault == zones.fault
    ensures ToLower(id) != "default" && zones.Returned? ==>
      (r.Answer? <==> ZoneJson(id, zones.value).Ok?) &&
      (r.Answer? ==> r.value == FoundZone(ZoneJson(id, zones.value).value.zone)) &&
      (r.Refuse? ==> r.error == ZoneNotFound(id))
  {
    if ToLower(id) == "default" then
      match defaultInfo
      case Returned(d) => Answer(DefaultZone(d))
      case Threw(f) => Raise(f)
    else
      match zones
      case Threw(f) => Raise(f)
      case Returned(zs) =>
        match ZoneJson(id, zs)
        case Ok(ZoneInfo(z)) => Answer(FoundZone(z))
        case Err(e) => Refuse(e)
  }

  /** The default keyword never lists the zones, and any other identifier
      never asks for the default zone. */
  lemma ZoneJsonAsksOneCall<D>(id: string, d1: Reply<D>, d2: Reply<D>, z1: Reply<seq<Zone>>, z2: Reply<seq<Zone>>)
    ensures ToLower(id) == "default" ==> ZoneJsonRoute(id, d1, z1) == ZoneJsonRoute(id, d1, z2)
    ensures ToLower(id) != "default" ==> ZoneJsonRoute(id, d1, z1) == ZoneJsonRoute(id, d2, z1)
  {
  }

  /** The whole `GET /:zoneID/` route: the exact keyword "default" is
      answered without the fleet; any other identifier awaits `listZones()`
      outside a `try`. */
  function ZoneDirectoryRoute(id: string, zones: Reply<seq<Zone>>): (r: Response<seq<string>>)
    ensures id == "default" ==> r == Answer(ZoneListing)
    ensures id != "default" ==> (r.Raise? <==> zones.Threw?)
    ensures id != "default" && r.Raise? ==> r.fault == zones.fault
    ensures id != "default" && zones.Returned? ==> r == FromResult(ZoneDirectory(id, zones.value))
  {
    if id == "default" then Answer(ZoneListing)
    else Lift(zones, zs => ZoneDirectory(id, zs))
  }

  /** The whole `GET /default/server/:serverID.json` route. */
  function ServerJsonRoute(id: string, servers: Reply<seq<Server>>): (r: Response<Server>)
    ensures r.Raise? <==> servers.Threw?
    ensures r.Raise? ==> r.fault == servers.fault
    ensures servers.Returned? ==> r == FromResult(LookupServer(id, servers.value))
  {
    Lift(servers, ss => LookupServer(id, ss))
  }

  /** The whole `GET /default/server/:serverID/` route. */
  function ServerDirectoryRoute(id: string, servers: Reply<seq<Server>>): (r: Response<seq<string>>)
    ensures r.Raise? <==> servers.Threw?
    ensures r.Raise? ==> r.fault == servers.fault
    ensures servers.Returned? ==> r == FromResult(ServerDirectory(id, servers.value))
  {
    Lift(servers, ss => ServerDirectory(id, ss))
  }

  /** The whole `GET /default/server/:serverID/port/` route. */
  function ServerPortsRoute(id: string, servers: Reply<seq<Server>>): (r: Response<seq<string>>)
    ensures r.Raise? <==> servers.Threw?
    ensures r.Raise? ==> r.fault == servers.fault
    ensures servers.Returned? ==> r == FromResult(ServerPortNames(id, servers.value))
  {
    Lift(servers, ss => ServerPortNames(id, ss))
  }

  /** The three server routes agree: on the same fleet reply they all
      answer, all refuse with the same 404, or all let the same fault
      escape; the port list is that of the server the `.json` route
      answers with. */
  lemma ServerRoutesAgree(id: string, servers: Reply<seq<Server>>)
    ensures ServerDirectoryRoute(id, servers).Answer? <==> ServerJsonRoute(id, servers).Answer?
    ensures ServerPortsRoute(id, servers).Answer? <==> ServerJsonRoute(id, servers).Answer?
    ensures ServerPortsRoute(id, servers).Answer? ==>
      ServerPortsRoute(id, servers).value == ServerJsonRoute(id, servers).value.portNames
    ensures ServerJsonRoute(id, servers).Refuse? ==>
      ServerJsonRoute(id, servers).error == ServerNotFound(id) &&
      ServerDirectoryRoute(id, servers) == Refuse(ServerNotFound(id)) &&
      ServerPortsRoute(id, servers) == Refuse(ServerNotFound(id))
    ensures ServerDirectoryRoute(id, servers).Raise? <==> ServerJsonRoute(id, servers).Raise?
    ensures ServerPortsRoute(id, servers).Raise? <==> ServerJsonRoute(id, servers).Raise?
    ensures ServerJsonRoute(id, servers).Raise? ==>
      ServerDirectoryRoute(id, servers).fault == ServerJsonRoute(id, servers).fault &&
      ServerPortsRoute(id, servers).fault == ServerJsonRoute(id, servers).fault
  {
  }
}
