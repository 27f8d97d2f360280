/** The `POST /connect/:addr` route: the address rewrite that turns the
    path segment into the directory URL(s) handed to the fleet, and the
    classification of the faults a failed connection attempt throws. */
module Connect {
  import opened Wrappers
  import opened Text
  import opened Faults

  /** The port of the directory service when the address names none. */
  const DefaultPort: string := ":2096"

  const Scheme: string := "http://"

  /** What `getISAReference` receives: one URL, or a list of them when the
      address holds commas. */
  datatype Target = Single(url: string) | Many(urls: seq<string>)

  function Urls(t: Target): seq<string>
  {
    match t
    case Single(u) => [u]
    case Many(us) => us
  }

  /** The address after the default-port rewrite: a colon anywhere in it
      counts as a port, otherwise `:2096` is appended to the whole string. */
  function WithPort(addr: string): string
  {
    if ':' in addr then addr else addr + DefaultPort
  }

  function Prefixed(entries: seq<string>): (r: seq<string>)
    ensures |r| == |entries|
  {
    seq(|entries|, i requires 0 <= i < |entries| => Scheme + entries[i])
  }

  /** The address rewrite of `POST /connect/:addr`. The list form is
      chosen exactly when the address holds a comma; appending the port
      never adds one. */
  function ConnectTarget(addr: string): (r: Target)
    ensures r.Single? <==> ',' !in addr
  {
    var a := WithPort(addr);
    assert ',' in a <==> ',' in addr by {
      assert ',' !in DefaultPort;
      assert ',' in addr + DefaultPort ==> ',' in addr || ',' in DefaultPort;
    }
    if ',' in a then Many(Prefixed(Split(a, ','))) else Single(Scheme + a)
  }

  /** The route handler's rewrite done as the source does it, updating the
      address in place before choosing the call. */
  method RewriteAddress(addr: string) returns (target: Target)
    ensures target == ConnectTarget(addr)
  {
    var a := addr;
    if ':' !in a {
      a := a + DefaultPort;
    }
    if ',' in a {
      target := Many(Prefixed(Split(a, ',')));
    } else {
      target := Single(Scheme + a);
    }
  }

  /** The URLs, whatever their form, are the comma-separated entries of
      the address with its default port, each behind the scheme. */
  lemma ConnectUrls(addr: string)
    ensures Urls(ConnectTarget(addr)) == Prefixed(Split(WithPort(addr), ','))
  {
    var a := WithPort(addr);
    if ',' !in a {
      SplitFree(a, ',');
    }
  }

  /** The host part of a URL. */
  function Host(url: string): string
  {
    if |url| >= |Scheme| then url[|Scheme|..] else url
  }

  /** Every URL carries the scheme, and removing it and joining the hosts
      with commas gives back the address with its default port: the
      rewrite neither loses nor invents anything. */
  lemma ConnectRoundTrip(addr: string)
    ensures var urls := Urls(ConnectTarget(addr));
      (forall i :: 0 <= i < |urls| ==> Scheme <= urls[i]) &&
      Join(seq(|urls|, i requires 0 <= i < |urls| => Host(urls[i])), ",") == WithPort(addr)
  {
    var q := Split(WithPort(addr), ',');
    ConnectUrls(addr);
    SplitJoin(WithPort(addr), ',');
    var urls := Urls(ConnectTarget(addr));
    assert seq(|urls|, i requires 0 <= i < |urls| => Host(urls[i])) == q;
  }

  /** Without a colon in the address, only the LAST comma-separated entry
      gains the default port; the others go out with no port. */
  lemma PortOnLastEntryOnly(addr: string)
    requires ':' !in addr
    ensures var urls := Urls(ConnectTarget(addr));
      var p := Split(addr, ',');
      |urls| == |p| &&
      (forall i :: 0 <= i < |urls| - 1 ==> urls[i] == Scheme + p[i]) &&
      urls[|urls| - 1] == Scheme + p[|p| - 1] + DefaultPort
  {
    var p := Split(addr, ',');
    assert ',' !in DefaultPort;
    SplitAppend(addr, DefaultPort, ',');
    ConnectUrls(addr);
    PrefixedExtendLast(p, DefaultPort);
  }

  lemma PrefixedExtendLast(p: seq<string>, t: string)
    requires |p| >= 1
    ensures var r := Prefixed(p[..|p| - 1] + [p[|p| - 1] + t]);
      |r| == |p| &&
      (forall i :: 0 <= i < |r| - 1 ==> r[i] == Scheme + p[i]) &&
      r[|r| - 1] == Scheme + p[|p| - 1] + t
  {
  }

  /** With a colon anywhere in the address no entry gains a port. */
  lemma NoPortAddedAfterColon(addr: string)
    requires ':' in addr
    ensures Urls(ConnectTarget(addr)) == Prefixed(Split(addr, ','))
  {
    ConnectUrls(addr);
  }

  /** A single host without a port gets the default port and the scheme,
      and stays a single URL. */
  lemma ConnectBareHost(h: string)
    requires ':' !in h && ',' !in h
    ensures ConnectTarget(h) == Single(Scheme + h + DefaultPort)
  {
    assert ',' !in DefaultPort;
    assert ',' !in h + DefaultPort;
  }

  /** The route's own test: `127.0.0.1` becomes `http://127.0.0.1:2096`. */
  lemma ConnectLocalhost()
    ensures ConnectTarget("127.0.0.1") == Single("http://127.0.0.1:2096")
  {
    ConnectBareHost("127.0.0.1");
  }

  /** Two hosts without ports: only the second one gets the default port. */
  lemma ConnectTwoHosts(h1: string, h2: string)
    requires ':' !in h1 && ':' !in h2 && ',' !in h1 && ',' !in h2
    ensures ConnectTarget(h1 + "," + h2) == Many([Scheme + h1, Scheme + h2 + DefaultPort])
  {
    var addr := h1 + "," + h2;
    assert ':' !in addr && ',' in addr by {
      assert addr == h1 + [','] + h2;
      assert addr[|h1|] == ',';
    }
    assert Split(addr, ',') == [h1, h2] by {
      SplitFree(h1, ',');
      SplitSeparatorLast(h1, ',');
      SplitAppend(h1 + [','], h2, ',');
      assert h1 + [','] + h2 == addr;
      assert [] + h2 == h2;
    }
    PortOnLastEntryOnly(addr);
  }

  /** The catch block of the connect route: a fault naming ENOTFOUND
      becomes a 404 "Not found: ..." (checked first), one naming
      ECONNREFUSED a 502 "Bad gateway: ...", a `ConnectError` keeps its own
      status and anything else gets 500. The fault is then rethrown. */
  function ClassifyConnectFault(f: Fault): (g: Fault)
    ensures g.statusCode == f.statusCode && g.connectError == f.connectError && g.stack == f.stack
    ensures Occurs(f.message, "ENOTFOUND") ==>
      g.status == Some(404) && g.message == "Not found: " + f.message
    ensures !Occurs(f.message, "ENOTFOUND") && Occurs(f.message, "ECONNREFUSED") ==>
      g.status == Some(502) && g.message == "Bad gateway: " + f.message
    ensures !Occurs(f.message, "ENOTFOUND") && !Occurs(f.message, "ECONNREFUSED") ==>
      g.message == f.message && g.status == (if f.connectError then f.status else Some(500))
  {
    ContainsIsOccurs(f.message, "ENOTFOUND");
    ContainsIsOccurs(f.message, "ECONNREFUSED");
    if Contains(f.message, "ENOTFOUND") then
      f.(status := Some(404), message := "Not found: " + f.message)
    else if Contains(f.message, "ECONNREFUSED") then
      f.(status := Some(502), message := "Bad gateway: " + f.message)
    else if !f.connectError then
      f.(status := Some(500))
    else f
  }

  /** The whole `POST /connect/:addr` route: the fleet is asked for the
      target the address is rewritten to; its answer is the route's answer
      and its fault is classified and rethrown, never refused. */
  function ConnectRoute<T>(addr: string, fleet: Target -> Reply<T>): (r: Response<T>)
    ensures !r.Refuse?
    ensures r.Answer? <==> fleet(ConnectTarget(addr)).Returned?
    ensures r.Answer? ==> r.value == fleet(ConnectTarget(addr)).value
    ensures r.Raise? ==> r.fault == ClassifyConnectFault(fleet(ConnectTarget(addr)).fault)
  {
    match fleet(ConnectTarget(addr))
    case Returned(v) => Answer(v)
    case Threw(f) => Raise(ClassifyConnectFault(f))
  }

  /** The status a failed connect request finally gets, after the route's
      classification and the error middleware: a TRANSIENT fault is always
      a 502, an explicit status code wins next, then the classification
      (not found 404, refused 502, a ConnectError's own status or 500). */
  lemma ConnectFailureStatus(f: Fault)
    ensures var e := HandleFault(ClassifyConnectFault(f));
      e.status ==
        if Occurs(f.message, "TRANSIENT") then 502
        else if f.statusCode.Some? && f.statusCode.value != 0 then f.statusCode.value
        else if Occurs(f.message, "ENOTFOUND") then 404
        else if Occurs(f.message, "ECONNREFUSED") then 502
        else if f.connectError then StatusOr(f.status, 500)
        else 500
  {
    assert 'T' !in "Not found: ";
    assert 'T' !in "Bad gateway: ";
    OccursAfterPrefix("Not found: ", f.message, "TRANSIENT");
    OccursAfterPrefix("Bad gateway: ", f.message, "TRANSIENT");
  }
}
