/** The configuration schema and `Config.Validate`. URL parsing is a parameter. */
module Configuration {
  import opened Options

  datatype ServiceConfig = ServiceConfig(name: string, upstreams: seq<string>)

  datatype RouteConfig = RouteConfig(path: string, service: string)

  datatype TlsConfig = TlsConfig(certFile: string, keyFile: string, minVersion: string)

  datatype Config = Config(
    addr: string,
    intervalMs: int,
    timeoutMs: int,
    healthPath: string,
    services: seq<ServiceConfig>,
    routes: seq<RouteConfig>,
    tls: Option<TlsConfig>,
    observability: Option<bool>
  )

  /** What `url.ParseRequestURI` and `strconv.Atoi` of the port yield. */
  datatype Url = Url(scheme: string, host: string, port: string, portNumber: Option<int>)

  type UrlParser = string -> Option<Url>

  /** Observability is on unless the configuration says `enabled: false`. */
  function EnabledValue(c: Config): (enabled: bool)
    ensures enabled <==> c.observability != Some(false)
  {
    if c.observability.None? then true else c.observability.value
  }

  datatype Fault = Empty | Unparsable | BadScheme | NoHost | NoPort | PortNotANumber | PortOutOfRange

  datatype Error =
    | EmptyAddr
    | BadInterval
    | BadTimeout
    | TimeoutAboveInterval
    | EmptyHealthPath
    | RelativeHealthPath
    | NoServices
    | EmptyServiceName(i: nat)
    | DuplicateService(i: nat)
    | NoUpstreams(i: nat)
    | BadUpstream(i: nat, j: nat, fault: Fault)
    | NoRoutes
    | EmptyRoutePath(i: nat)
    | DuplicateRoute(i: nat)
    | EmptyRouteService(i: nat)
    | UnknownService(i: nat)
    | EmptyCertFile
    | EmptyKeyFile
    | BadTlsVersion

  // ---------------------------------------------------------------------------------------
  // strings.TrimSpace
  // ---------------------------------------------------------------------------------------

  /** `unicode.IsSpace`. */
  predicate IsSpace(c: char) {
    var n := c as int;
    || 0x09 <= n <= 0x0D || n == 0x20 || n == 0x85 || n == 0xA0 || n == 0x1680 || 0x2000 <= n <= 0x200A
    || n == 0x2028 || n == 0x2029 || n == 0x202F || n == 0x205F || n == 0x3000
  }

  /** The 25 characters with the White_Space property of Unicode. */
  const WHITE_SPACE: set<int> := {
    9, 10, 11, 12, 13, 32, 133, 160, 5760,
    8192, 8193, 8194, 8195, 8196, 8197, 8198, 8199, 8200, 8201, 8202,
    8232, 8233, 8239, 8287, 12288
  }

  lemma SpaceIsWhiteSpace(c: char)
    ensures IsSpace(c) <==> c as int in WHITE_SPACE
  {}

  function TrimLeft(s: string): string {
    if s != "" && IsSpace(s[0]) then TrimLeft(s[1..]) else s
  }

  function TrimRight(s: string): string {
    if s != "" && IsSpace(s[|s| - 1]) then TrimRight(s[..|s| - 1]) else s
  }

  function TrimSpace(s: string): string {
    TrimRight(TrimLeft(s))
  }

  predicate AllSpace(s: string) {
    forall k :: 0 <= k < |s| ==> IsSpace(s[k])
  }

  lemma {:induction false} TrimLeftIs(s: string) returns (n: nat)
    ensures n <= |s| && TrimLeft(s) == s[n..] && AllSpace(s[..n])
    ensures n < |s| ==> !IsSpace(s[n])
  {
    n := 0;
    if s != "" && IsSpace(s[0]) {
      n := TrimLeftIs(s[1..]);
      assert forall k :: 0 < k <= n ==> s[k] == s[1..][k - 1];
      assert s[1..][n..] == s[n + 1..];
      n := n + 1;
    }
  }

  lemma {:induction false} TrimRightIs(s: string) returns (n: nat)
    ensures n <= |s| && TrimRight(s) == s[..n] && AllSpace(s[n..])
    ensures n > 0 ==> !IsSpace(s[n - 1])
  {
    n := |s|;
    if s != "" && IsSpace(s[n - 1]) {
      n := TrimRightIs(s[..|s| - 1]);
      assert s[..|s| - 1][..n] == s[..n];
      assert forall k :: n <= k < |s| - 1 ==> s[k] == s[..|s| - 1][n..][k - n];
    }
  }

  /** `strings.TrimSpace` cuts off all surrounding whitespace and nothing else: what is left is the
      stretch from the first to the last character that is no whitespace. */
  lemma TrimSpaceIs(s: string) returns (from: nat, to: nat)
    ensures from <= to <= |s| && TrimSpace(s) == s[from..to]
    ensures AllSpace(s[..from]) && AllSpace(s[to..])
    ensures from < to ==> !IsSpace(s[from]) && !IsSpace(s[to - 1])
  {
    from := TrimLeftIs(s);
    var n := TrimRightIs(s[from..]);
    to := from + n;
    assert s[from..][..n] == s[from..to] && s[from..][n..] == s[to..];
  }

  lemma BlankTrims(s: string)
    ensures TrimSpace(s) == "" <==> AllSpace(s)
  {
    var from, to := TrimSpaceIs(s);
    if from < to {
      assert !IsSpace(s[from]);
    } else {
      assert s == s[..from] + s[to..];
    }
  }

  // ---------------------------------------------------------------------------------------
  // What Validate accepts
  // ---------------------------------------------------------------------------------------

  /** An upstream that requests can be sent to. */
  predicate Usable(parse: UrlParser, upstream: string) {
    && (exists k :: 0 <= k < |upstream| && !IsSpace(upstream[k]))
    && parse(upstream).Some?
    && var u := parse(upstream).value;
       && u.scheme in {"http", "https"}
       && u.host != "" && u.port != ""
       && u.portNumber.Some? && 1 <= u.portNumber.value <= 65535
  }

  /** What is wrong with an upstream that is not usable: the first of the conditions that fails. */
  predicate Faulty(parse: UrlParser, upstream: string, fault: Fault) {
    var blank := forall k :: 0 <= k < |upstream| ==> IsSpace(upstream[k]);
    if blank then fault == Empty
    else if parse(upstream).None? then fault == Unparsable
    else
      var u := parse(upstream).value;
      match fault
      case Empty => false
      case Unparsable => false
      case BadScheme => u.scheme !in {"http", "https"}
      case NoHost => u.scheme in {"http", "https"} && u.host == ""
      case NoPort => u.scheme in {"http", "https"} && u.host != "" && u.port == ""
      case PortNotANumber => u.scheme in {"http", "https"} && u.host != "" && u.port != "" && u.portNumber.None?
      case PortOutOfRange =>
        && u.scheme in {"http", "https"} && u.host != "" && u.port != ""
        && u.portNumber.Some? && !(1 <= u.portNumber.value <= 65535)
  }

  /** The checks on one upstream, in the order of the loop body. */
  function UpstreamFault(parse: UrlParser, upstream: string): (fault: Option<Fault>)
    ensures fault.None? <==> Usable(parse, upstream)
    ensures fault.Some? ==> Faulty(parse, upstream, fault.value)
  {
    BlankTrims(upstream);
    if TrimSpace(upstream) == "" then Some(Empty)
    else
      match parse(upstream)
      case None => Some(Unparsable)
      case Some(u) =>
        if u.scheme != "http" && u.scheme != "https" then Some(BadScheme)
        else if u.host == "" then Some(NoHost)
        else if u.port == "" then Some(NoPort)
        else if u.portNumber.None? then Some(PortNotANumber)
        else if u.portNumber.value < 1 || u.portNumber.value > 65535 then Some(PortOutOfRange)
        else None
  }

  predicate FieldsOk(c: Config) {
    && TrimSpace(c.addr) != ""
    && 0 < c.timeoutMs <= c.intervalMs
    && TrimSpace(c.healthPath) != ""
    && "/" <= c.healthPath
  }

  predicate ServiceOk(parse: UrlParser, svc: ServiceConfig) {
    && TrimSpace(svc.name) != ""
    && svc.upstreams != []
    && forall j :: 0 <= j < |svc.upstreams| ==> Usable(parse, svc.upstreams[j])
  }

  predicate Names(services: seq<ServiceConfig>, name: string) {
    exists i :: 0 <= i < |services| && TrimSpace(services[i].name) == name
  }

  predicate ServicesOk(parse: UrlParser, services: seq<ServiceConfig>) {
    && (forall i :: 0 <= i < |services| ==> ServiceOk(parse, services[i]))
    && (forall i, j :: 0 <= i < j < |services| ==> TrimSpace(services[i].name) != TrimSpace(services[j].name))
  }

  predicate RouteOk(services: seq<ServiceConfig>, route: RouteConfig) {
    TrimSpace(route.path) != "" && TrimSpace(route.service) != "" && Names(services, TrimSpace(route.service))
  }

  predicate HasPath(routes: seq<RouteConfig>, path: string) {
    exists i :: 0 <= i < |routes| && routes[i].path == path
  }

  predicate RoutesOk(services: seq<ServiceConfig>, routes: seq<RouteConfig>) {
    && (forall i :: 0 <= i < |routes| ==> RouteOk(services, routes[i]))
    && (forall i, j :: 0 <= i < j < |routes| ==> routes[i].path != routes[j].path)
  }

  predicate TlsOk(tls: Option<TlsConfig>) {
    tls.Some? ==>
      && TrimSpace(tls.value.certFile) != ""
      && TrimSpace(tls.value.keyFile) != ""
      && tls.value.minVersion in ["", "1.2", "1.3"]
  }

  /** The conditions of the schema, in no order. */
  predicate Accepts(parse: UrlParser, c: Config) {
    && FieldsOk(c)
    && c.services != []
    && ServicesOk(parse, c.services)
    && c.routes != []
    && RoutesOk(c.services, c.routes)
    && TlsOk(c.tls)
  }

  /** The condition an error names really fails, at the place it names. */
  predicate Justified(parse: UrlParser, c: Config, e: Error) {
    match e
    case EmptyAddr => TrimSpace(c.addr) == ""
    case BadInterval => c.intervalMs <= 0
    case BadTimeout => c.timeoutMs <= 0
    case TimeoutAboveInterval => c.timeoutMs > c.intervalMs
    case EmptyHealthPath => TrimSpace(c.healthPath) == ""
    case RelativeHealthPath => !("/" <= c.healthPath)
    case NoServices => c.services == []
    case EmptyServiceName(i) => i < |c.services| && TrimSpace(c.services[i].name) == ""
    case DuplicateService(i) => i < |c.services| && Names(c.services[..i], TrimSpace(c.services[i].name))
    case NoUpstreams(i) => i < |c.services| && c.services[i].upstreams == []
    case BadUpstream(i, j, fault) =>
      && i < |c.services| && j < |c.services[i].upstreams|
      && Faulty(parse, c.services[i].upstreams[j], fault)
    case NoRoutes => c.routes == []
    case EmptyRoutePath(i) => i < |c.routes| && TrimSpace(c.routes[i].path) == ""
    case DuplicateRoute(i) => i < |c.routes| && HasPath(c.routes[..i], c.routes[i].path)
    case EmptyRouteService(i) => i < |c.routes| && TrimSpace(c.routes[i].service) == ""
    case UnknownService(i) => i < |c.routes| && !Names(c.services, TrimSpace(c.routes[i].service))
    case EmptyCertFile => c.tls.Some? && TrimSpace(c.tls.value.certFile) == ""
    case EmptyKeyFile => c.tls.Some? && TrimSpace(c.tls.value.keyFile) == ""
    case BadTlsVersion => c.tls.Some? && c.tls.value.minVersion !in ["", "1.2", "1.3"]
  }

  /** The services before the one an error names are in order, and so is what is checked before
      the error in that service. */
  predicate ForemostService(parse: UrlParser, services: seq<ServiceConfig>, e: Error) {
    match e
    case EmptyServiceName(i) => i < |services| && ServicesOk(parse, services[..i])
    case DuplicateService(i) =>
      i < |services| && ServicesOk(parse, services[..i]) && TrimSpace(services[i].name) != ""
    case NoUpstreams(i) =>
      && i < |services| && ServicesOk(parse, services[..i]) && TrimSpace(services[i].name) != ""
      && !Names(services[..i], TrimSpace(services[i].name))
    case BadUpstream(i, j, _) =>
      && i < |services| && ServicesOk(parse, services[..i]) && TrimSpace(services[i].name) != ""
      && !Names(services[..i], TrimSpace(services[i].name))
      && j < |services[i].upstreams| && forall k :: 0 <= k < j ==> Usable(parse, services[i].upstreams[k])
    case _ => false
  }

  /** The same for routes. */
  predicate ForemostRoute(services: seq<ServiceConfig>, routes: seq<RouteConfig>, e: Error) {
    match e
    case EmptyRoutePath(i) => i < |routes| && RoutesOk(services, routes[..i])
    case DuplicateRoute(i) => i < |routes| && RoutesOk(services, routes[..i]) && TrimSpace(routes[i].path) != ""
    case EmptyRouteService(i) =>
      && i < |routes| && RoutesOk(services, routes[..i]) && TrimSpace(routes[i].path) != ""
      && !HasPath(routes[..i], routes[i].path)
    case UnknownService(i) =>
      && i < |routes| && RoutesOk(services, routes[..i]) && TrimSpace(routes[i].path) != ""
      && !HasPath(routes[..i], routes[i].path) && TrimSpace(routes[i].service) != ""
    case _ => false
  }

  predicate ServicesDone(parse: UrlParser, c: Config) {
    FieldsOk(c) && c.services != [] && ServicesOk(parse, c.services)
  }

  predicate RoutesDone(parse: UrlParser, c: Config) {
    ServicesDone(parse, c) && c.routes != [] && RoutesOk(c.services, c.routes)
  }

  /** Everything that is checked before the condition an error names holds. */
  predicate Foremost(parse: UrlParser, c: Config, e: Error) {
    match e
    case EmptyAddr => true
    case BadInterval => TrimSpace(c.addr) != ""
    case BadTimeout => TrimSpace(c.addr) != "" && c.intervalMs > 0
    case TimeoutAboveInterval => TrimSpace(c.addr) != "" && c.intervalMs > 0 && c.timeoutMs > 0
    case EmptyHealthPath => TrimSpace(c.addr) != "" && 0 < c.timeoutMs <= c.intervalMs
    case RelativeHealthPath =>
      TrimSpace(c.addr) != "" && 0 < c.timeoutMs <= c.intervalMs && TrimSpace(c.healthPath) != ""
    case NoServices => FieldsOk(c)
    case NoRoutes => ServicesDone(parse, c)
    case EmptyCertFile => RoutesDone(parse, c)
    case EmptyKeyFile => RoutesDone(parse, c) && c.tls.Some? && TrimSpace(c.tls.value.certFile) != ""
    case BadTlsVersion =>
      && RoutesDone(parse, c) && c.tls.Some?
      && TrimSpace(c.tls.value.certFile) != "" && TrimSpace(c.tls.value.keyFile) != ""
    case _ =>
      || (FieldsOk(c) && ForemostService(parse, c.services, e))
      || (ServicesDone(parse, c) && c.routes != [] && ForemostRoute(c.services, c.routes, e))
  }

  // ---------------------------------------------------------------------------------------
  // Validate
  // ---------------------------------------------------------------------------------------

  /** The prefix of services checked so far is in order and `seen` holds its names. */
  ghost predicate Checked(parse: UrlParser, services: seq<ServiceConfig>, seen: set<string>) {
    ServicesOk(parse, services) && forall name :: name in seen <==> Names(services, name)
  }

  method ValidateUpstreams(parse: UrlParser, i: nat, upstreams: seq<string>) returns (err: Option<Error>)
    ensures err.None? <==> forall j :: 0 <= j < |upstreams| ==> Usable(parse, upstreams[j])
    ensures err.Some? ==> err.value.BadUpstream? && err.value.i == i && err.value.j < |upstreams|
                          && Faulty(parse, upstreams[err.value.j], err.value.fault)
                          && forall k :: 0 <= k < err.value.j ==> Usable(parse, upstreams[k])
  {
    for j := 0 to |upstreams|
      invariant forall k :: 0 <= k < j ==> Usable(parse, upstreams[k])
    {
      var fault := UpstreamFault(parse, upstreams[j]);
      if fault.Some? {
        return Some(BadUpstream(i, j, fault.value));
      }
    }
    return None;
  }

  lemma OneMoreService(parse: UrlParser, services: seq<ServiceConfig>, i: nat, seen: set<string>)
    requires i < |services| && Checked(parse, services[..i], seen) && ServiceOk(parse, services[i])
    requires TrimSpace(services[i].name) !in seen
    ensures Checked(parse, services[..i + 1], seen + {TrimSpace(services[i].name)})
  {
    var before, after := services[..i], services[..i + 1];
    assert forall k :: 0 <= k < i ==> before[k] == after[k];
    forall name
      ensures Names(after, name) <==> Names(before, name) || name == TrimSpace(services[i].name)
    {
      if name == TrimSpace(services[i].name) {
        assert after[i] == services[i];
      }
      if Names(before, name) {
        var k :| 0 <= k < i && TrimSpace(before[k].name) == name;
        assert after[k] == before[k];
      }
    }
    forall k | 0 <= k < i
      ensures TrimSpace(after[k].name) != TrimSpace(services[i].name)
    {
      assert Names(before, TrimSpace(before[k].name));
    }
  }

  method ValidateServices(parse: UrlParser, c: Config) returns (err: Option<Error>, seen: set<string>)
    ensures err.None? ==> Checked(parse, c.services, seen)
    ensures err.Some? ==> Justified(parse, c, err.value) && ForemostService(parse, c.services, err.value)
  {
    seen := {};
    for i := 0 to |c.services|
      invariant Checked(parse, c.services[..i], seen)
    {
      var svc := c.services[i];
      var name := TrimSpace(svc.name);
      if name == "" {
        return Some(EmptyServiceName(i)), seen;
      }
      if name in seen {
        return Some(DuplicateService(i)), seen;
      }
      ghost var seenBefore := seen;
      seen := seen + {name};
      if |svc.upstreams| == 0 {
        return Some(NoUpstreams(i)), seen;
      }
      err := ValidateUpstreams(parse, i, svc.upstreams);
      if err.Some? {
        return;
      }
      OneMoreService(parse, c.services, i, seenBefore);
    }
    assert c.services[..|c.services|] == c.services;
    err := None;
  }

  /** The prefix of routes checked so far is in order and `seen` holds its paths. */
  ghost predicate RoutesChecked(services: seq<ServiceConfig>, routes: seq<RouteConfig>, seen: set<string>) {
    RoutesOk(services, routes) && forall path :: path in seen <==> HasPath(routes, path)
  }

  lemma OneMoreRoute(services: seq<ServiceConfig>, routes: seq<RouteConfig>, i: nat, seen: set<string>)
    requires i < |routes| && RoutesChecked(services, routes[..i], seen) && RouteOk(services, routes[i])
    requires routes[i].path !in seen
    ensures RoutesChecked(services, routes[..i + 1], seen + {routes[i].path})
  {
    var before, after := routes[..i], routes[..i + 1];
    assert forall k :: 0 <= k < i ==> before[k] == after[k];
    assert after[i] == routes[i];
    forall k | 0 <= k < i
      ensures after[k].path != routes[i].path
    {
      assert HasPath(before, before[k].path);
    }
  }

  method ValidateRoutes(parse: UrlParser, c: Config, seenServices: set<string>) returns (err: Option<Error>)
    requires forall name :: name in seenServices <==> Names(c.services, name)
    ensures err.None? ==> RoutesOk(c.services, c.routes)
    ensures err.Some? ==> Justified(parse, c, err.value) && ForemostRoute(c.services, c.routes, err.value)
  {
    var seenPaths: set<string> := {};
    for i := 0 to |c.routes|
      invariant RoutesChecked(c.services, c.routes[..i], seenPaths)
    {
      var route := c.routes[i];
      if TrimSpace(route.path) == "" {
        return Some(EmptyRoutePath(i));
      }
      if route.path in seenPaths {
        return Some(DuplicateRoute(i));
      }
      ghost var seenBefore := seenPaths;
      seenPaths := seenPaths + {route.path};
      var serviceName := TrimSpace(route.service);
      if serviceName == "" {
        return Some(EmptyRouteService(i));
      }
      if serviceName !in seenServices {
        return Some(UnknownService(i));
      }
      OneMoreRoute(c.services, c.routes, i, seenBefore);
    }
    assert c.routes[..|c.routes|] == c.routes;
    return None;
  }

  /** `Validate` accepts exactly the configurations that meet the schema's conditions, and an
      error it returns names the first condition that fails. */
  method Validate(parse: UrlParser, c: Config) returns (err: Option<Error>)
    ensures err.None? <==> Accepts(parse, c)
    ensures err.Some? ==> Justified(parse, c, err.value) && Foremost(parse, c, err.value)
  {
    err := ValidateInOrder(parse, c);
    if err.Some? {
      JustifiedRefuses(parse, c, err.value);
    }
  }

  method ValidateInOrder(parse: UrlParser, c: Config) returns (err: Option<Error>)
    ensures err.None? ==> Accepts(parse, c)
    ensures err.Some? ==> Justified(parse, c, err.value) && Foremost(parse, c, err.value)
  {
    if TrimSpace(c.addr) == "" { return Some(EmptyAddr); }
    if c.intervalMs <= 0 { return Some(BadInterval); }
    if c.timeoutMs <= 0 { return Some(BadTimeout); }
    if c.timeoutMs > c.intervalMs { return Some(TimeoutAboveInterval); }
    if TrimSpace(c.healthPath) == "" { return Some(EmptyHealthPath); }
    if !("/" <= c.healthPath) { return Some(RelativeHealthPath); }
    if |c.services| == 0 { return Some(NoServices); }
    var seen;
    err, seen := ValidateServices(parse, c);
    if err.Some? { return; }
    if |c.routes| == 0 { return Some(NoRoutes); }
    err := ValidateRoutes(parse, c, seen);
    if err.Some? { return; }
    if c.tls.Some? {
      if TrimSpace(c.tls.value.certFile) == "" { return Some(EmptyCertFile); }
      if TrimSpace(c.tls.value.keyFile) == "" { return Some(EmptyKeyFile); }
      if c.tls.value.minVersion !in ["", "1.2", "1.3"] { return Some(BadTlsVersion); }
    }
    err := None;
  }

  /** A configuration with a justified error is not acceptable. */
  lemma JustifiedRefuses(parse: UrlParser, c: Config, e: Error)
    requires Justified(parse, c, e)
    ensures !Accepts(parse, c)
  {
    if e.DuplicateService? {
      var k :| 0 <= k < e.i && TrimSpace(c.services[..e.i][k].name) == TrimSpace(c.services[e.i].name);
      assert c.services[..e.i][k] == c.services[k];
    }
  }

  /** A service with a justified error spoils every list of services that holds it. */
  lemma BadServiceSpoils(parse: UrlParser, c: Config, e: Error, n: nat)
    requires Justified(parse, c, e) && (e.EmptyServiceName? || e.DuplicateService? || e.NoUpstreams? || e.BadUpstream?)
    requires e.i < n <= |c.services|
    ensures !ServicesOk(parse, c.services[..n])
  {
    var services := c.services[..n];
    assert services[e.i] == c.services[e.i];
    if e.DuplicateService? {
      var k :| 0 <= k < e.i && TrimSpace(c.services[..e.i][k].name) == TrimSpace(c.services[e.i].name);
      assert services[k] == c.services[k];
    } else if e.BadUpstream? {
      assert !Usable(parse, services[e.i].upstreams[e.j]);
    }
  }

  lemma BadRouteSpoils(parse: UrlParser, c: Config, e: Error, n: nat)
    requires Justified(parse, c, e)
    requires e.EmptyRoutePath? || e.DuplicateRoute? || e.EmptyRouteService? || e.UnknownService?
    requires e.i < n <= |c.routes|
    ensures !RoutesOk(c.services, c.routes[..n])
  {
    var routes := c.routes[..n];
    assert routes[e.i] == c.routes[e.i];
    if e.DuplicateRoute? {
      var k :| 0 <= k < e.i && c.routes[..e.i][k].path == c.routes[e.i].path;
      assert routes[k] == c.routes[k];
    } else {
      assert !RouteOk(c.services, routes[e.i]);
    }
  }

  /** The part of the configuration an error is about, in the order of the checks. */
  function Part(e: Error): nat {
    match e
    case EmptyAddr => 0
    case BadInterval => 1
    case BadTimeout => 2
    case TimeoutAboveInterval => 3
    case EmptyHealthPath => 4
    case RelativeHealthPath => 5
    case NoServices => 6
    case EmptyServiceName(_) => 7
    case DuplicateService(_) => 7
    case NoUpstreams(_) => 7
    case BadUpstream(_, _, _) => 7
    case NoRoutes => 8
    case EmptyRoutePath(_) => 9
    case DuplicateRoute(_) => 9
    case EmptyRouteService(_) => 9
    case UnknownService(_) => 9
    case EmptyCertFile => 10
    case EmptyKeyFile => 11
    case BadTlsVersion => 12
  }

  ghost predicate IsFirst(parse: UrlParser, c: Config, e: Error) {
    Justified(parse, c, e) && Foremost(parse, c, e)
  }

  /** An error of an earlier part contradicts what must hold before a later one. */
  lemma PartsAgree(parse: UrlParser, c: Config, e: Error, e': Error)
    requires IsFirst(parse, c, e) && IsFirst(parse, c, e')
    ensures Part(e) >= Part(e')
  {
    assert c.services[..|c.services|] == c.services && c.routes[..|c.routes|] == c.routes;
    if Part(e) == 7 {
      BadServiceSpoils(parse, c, e, |c.services|);
    } else if Part(e) == 9 {
      BadRouteSpoils(parse, c, e, |c.routes|);
    }
  }

  lemma SamePlace(parse: UrlParser, c: Config, e: Error, e': Error)
    requires IsFirst(parse, c, e) && IsFirst(parse, c, e')
    requires Part(e) == Part(e') && (Part(e) == 7 || Part(e) == 9)
    ensures e.i >= e'.i
  {
    if e.i < e'.i && Part(e) == 7 {
      BadServiceSpoils(parse, c, e, e'.i);
    } else if e.i < e'.i {
      BadRouteSpoils(parse, c, e, e'.i);
    }
  }

  lemma SameService(parse: UrlParser, c: Config, e: Error, e': Error)
    requires IsFirst(parse, c, e) && IsFirst(parse, c, e') && Part(e) == Part(e') == 7 && e.i == e'.i
    ensures e == e'
  {}

  lemma SameRoute(parse: UrlParser, c: Config, e: Error, e': Error)
    requires IsFirst(parse, c, e) && IsFirst(parse, c, e') && Part(e) == Part(e') == 9 && e.i == e'.i
    ensures e == e'
  {}

  /** There is at most one first condition that fails, so `Validate` returns the only error it can. */
  lemma FirstErrorUnique(parse: UrlParser, c: Config, e: Error, e': Error)
    requires IsFirst(parse, c, e) && IsFirst(parse, c, e')
    ensures e == e'
  {
    PartsAgree(parse, c, e, e');
    PartsAgree(parse, c, e', e);
    if Part(e) == 7 || Part(e) == 9 {
      SamePlace(parse, c, e, e');
      SamePlace(parse, c, e', e);
      if Part(e) == 7 {
        SameService(parse, c, e, e');
      } else {
        SameRoute(parse, c, e, e');
      }
    }
  }
}
