/** `BuildRuntime`: from a validated configuration to a routed runtime. */
module Builder {
  import opened Options
  import opened Configuration
  import opened Routing

  /** A service is the pool its balancer turns through. */
  datatype Service = Service(pool: seq<string>)

  datatype Outcome =
    | TlsFailed
    | BackendFailed(generation: nat, workers: nat)
    | Built(generation: nat, workers: nat, enabled: bool, router: Router<Service>)

  /** The services by name, a later one replacing an earlier one of the same name. */
  function ServiceMap(services: seq<ServiceConfig>): map<string, Service> {
    if services == [] then map[]
    else
      var n := |services| - 1;
      ServiceMap(services[..n])[services[n].name := Service(services[n].upstreams)]
  }

  function Lookup(services: map<string, Service>, name: string): Option<Service> {
    if name in services then Some(services[name]) else None
  }

  function RouteMap(routes: seq<RouteConfig>, services: map<string, Service>): map<string, Option<Service>> {
    if routes == [] then map[]
    else
      var n := |routes| - 1;
      RouteMap(routes[..n], services)[routes[n].path := Lookup(services, routes[n].service)]
  }

  function Upstreams(services: seq<ServiceConfig>): seq<string> {
    if services == [] then []
    else Upstreams(services[..|services| - 1]) + services[|services| - 1].upstreams
  }

  /** The routes a runtime built from `c` holds. */
  function BuiltRoutes(c: Config): map<string, Option<Service>> {
    RouteMap(c.routes, ServiceMap(c.services))
  }

  predicate AllUsable(usable: string -> bool, upstreams: seq<string>) {
    forall j :: 0 <= j < |upstreams| ==> usable(upstreams[j])
  }

  class Factory {
    var nextGeneration: nat

    constructor ()
      ensures nextGeneration == 0
    {
      nextGeneration := 0;
    }

    /** `usable` says for which URLs `NewBackend` succeeds. Every backend made gets one prober.
        A failed build leaves the probers of the backends made so far to their cancelled
        context, and its generation number unused. */
    method BuildRuntime(c: Config, tlsLoads: bool, usable: string -> bool) returns (result: Outcome)
      modifies this
      ensures !tlsLoads ==> result == TlsFailed && nextGeneration == old(nextGeneration)
      ensures tlsLoads ==> nextGeneration == old(nextGeneration) + 1
      ensures tlsLoads && AllUsable(usable, Upstreams(c.services)) ==>
                && result.Built?
                && result.generation == nextGeneration
                && result.workers == |Upstreams(c.services)|
                && result.enabled == EnabledValue(c)
                && fresh(result.router)
                && result.router.routes == BuiltRoutes(c)
      ensures tlsLoads && !AllUsable(usable, Upstreams(c.services)) ==>
                && result.BackendFailed?
                && result.generation == nextGeneration
                && result.workers < |Upstreams(c.services)|
                && !usable(Upstreams(c.services)[result.workers])
                && AllUsable(usable, Upstreams(c.services)[..result.workers])
    {
      if !tlsLoads {
        return TlsFailed;
      }
      nextGeneration := nextGeneration + 1;
      var router := new Router<Service>();
      var failed, workers, services := BuildServices(c.services, usable);
      if failed {
        return BackendFailed(nextGeneration, workers);
      }
      AddRoutes(router, c.routes, services);
      return Built(nextGeneration, workers, EnabledValue(c), router);
    }
  }

  /** The nested loops over services and upstreams: the backends made, counted by their probers. */
  method BuildServices(configs: seq<ServiceConfig>, usable: string -> bool)
    returns (failed: bool, workers: nat, services: map<string, Service>)
    ensures failed == !AllUsable(usable, Upstreams(configs))
    ensures !failed ==> workers == |Upstreams(configs)| && services == ServiceMap(configs)
    ensures failed ==>
              && workers < |Upstreams(configs)|
              && !usable(Upstreams(configs)[workers])
              && AllUsable(usable, Upstreams(configs)[..workers])
  {
    services, workers := map[], 0;
    for i := 0 to |configs|
      invariant workers == |Upstreams(configs[..i])|
      invariant AllUsable(usable, Upstreams(configs[..i]))
      invariant services == ServiceMap(configs[..i])
    {
      ghost var before := configs[..i];
      assert configs[..i + 1][..i] == before;
      PrefixOfUpstreams(configs, i + 1);
      var backends: seq<string> := [];
      for j := 0 to |configs[i].upstreams|
        invariant backends == configs[i].upstreams[..j]
        invariant workers == |Upstreams(before)| + j
        invariant AllUsable(usable, backends)
      {
        var url := configs[i].upstreams[j];
        if !usable(url) {
          assert Upstreams(configs)[..workers] == Upstreams(before) + backends;
          assert Upstreams(configs)[workers] == url;
          return true, workers, services;
        }
        backends := backends + [url];
        workers := workers + 1;
      }
      assert backends == configs[i].upstreams;
      services := services[configs[i].name := Service(backends)];
    }
    assert configs[..|configs|] == configs;
    failed := false;
  }

  method AddRoutes(router: Router<Service>, routes: seq<RouteConfig>, services: map<string, Service>)
    requires router.routes == map[]
    modifies router
    ensures router.routes == RouteMap(routes, services)
  {
    for k := 0 to |routes|
      invariant router.routes == RouteMap(routes[..k], services)
    {
      assert routes[..k + 1][..k] == routes[..k];
      router.AddRoute(routes[k].path, Lookup(services, routes[k].service));
    }
    assert routes[..|routes|] == routes;
  }

  lemma {:induction false} PrefixOfUpstreams(services: seq<ServiceConfig>, i: nat)
    requires i <= |services|
    ensures Upstreams(services[..i]) <= Upstreams(services)
  {
    if i == |services| {
      assert services[..i] == services;
    } else {
      var n := |services| - 1;
      assert services[..n][..i] == services[..i];
      PrefixOfUpstreams(services[..n], i);
    }
  }

  // ---------------------------------------------------------------------------------------
  // From configuration to answer
  // ---------------------------------------------------------------------------------------

  /** A service carries exactly this name, without trimming. */
  predicate Carries(services: seq<ServiceConfig>, name: string, i: nat) {
    i < |services| && services[i].name == name
  }

  lemma {:induction false} ServiceMapKeys(services: seq<ServiceConfig>, name: string)
    ensures name in ServiceMap(services) <==> exists i :: Carries(services, name, i)
  {
    if services != [] {
      var n := |services| - 1;
      ServiceMapKeys(services[..n], name);
      if exists i :: Carries(services[..n], name, i) {
        var i :| Carries(services[..n], name, i);
        assert Carries(services, name, i);
      }
      if exists i :: Carries(services, name, i) {
        var i :| Carries(services, name, i);
        assert i == n || Carries(services[..n], name, i);
      }
      assert services[n].name == name ==> Carries(services, name, n);
    }
  }

  lemma {:induction false} ServiceMapAt(services: seq<ServiceConfig>, i: nat)
    requires i < |services|
    requires forall j, k :: 0 <= j < k < |services| ==> services[j].name != services[k].name
    ensures services[i].name in ServiceMap(services)
    ensures ServiceMap(services)[services[i].name] == Service(services[i].upstreams)
  {
    var n := |services| - 1;
    if i < n {
      ServiceMapAt(services[..n], i);
    }
  }

  lemma {:induction false} RouteMapAt(routes: seq<RouteConfig>, services: map<string, Service>, i: nat)
    requires i < |routes|
    requires forall j, k :: 0 <= j < k < |routes| ==> routes[j].path != routes[k].path
    ensures routes[i].path in RouteMap(routes, services)
    ensures RouteMap(routes, services)[routes[i].path] == Lookup(services, routes[i].service)
  {
    var n := |routes| - 1;
    if i < n {
      RouteMapAt(routes[..n], services, i);
    }
  }

  lemma {:induction false} RouteMapKeys(routes: seq<RouteConfig>, services: map<string, Service>, key: string)
    returns (i: nat)
    requires key in RouteMap(routes, services)
    ensures i < |routes| && routes[i].path == key
  {
    i := |routes| - 1;
    if routes[i].path != key {
      i := RouteMapKeys(routes[..i], services, key);
    }
  }

  /** A route of an accepted configuration is bound to the service that carries its name, with a
      pool that is not empty; it is bound to none exactly when no service carries that name
      untrimmed. */
  lemma RouteResolves(parse: UrlParser, c: Config, r: nat)
    requires Accepts(parse, c) && r < |c.routes|
    ensures c.routes[r].path in BuiltRoutes(c)
    ensures BuiltRoutes(c)[c.routes[r].path].None? <==>
              forall i :: 0 <= i < |c.services| ==> c.services[i].name != c.routes[r].service
    ensures forall i :: 0 <= i < |c.services| && c.services[i].name == c.routes[r].service ==>
              && BuiltRoutes(c)[c.routes[r].path] == Some(Service(c.services[i].upstreams))
              && c.services[i].upstreams != []
  {
    var services := ServiceMap(c.services);
    RouteMapAt(c.routes, services, r);
    ServiceMapKeys(c.services, c.routes[r].service);
    if c.routes[r].service in services {
      var i :| Carries(c.services, c.routes[r].service, i);
    }
    forall i | 0 <= i < |c.services| && c.services[i].name == c.routes[r].service
      ensures BuiltRoutes(c)[c.routes[r].path] == Some(Service(c.services[i].upstreams))
      ensures c.services[i].upstreams != []
    {
      ServiceMapAt(c.services, i);
      assert ServiceOk(parse, c.services[i]);
    }
  }

  /** No name is written with surrounding whitespace. */
  predicate NamesTrimmed(c: Config) {
    && (forall i :: 0 <= i < |c.services| ==> TrimSpace(c.services[i].name) == c.services[i].name)
    && (forall i :: 0 <= i < |c.routes| ==> TrimSpace(c.routes[i].service) == c.routes[i].service)
  }

  /** The answer of `Router.Route`, as its contract states it. */
  ghost predicate Routed(routes: map<string, Option<Service>>, path: string, key: string, svc: Option<Service>) {
    if Unmatched(routes, path) then key == "" && svc == None
    else Deepest(routes, path, key) && svc == routes[key]
  }

  predicate RouteMatches(c: Config, path: string, r: nat) {
    r < |c.routes| && Matches(c.routes[r].path, path)
  }

  lemma PathsNotEmpty(parse: UrlParser, c: Config, r: nat)
    requires Accepts(parse, c) && r < |c.routes|
    ensures c.routes[r].path != ""
  {
    assert RouteOk(c.services, c.routes[r]);
  }

  /** A path is unmatched in the built runtime exactly when no configured route matches it. */
  lemma UnmatchedIsConfigured(parse: UrlParser, c: Config, path: string)
    requires Accepts(parse, c)
    ensures Unmatched(BuiltRoutes(c), path) <==> forall r :: !RouteMatches(c, path, r)
  {
    var routes := BuiltRoutes(c);
    if Unmatched(routes, path) {
      forall r
        ensures !RouteMatches(c, path, r)
      {
        if RouteMatches(c, path, r) {
          PathsNotEmpty(parse, c, r);
          RouteResolves(parse, c, r);
        }
      }
    } else {
      var k :| k in routes && Matches(k, path) && k != "";
      var r := RouteMapKeys(c.routes, ServiceMap(c.services), k);
      assert RouteMatches(c, path, r);
    }
  }

  /** No service carries the name the route refers to, as it is written. */
  predicate Orphan(c: Config, r: nat) {
    r < |c.routes| && forall i :: 0 <= i < |c.services| ==> c.services[i].name != c.routes[r].service
  }

  ghost predicate NoOrphan(c: Config) {
    forall r :: !Orphan(c, r)
  }

  lemma TrimmedHasNoOrphan(parse: UrlParser, c: Config)
    requires Accepts(parse, c) && NamesTrimmed(c)
    ensures NoOrphan(c)
  {
    forall r | 0 <= r < |c.routes|
      ensures !Orphan(c, r)
    {
      assert RouteOk(c.services, c.routes[r]);
      var i :| 0 <= i < |c.services| && TrimSpace(c.services[i].name) == TrimSpace(c.routes[r].service);
      assert c.services[i].name == c.routes[r].service;
    }
  }

  /** From configuration to answer: for an accepted configuration without orphans, a request is
      answered with the missing-service 404 exactly when no configured route matches its path;
      otherwise it goes to the non-empty pool of the service that the deepest match names. */
  lemma NotFoundExactly(parse: UrlParser, c: Config, path: string, key: string, svc: Option<Service>)
    requires Accepts(parse, c) && Routed(BuiltRoutes(c), path, key, svc) && NoOrphan(c)
    ensures svc.None? <==> forall r :: !RouteMatches(c, path, r)
    ensures svc.Some? ==>
              exists r, i :: 0 <= r < |c.routes| && 0 <= i < |c.services| && c.routes[r].path == key
                && c.services[i].name == c.routes[r].service && svc == Some(Service(c.services[i].upstreams))
                && c.services[i].upstreams != []
  {
    UnmatchedIsConfigured(parse, c, path);
    if !Unmatched(BuiltRoutes(c), path) {
      var r := RouteMapKeys(c.routes, ServiceMap(c.services), key);
      RouteResolves(parse, c, r);
      assert !Orphan(c, r);
    }
  }

  /** The path of an orphan route is configured and yet answered with that 404. */
  lemma OrphanNotFound(parse: UrlParser, c: Config, r: nat)
    requires Accepts(parse, c) && Orphan(c, r)
    ensures RouteMatches(c, c.routes[r].path, r)
    ensures Routed(BuiltRoutes(c), c.routes[r].path, c.routes[r].path, None)
  {
    PathsNotEmpty(parse, c, r);
    RouteResolves(parse, c, r);
  }

  /** In the built runtime, every path gets the missing-service 404 only if no route matches it. */
  ghost predicate ServesItsRoutes(c: Config) {
    forall path, key, svc :: Routed(BuiltRoutes(c), path, key, svc) ==>
      (svc.None? <==> forall r :: !RouteMatches(c, path, r))
  }

  /** An accepted configuration serves its routes exactly when it has no orphan. */
  lemma ServedUnlessOrphan(parse: UrlParser, c: Config)
    requires Accepts(parse, c)
    ensures ServesItsRoutes(c) <==> NoOrphan(c)
  {
    if NoOrphan(c) {
      forall path, key, svc | Routed(BuiltRoutes(c), path, key, svc)
        ensures svc.None? <==> forall r :: !RouteMatches(c, path, r)
      {
        NotFoundExactly(parse, c, path, key, svc);
      }
    } else {
      var r :| Orphan(c, r);
      OrphanNotFound(parse, c, r);
    }
  }

  lemma Trims()
    ensures TrimSpace(" a") == TrimSpace("a") == "a" && TrimSpace("/x") == "/x" && TrimSpace(":80") == ":80"
    ensures TrimSpace("http://h:80") == "http://h:80"
  {
    assert " a"[1..] == "a";
    assert TrimLeft(" a") == TrimLeft("a") == "a";
  }

  /** `Validate` trims names and the builder does not: an accepted configuration can leave a
      configured route without a service. */
  lemma WhitespaceLosesService(parse: UrlParser) returns (c: Config)
    requires parse("http://h:80") == Some(Url("http", "h", "80", Some(80)))
    ensures Accepts(parse, c) && !NamesTrimmed(c) && Orphan(c, 0)
  {
    c := Config(":80", 2, 1, "/", [ServiceConfig(" a", ["http://h:80"])], [RouteConfig("/x", "a")], None, None);
    Trims();
    assert UpstreamFault(parse, "http://h:80").None?;
    assert c.services[0].name == " a";
    assert Names(c.services, "a") by {
      assert TrimSpace(c.services[0].name) == "a";
    }
  }
}
