/** The application's own configuration: the three declared routes, the `/echo` handler
    function, the order of its router-function mapping, and what dispatching a request
    through them yields - in particular that a localhost request is self-forwarded once
    and then answered locally. */
module Demo {
  import opened Web
  import opened Routing
  import opened Dispatcher
  import opened Gateway

  const HTTPSTAT_HTTPS: Uri := Uri("https", "httpstat.us", NO_PORT)
  const HTTPSTAT_HTTP: Uri := Uri("http", "httpstat.us", NO_PORT)

  /** The gateway's own address as route1 names it: "http://localhost:" + port. */
  function SelfUri(port: int): Uri
  {
    Uri("http", "localhost", port)
  }

  /** The route table in declaration order; only route1 is gated by isBeforeForward. */
  function Routes(port: int): (rs: seq<Route>)
    ensures |rs| == 3 && rs[0].id == "route0" && rs[1].id == "route1" && rs[2].id == "route2"
    ensures forall k | 0 <= k < |rs| :: rs[k].beforeForwardOnly <==> k == 1
    ensures rs[1].hostPattern == "localhost*" && rs[1].uri == SelfUri(port)
  {
    [ Route("route0", "0.0.0.0*", false, HTTPSTAT_HTTPS),
      Route("route1", "localhost*", true, SelfUri(port)),
      Route("route2", "127.0.0.1*", false, HTTPSTAT_HTTP) ]
  }

  /** Of the declared routes, exactly route1 targets the gateway itself. */
  lemma OnlyRoute1TargetsGateway(port: int, k: nat)
    requires k < 3
    ensures IsSelfTarget(Routes(port)[k].uri, port) <==> k == 1
  {
  }

  /** The router function: GET /echo answered by getEcho with body "Hello!". */
  const ECHO: HandlerRoute := HandlerRoute("GET", "/echo", "Hello!")

  /** GatewayRouterFunctionMapping.getOrder: after the gateway's route-predicate mapping. */
  function GatewayRouterFunctionMappingOrder(): (r: int)
    ensures ROUTE_PREDICATE_MAPPING_ORDER < r
  {
    2
  }

  function GatewayMapping(port: int): Mapping
  {
    RoutePredicateMapping(ROUTE_PREDICATE_MAPPING_ORDER, Routes(port))
  }

  function LocalMapping(): Mapping
  {
    RouterFunctionMapping(GatewayRouterFunctionMappingOrder(), [ECHO])
  }

  /** The DispatcherHandler's mappings, sorted by their orders. */
  function Mappings(port: int): seq<Mapping>
  {
    SortedMappings(GatewayMapping(port), LocalMapping())
  }

  /** The self-forward filter on the configured port, re-dispatching to the same DispatcherHandler. */
  function AppEnv(hostMatches: HostMatcher, port: int): Env
  {
    Env(hostMatches, port, Some(Mappings(port)))
  }

  lemma MappingsInOrder(port: int)
    ensures Mappings(port) == [GatewayMapping(port), LocalMapping()]
  {
  }

  /** The echo handler answers exactly GET /echo, with "Hello!". */
  lemma EchoAnswersOnlyGetEcho(req: Request)
    ensures FindHandler([ECHO], req).Some? <==> req.verb == "GET" && req.path == "/echo"
    ensures FindHandler([ECHO], req).Some? ==> [ECHO][FindHandler([ECHO], req).value].body == "Hello!"
  {
  }

  // ---------------------------------------------------------------------------
  // The expected behaviour, written out case by case.

  function Proxy(target: Uri, a: Attrs): Outcome
  {
    Outcome(Proxied(target), a.(requestUrl := Some(target)), 0)
  }

  /** Resolution once route0 and route1 are out of the picture: route2, else the local mapping. */
  function FallThrough(hostMatches: HostMatcher, req: Request, a: Attrs): Outcome
  {
    if hostMatches("127.0.0.1*", req.hostHeader) then Proxy(HTTPSTAT_HTTP, a)
    else if req.verb == "GET" && req.path == "/echo" then Outcome(Ok("Hello!"), a, 0)
    else Outcome(NotFound, a, 0)
  }

  /** route0 if it matches; else route1 on a not yet forwarded exchange, which is forwarded
      once with the gateway's own URL and then falls through; else fall through. */
  function Expected(hostMatches: HostMatcher, port: int, req: Request, a: Attrs): Outcome
  {
    if hostMatches("0.0.0.0*", req.hostHeader) then Proxy(HTTPSTAT_HTTPS, a)
    else if hostMatches("localhost*", req.hostHeader) && !a.selfForwarded then
      FallThrough(hostMatches, req, Attrs(Some(SelfUri(port)), true)).(selfForwards := 1)
    else FallThrough(hostMatches, req, a)
  }

  // ---------------------------------------------------------------------------
  // Dispatching through the application's configuration.

  lemma LookupRoutes(hostMatches: HostMatcher, port: int, req: Request, a: Attrs)
    ensures Lookup(hostMatches, Routes(port), req, a) ==
      if hostMatches("0.0.0.0*", req.hostHeader) then Some(0)
      else if hostMatches("localhost*", req.hostHeader) && !a.selfForwarded then Some(1)
      else if hostMatches("127.0.0.1*", req.hostHeader) then Some(2)
      else None
  {
    var rs := Routes(port);
    assert LookupFrom(hostMatches, rs, req, a, 3) == None;
    assert LookupFrom(hostMatches, rs, req, a, 2) == if hostMatches("127.0.0.1*", req.hostHeader) then Some(2) else None;
    assert LookupFrom(hostMatches, rs, req, a, 1) ==
      if hostMatches("localhost*", req.hostHeader) && !a.selfForwarded then Some(1)
      else LookupFrom(hostMatches, rs, req, a, 2);
  }

  /** With route0 not matching and route1 out of reach, a dispatch falls through. */
  lemma DispatchFallsThrough(fuel: nat, hostMatches: HostMatcher, port: int, req: Request, a: Attrs)
    requires fuel >= 1
    requires !hostMatches("0.0.0.0*", req.hostHeader)
    requires a.selfForwarded || !hostMatches("localhost*", req.hostHeader)
    ensures Dispatch(fuel, Mappings(port), AppEnv(hostMatches, port), req, a) == FallThrough(hostMatches, req, a)
  {
    var ms, env := Mappings(port), AppEnv(hostMatches, port);
    MappingsInOrder(port);
    LookupRoutes(hostMatches, port, req, a);
    if hostMatches("127.0.0.1*", req.hostHeader) {
      ChainProxiesOtherTarget(fuel - 1, env, req, Routes(port)[2], a);
    } else {
      assert RunMappings(fuel - 1, ms, 0, env, req, a) == RunMappings(fuel - 1, ms, 1, env, req, a);
      assert RunMappings(fuel - 1, ms, 1, env, req, a) == FallThrough(hostMatches, req, a);
    }
  }

  /** Every request dispatched with room for two nested dispatches ends as Expected says,
      whatever the host matcher does. */
  lemma DispatchIsExpected(fuel: nat, hostMatches: HostMatcher, port: int, req: Request, a: Attrs)
    requires fuel >= 2
    ensures Dispatch(fuel, Mappings(port), AppEnv(hostMatches, port), req, a) == Expected(hostMatches, port, req, a)
  {
    var ms, env := Mappings(port), AppEnv(hostMatches, port);
    MappingsInOrder(port);
    LookupRoutes(hostMatches, port, req, a);
    if hostMatches("0.0.0.0*", req.hostHeader) {
      ChainProxiesOtherTarget(fuel - 1, env, req, Routes(port)[0], a);
    } else if hostMatches("localhost*", req.hostHeader) && !a.selfForwarded {
      ChainRedispatchesSelfTarget(fuel - 1, env, req, Routes(port)[1], a);
      DispatchFallsThrough(fuel - 1, hostMatches, port, req, Attrs(Some(SelfUri(port)), true));
    } else {
      DispatchFallsThrough(fuel, hostMatches, port, req, a);
    }
  }

  /** Dispatch terminates with at most one self-forward, which happens exactly when route1
      is resolved on the original dispatch; a forwarded exchange is never forwarded again. */
  lemma AtMostOneSelfForward(fuel: nat, hostMatches: HostMatcher, port: int, req: Request, a: Attrs)
    requires fuel >= 2
    ensures var o := Dispatch(fuel, Mappings(port), AppEnv(hostMatches, port), req, a);
      && o.response != Exhausted
      && o.selfForwards <= 1
      && (o.selfForwards == 1 <==> Lookup(hostMatches, Routes(port), req, a) == Some(1))
      && (a.selfForwarded ==> o.selfForwards == 0)
  {
    DispatchIsExpected(fuel, hostMatches, port, req, a);
    LookupRoutes(hostMatches, port, req, a);
  }

  /** Two dispatches suffice: any larger bound yields the same outcome. */
  lemma FuelIndependent(fuel: nat, hostMatches: HostMatcher, port: int, req: Request, a: Attrs)
    requires fuel >= 2
    ensures Dispatch(fuel, Mappings(port), AppEnv(hostMatches, port), req, a)
         == Dispatch(2, Mappings(port), AppEnv(hostMatches, port), req, a)
  {
    DispatchIsExpected(fuel, hostMatches, port, req, a);
    DispatchIsExpected(2, hostMatches, port, req, a);
  }

  // ---------------------------------------------------------------------------
  // Scenarios.

  /** A new GET /echo exchange for localhost: route1, one self-forward, then "Hello!" from the
      local mapping; the request URL stays the gateway's own and nothing goes out. */
  lemma LocalhostEchoScenario(fuel: nat, hostMatches: HostMatcher, port: int, host: string)
    requires fuel >= 2
    requires hostMatches("localhost*", host)
    requires !hostMatches("0.0.0.0*", host) && !hostMatches("127.0.0.1*", host)
    ensures Dispatch(fuel, Mappings(port), AppEnv(hostMatches, port), Request(host, "GET", "/echo"), FRESH)
         == Outcome(Ok("Hello!"), Attrs(Some(SelfUri(port)), true), 1)
  {
    DispatchIsExpected(fuel, hostMatches, port, Request(host, "GET", "/echo"), FRESH);
  }

  /** A request for host 0.0.0.0 resolves route0 and goes out to https://httpstat.us. */
  lemma Route0Scenario(fuel: nat, hostMatches: HostMatcher, port: int, req: Request, a: Attrs)
    requires fuel >= 2
    requires hostMatches("0.0.0.0*", req.hostHeader)
    ensures Dispatch(fuel, Mappings(port), AppEnv(hostMatches, port), req, a)
         == Outcome(Proxied(HTTPSTAT_HTTPS), a.(requestUrl := Some(HTTPSTAT_HTTPS)), 0)
  {
    DispatchIsExpected(fuel, hostMatches, port, req, a);
  }

  /** A request for host 127.0.0.1 resolves route2 and goes out to http://httpstat.us. */
  lemma Route2Scenario(fuel: nat, hostMatches: HostMatcher, port: int, req: Request, a: Attrs)
    requires fuel >= 2
    requires hostMatches("127.0.0.1*", req.hostHeader)
    requires !hostMatches("0.0.0.0*", req.hostHeader) && !hostMatches("localhost*", req.hostHeader)
    ensures Dispatch(fuel, Mappings(port), AppEnv(hostMatches, port), req, a)
         == Outcome(Proxied(HTTPSTAT_HTTP), a.(requestUrl := Some(HTTPSTAT_HTTP)), 0)
  {
    DispatchIsExpected(fuel, hostMatches, port, req, a);
  }

  /** With an empty route table and no local handler, every request is not found. */
  lemma EmptyTableNotFound(fuel: nat, hostMatches: HostMatcher, port: int, req: Request, a: Attrs)
    requires fuel >= 1
    ensures Lookup(hostMatches, [], req, a) == None
    ensures Dispatch(fuel, [RoutePredicateMapping(ROUTE_PREDICATE_MAPPING_ORDER, [])], Env(hostMatches, port, None), req, a)
         == Outcome(NotFound, a, 0)
  {
    var ms := [RoutePredicateMapping(ROUTE_PREDICATE_MAPPING_ORDER, [])];
    assert RunMappings(fuel - 1, ms, 0, Env(hostMatches, port, None), req, a)
        == RunMappings(fuel - 1, ms, 1, Env(hostMatches, port, None), req, a);
  }

  // ---------------------------------------------------------------------------
  // Why the guard and the mapping order matter.

  /** route1 without `and().predicate(isBeforeForward)`. */
  function UnguardedRoutes(port: int): seq<Route>
  {
    Routes(port)[1 := Route("route1", "localhost*", false, SelfUri(port))]
  }

  function UnguardedMappings(port: int): seq<Mapping>
  {
    SortedMappings(RoutePredicateMapping(ROUTE_PREDICATE_MAPPING_ORDER, UnguardedRoutes(port)), LocalMapping())
  }

  /** Without the guard, a localhost request self-forwards on every dispatch and exhausts any bound:
      the re-dispatch would recurse forever. */
  lemma {:induction false} UnguardedRouteNeverTerminates(fuel: nat, hostMatches: HostMatcher, port: int, req: Request, a: Attrs)
    requires hostMatches("localhost*", req.hostHeader) && !hostMatches("0.0.0.0*", req.hostHeader)
    ensures var o := Dispatch(fuel, UnguardedMappings(port), Env(hostMatches, port, Some(UnguardedMappings(port))), req, a);
      o.response == Exhausted && o.selfForwards == fuel
  {
    if fuel > 0 {
      var ms := UnguardedMappings(port);
      var env := Env(hostMatches, port, Some(ms));
      var rs := UnguardedRoutes(port);
      assert ms[0] == RoutePredicateMapping(ROUTE_PREDICATE_MAPPING_ORDER, rs);
      assert LookupFrom(hostMatches, rs, req, a, 1) == Some(1);
      ChainRedispatchesSelfTarget(fuel - 1, env, req, rs[1], a);
      UnguardedRouteNeverTerminates(fuel - 1, hostMatches, port, req, Attrs(Some(SelfUri(port)), true));
    }
  }

  /** Spring's default order for a RouterFunctionMapping, which GatewayRouterFunctionMapping overrides. */
  const DEFAULT_ROUTER_FUNCTION_MAPPING_ORDER: int := -1

  function DefaultOrderMappings(port: int): seq<Mapping>
  {
    SortedMappings(GatewayMapping(port), RouterFunctionMapping(DEFAULT_ROUTER_FUNCTION_MAPPING_ORDER, [ECHO]))
  }

  /** Had the local mapping kept its default order, it would be tried first: GET /echo for host
      0.0.0.0 would be answered locally instead of being routed by route0. */
  lemma DefaultOrderShadowsGateway(fuel: nat, hostMatches: HostMatcher, port: int, host: string, a: Attrs)
    requires fuel >= 1
    requires hostMatches("0.0.0.0*", host)
    ensures Dispatch(fuel, DefaultOrderMappings(port), Env(hostMatches, port, Some(DefaultOrderMappings(port))),
                     Request(host, "GET", "/echo"), a) == Outcome(Ok("Hello!"), a, 0)
    ensures Dispatch(fuel + 1, Mappings(port), AppEnv(hostMatches, port), Request(host, "GET", "/echo"), a).response
         == Proxied(HTTPSTAT_HTTPS)
  {
    Route0Scenario(fuel + 1, hostMatches, port, Request(host, "GET", "/echo"), a);
  }

  // ---------------------------------------------------------------------------
  // The objects wired as the application wires them.

  /** A localhost GET /echo exchange reaching SelfForwardRoutingFilter after route1 was
      resolved and its URL stored: the filter forwards it once and the re-dispatch answers
      "Hello!"; a second lookup of the dispatcher uses the cache, so the provider has been
      consulted once. */
  method ServeLocalhostEcho(hostMatches: HostMatcher, port: int, host: string, fuel: nat) returns (o: Outcome, ghost providerCalls: nat)
    requires fuel >= 1
    requires hostMatches("localhost*", host)
    requires !hostMatches("0.0.0.0*", host) && !hostMatches("127.0.0.1*", host)
    ensures o == Outcome(Ok("Hello!"), Attrs(Some(SelfUri(port)), true), 1)
    ensures providerCalls == 1
  {
    var dispatcher := new DispatcherHandler(Mappings(port));
    var filter := new SelfForwardRoutingFilter(dispatcher, port);
    var ex := new Exchange(Request(host, "GET", "/echo"));
    var route := Routes(port)[1];
    ex.requestUrl := Some(route.uri);
    GatewayChainOrdered(route);
    DispatchFallsThrough(fuel, hostMatches, port, ex.request, Attrs(Some(SelfUri(port)), true));
    o := filter.Filter(ex, AppEnv(hostMatches, port), route, GatewayChain(route), 2, fuel);
    var cached := filter.GetDispatcherHandler();
    assert cached == dispatcher;
    providerCalls := filter.providerCalls;
  }
}
