/** Dispatch of one exchange: handler mappings tried in order, the gateway's filter
    chain run in ascending precedence, and the self-forward filter that re-dispatches
    an exchange whose resolved URL is the gateway itself. */
module Dispatcher {
  import opened Web
  import opened Routing

  /** org.springframework.core.Ordered: lower values run earlier; both ends are Java ints. */
  const HIGHEST_PRECEDENCE: int := -0x8000_0000
  const LOWEST_PRECEDENCE: int := 0x7fff_ffff

  /** Order given to a route's own (non-Ordered) lambda filter. */
  const ROUTE_FILTER_ORDER: int := 0
  /** Order of the gateway's RouteToRequestUrlFilter, which merges the route URI into the request URL. */
  const ROUTE_TO_URL_FILTER_ORDER: int := 10000
  /** Order of the gateway's terminal NettyRoutingFilter, which makes the outbound call. */
  const NETTY_ROUTING_FILTER_ORDER: int := LOWEST_PRECEDENCE

  /** The filters of one gateway filter chain. */
  datatype GatewayFilter =
    | RouteFilter(routeId: string)   // the route's own filter: logs, then passes the exchange on
    | RouteToRequestUrl              // stores the resolved request URL on the exchange
    | SelfForward                    // SelfForwardRoutingFilter
    | NettyRouting                   // the outbound HTTP call

  function Order(f: GatewayFilter): int
  {
    match f
    case RouteFilter(_) => ROUTE_FILTER_ORDER
    case RouteToRequestUrl => ROUTE_TO_URL_FILTER_ORDER
    case SelfForward => LOWEST_PRECEDENCE - 1
    case NettyRouting => NETTY_ROUTING_FILTER_ORDER
  }

  /** The chain the gateway runs for a resolved route: its route filter and the global
      filters this model keeps (URL storing, self-forward, Netty routing). */
  function GatewayChain(r: Route): seq<GatewayFilter>
  {
    [RouteFilter(r.id), RouteToRequestUrl, SelfForward, NettyRouting]
  }

  predicate NeedsRequestUrl(f: GatewayFilter)
  {
    f.SelfForward? || f.NettyRouting?
  }

  /** Every filter that reads the request URL comes after the filter that stores it. */
  predicate WellOrdered(chain: seq<GatewayFilter>)
  {
    forall k | 0 <= k < |chain| && NeedsRequestUrl(chain[k]) :: RouteToRequestUrl in chain[..k]
  }

  /** The gateway chain is in strictly ascending order, so it is the order the gateway
      sorts its filters into; the self-forward filter runs after the URL is stored and
      immediately before the terminal Netty routing filter. */
  lemma GatewayChainOrdered(r: Route)
    ensures var c := GatewayChain(r);
      && (forall j, k | 0 <= j < k < |c| :: Order(c[j]) < Order(c[k]))
      && WellOrdered(c)
      && c[|c| - 2] == SelfForward && c[|c| - 1] == NettyRouting
  {
    var c := GatewayChain(r);
    assert c[..2] == [RouteFilter(r.id), RouteToRequestUrl];
    assert c[..3] == [RouteFilter(r.id), RouteToRequestUrl, SelfForward];
  }

  /** A HandlerMapping of the DispatcherHandler. */
  datatype Mapping =
    | RoutePredicateMapping(order: int, routes: seq<Route>)         // the gateway's route table
    | RouterFunctionMapping(order: int, handlers: seq<HandlerRoute>) // local handler functions

  /** Order of the gateway's RoutePredicateHandlerMapping. */
  const ROUTE_PREDICATE_MAPPING_ORDER: int := 1

  /** The DispatcherHandler's stable sort of two mappings by order. */
  function SortedMappings(a: Mapping, b: Mapping): (ms: seq<Mapping>)
    ensures |ms| == 2 && multiset(ms) == multiset{a, b}
    ensures ms[0].order <= ms[1].order
    ensures a.order <= b.order ==> ms == [a, b]
  {
    if b.order < a.order then [b, a] else [a, b]
  }

  /** What the chain needs besides the exchange: the host matcher, the self-forward
      filter's configured port, and the mappings of the DispatcherHandler it
      re-dispatches to (None when its provider has no DispatcherHandler). */
  datatype Env = Env(hostMatches: HostMatcher, port: int, redispatch: Option<seq<Mapping>>)

  /** The self-forward condition: the URL's host is exactly "localhost" and its port the
      configured one; the scheme is not consulted. */
  function IsSelfTarget(url: Uri, port: int): (r: bool)
    ensures r <==> url == Uri(url.scheme, "localhost", port)
  {
    url.host == "localhost" && url.port == port
  }

  /** DispatcherHandler.handle: at most `fuel` nested dispatches may still run. */
  function Dispatch(fuel: nat, ms: seq<Mapping>, env: Env, req: Request, a: Attrs): (o: Outcome)
    ensures o.attrs.selfForwarded <==> a.selfForwarded || o.selfForwards > 0
    ensures o.selfForwards <= fuel
    decreases fuel, 0
  {
    if fuel == 0 then Outcome(Exhausted, a, 0)
    else RunMappings(fuel - 1, ms, 0, env, req, a)
  }

  /** The mappings from index `i` on, tried in order: the first that yields a handler handles the exchange. */
  function RunMappings(fuel: nat, ms: seq<Mapping>, i: nat, env: Env, req: Request, a: Attrs): (o: Outcome)
    requires i <= |ms|
    ensures o.attrs.selfForwarded <==> a.selfForwarded || o.selfForwards > 0
    ensures o.selfForwards <= fuel + 1
    decreases fuel, 2, |ms| - i
  {
    if i == |ms| then Outcome(NotFound, a, 0)
    else match ms[i]
      case RoutePredicateMapping(_, routes) =>
        (match Lookup(env.hostMatches, routes, req, a)
         case None => RunMappings(fuel, ms, i + 1, env, req, a)
         case Some(k) =>
           GatewayChainOrdered(routes[k]);
           RunChain(fuel, env, req, routes[k], GatewayChain(routes[k]), 0, a))
      case RouterFunctionMapping(_, handlers) =>
        (match FindHandler(handlers, req)
         case None => RunMappings(fuel, ms, i + 1, env, req, a)
         case Some(k) => Outcome(Ok(handlers[k].body), a, 0))
  }

  /** The filter chain of `route` from index `i` on. */
  function RunChain(fuel: nat, env: Env, req: Request, route: Route, chain: seq<GatewayFilter>, i: nat, a: Attrs): (o: Outcome)
    requires i <= |chain| && WellOrdered(chain)
    requires RouteToRequestUrl in chain[..i] ==> a.requestUrl.Some?
    ensures o.attrs.selfForwarded <==> a.selfForwarded || o.selfForwards > 0
    ensures o.selfForwards <= fuel + 1
    decreases fuel, 1, |chain| - i
  {
    if i == |chain| then Outcome(ChainCompleted, a, 0)
    else
      assert chain[..i + 1] == chain[..i] + [chain[i]];
      match chain[i]
      case RouteFilter(_) => RunChain(fuel, env, req, route, chain, i + 1, a)
      case RouteToRequestUrl => RunChain(fuel, env, req, route, chain, i + 1, a.(requestUrl := Some(route.uri)))
      case SelfForward =>
        if IsSelfTarget(a.requestUrl.value, env.port) then
          var forwarded := a.(selfForwarded := true);
          var o := if env.redispatch.None? then Outcome(NullDispatcher, forwarded, 0)
                   else Dispatch(fuel, env.redispatch.value, env, req, forwarded);
          o.(selfForwards := o.selfForwards + 1)
        else RunChain(fuel, env, req, route, chain, i + 1, a)
      case NettyRouting => Outcome(Proxied(a.requestUrl.value), a, 0)
  }

  /** A resolved route whose URI is not the gateway itself: the route filter passes the
      exchange on, the URL is stored, the self-forward filter passes it on untouched, and
      the request goes out to the route's URI; nothing is self-forwarded. */
  lemma ChainProxiesOtherTarget(fuel: nat, env: Env, req: Request, r: Route, a: Attrs)
    requires !IsSelfTarget(r.uri, env.port)
    ensures WellOrdered(GatewayChain(r))
    ensures RunChain(fuel, env, req, r, GatewayChain(r), 0, a) == Outcome(Proxied(r.uri), a.(requestUrl := Some(r.uri)), 0)
  {
    var c := GatewayChain(r);
    GatewayChainOrdered(r);
    var stored := a.(requestUrl := Some(r.uri));
    assert c[..3] == [RouteFilter(r.id), RouteToRequestUrl, SelfForward];
    assert RunChain(fuel, env, req, r, c, 2, stored) == RunChain(fuel, env, req, r, c, 3, stored);
    assert RunChain(fuel, env, req, r, c, 1, a) == RunChain(fuel, env, req, r, c, 2, stored);
  }

  /** A resolved route whose URI is the gateway itself: the flag is set and the exchange is
      re-dispatched with the stored URL; the Netty routing filter never runs. */
  lemma ChainRedispatchesSelfTarget(fuel: nat, env: Env, req: Request, r: Route, a: Attrs)
    requires IsSelfTarget(r.uri, env.port) && env.redispatch.Some?
    ensures WellOrdered(GatewayChain(r))
    ensures var o := Dispatch(fuel, env.redispatch.value, env, req, Attrs(Some(r.uri), true));
      RunChain(fuel, env, req, r, GatewayChain(r), 0, a) == o.(selfForwards := o.selfForwards + 1)
  {
    var c := GatewayChain(r);
    GatewayChainOrdered(r);
    var stored := a.(requestUrl := Some(r.uri));
    assert RunChain(fuel, env, req, r, c, 1, a) == RunChain(fuel, env, req, r, c, 2, stored);
  }
}
