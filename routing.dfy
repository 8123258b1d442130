/** The route table of the gateway and the local handler-function routes:
    predicates per route and first-match resolution in declaration order. */
module Routing {
  import opened Web

  /** Spring Cloud Gateway's host-pattern matcher (`r.host(pattern)`), kept abstract:
      it is applied to a pattern and the request's Host header. */
  type HostMatcher = (string, string) -> bool

  /** A declared route: its host pattern, whether it is additionally gated by
      `and().predicate(isBeforeForward)`, and its target URI. Each route's own
      filter only logs and passes the exchange on. */
  datatype Route = Route(id: string, hostPattern: string, beforeForwardOnly: bool, uri: Uri)

  /** isBeforeForward: true while the SELF_FORWARDED attribute is absent or false. */
  function IsBeforeForward(a: Attrs): (r: bool)
    ensures a == FRESH ==> r
    ensures r <==> a.(selfForwarded := true) != a
  {
    !a.selfForwarded
  }

  /** The host predicate, then (short-circuit AND) the isBeforeForward guard if the route has one. */
  function RouteMatches(hostMatches: HostMatcher, route: Route, req: Request, a: Attrs): (r: bool)
    ensures r ==> hostMatches(route.hostPattern, req.hostHeader)
    ensures !route.beforeForwardOnly ==> (r <==> hostMatches(route.hostPattern, req.hostHeader))
    ensures route.beforeForwardOnly && a.selfForwarded ==> !r
    ensures route.beforeForwardOnly && !a.selfForwarded ==> (r <==> hostMatches(route.hostPattern, req.hostHeader))
  {
    hostMatches(route.hostPattern, req.hostHeader) && (route.beforeForwardOnly ==> IsBeforeForward(a))
  }

  /** The first route at or after index `i` whose predicates all hold. */
  function LookupFrom(hostMatches: HostMatcher, routes: seq<Route>, req: Request, a: Attrs, i: nat): (r: Option<nat>)
    requires i <= |routes|
    ensures r.Some? ==> i <= r.value < |routes| && RouteMatches(hostMatches, routes[r.value], req, a)
    ensures forall j | i <= j < (if r.Some? then r.value else |routes|) :: !RouteMatches(hostMatches, routes[j], req, a)
    decreases |routes| - i
  {
    if i == |routes| then None
    else if RouteMatches(hostMatches, routes[i], req, a) then Some(i)
    else LookupFrom(hostMatches, routes, req, a, i + 1)
  }

  /** Route resolution: the first declared route whose predicates all hold, or None. */
  function Lookup(hostMatches: HostMatcher, routes: seq<Route>, req: Request, a: Attrs): (r: Option<nat>)
    ensures r.Some? ==> r.value < |routes| && RouteMatches(hostMatches, routes[r.value], req, a)
    ensures forall j | 0 <= j < (if r.Some? then r.value else |routes|) :: !RouteMatches(hostMatches, routes[j], req, a)
  {
    LookupFrom(hostMatches, routes, req, a, 0)
  }

  /** Of two routes that both match, the one declared earlier is the one resolved. */
  lemma FirstMatchWins(hostMatches: HostMatcher, routes: seq<Route>, req: Request, a: Attrs, j: nat, k: nat)
    requires j < k < |routes|
    requires RouteMatches(hostMatches, routes[j], req, a)
    ensures Lookup(hostMatches, routes, req, a) != Some(k)
    ensures Lookup(hostMatches, routes, req, a).Some? && Lookup(hostMatches, routes, req, a).value <= j
  {
  }

  /** Once the exchange has been self-forwarded, no route gated by isBeforeForward is resolved. */
  lemma GuardedRouteSkippedAfterForward(hostMatches: HostMatcher, routes: seq<Route>, req: Request, a: Attrs)
    requires a.selfForwarded
    ensures var r := Lookup(hostMatches, routes, req, a); r.Some? ==> !routes[r.value].beforeForwardOnly
  {
  }

  /** A route of a RouterFunction: `GET(path, handler)` (verb and path) with a handler that answers a fixed body. */
  datatype HandlerRoute = HandlerRoute(verb: string, path: string, body: string)

  predicate HandlerMatches(h: HandlerRoute, req: Request)
  {
    req.verb == h.verb && req.path == h.path
  }

  /** The first handler route at or after index `i` whose method and path match the request. */
  function FindHandlerFrom(handlers: seq<HandlerRoute>, req: Request, i: nat): (r: Option<nat>)
    requires i <= |handlers|
    ensures r.Some? ==> i <= r.value < |handlers| && HandlerMatches(handlers[r.value], req)
    ensures forall j | i <= j < (if r.Some? then r.value else |handlers|) :: !HandlerMatches(handlers[j], req)
    decreases |handlers| - i
  {
    if i == |handlers| then None
    else if HandlerMatches(handlers[i], req) then Some(i)
    else FindHandlerFrom(handlers, req, i + 1)
  }

  function FindHandler(handlers: seq<HandlerRoute>, req: Request): (r: Option<nat>)
    ensures r.Some? ==> r.value < |handlers| && HandlerMatches(handlers[r.value], req)
    ensures forall j | 0 <= j < (if r.Some? then r.value else |handlers|) :: !HandlerMatches(handlers[j], req)
  {
    FindHandlerFrom(handlers, req, 0)
  }
}
