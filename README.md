# Self-forward loop prevention in a Spring Cloud Gateway application

This project models the routing core of a small Spring Cloud Gateway application
(`DemoApplication.java`). It has three routes. One of them, `route1`, targets the gateway's own
address (`http://localhost:<port>`). A global filter, `SelfForwardRoutingFilter`, spots a resolved
request URL that points back at the gateway. It then marks the exchange as self-forwarded and sends
it back through the `DispatcherHandler` in-process, with no network hop. `route1` is gated by
`isBeforeForward`, so on that second dispatch it no longer matches. Resolution falls through to the
lower-priority router-function mapping, which answers `GET /echo` with `Hello!`.

Modules:

- `Web` (`web.dfy`): URIs, requests, the two exchange attributes (the resolved request URL and the
  `SELF_FORWARDED` flag), responses and dispatch outcomes.
- `Routing` (`routing.dfy`): routes and their predicates, `isBeforeForward`, first-match route
  lookup in declaration order, and the lookup of router-function handlers.
- `Dispatcher` (`dispatch.dfy`): filter precedences (orders), the gateway filter chain, handler
  mappings tried in order, and the fuel-bounded dispatch. Fuel is the number of nested
  `DispatcherHandler.handle` calls still allowed.
- `Gateway` (`gateway.dfy`): the classes with mutable state. These are the exchange, the
  `DispatcherHandler`, and `SelfForwardRoutingFilter` with its lazily resolved handler and `filter`
  method.
- `Demo` (`demo.dfy`): the declared route table, the `/echo` handler and the mapping orders. Its
  main result: every dispatch with fuel at least 2 ends as a case-by-case reference function says.
  From that follow termination, at most one self-forward, fuel independence and the scenarios. Two
  counterfactual lemmas show what would go wrong without the `isBeforeForward` guard, and without
  the mapping-order override.

Assumptions about library code that is not shown:

- The host-pattern matcher is an abstract function parameter.
- The resolved request URL takes the scheme, host and port of the route URI.
- These orders come from the library: the route-predicate mapping is 1, `RouteToRequestUrlFilter`
  is 10000, `NettyRoutingFilter` is `Ordered.LOWEST_PRECEDENCE`, a route's lambda filter is 0, and
  the default router-function mapping order is -1.

Two facts about the code shape the model:

- Self-forward detection is exact, case-sensitive equality of the URL host with `"localhost"`
  together with equality of the port (DemoApplication.java:122). Other loopback names do not count.
- Host matching is Spring Cloud Gateway's own matcher. It is kept abstract.

## Model

| member | source | states |
|---|---|---|
| `Routing.IsBeforeForward` | src/main/java/com/example/demo/DemoApplication.java:134-136 | true for a new exchange (flag absent); true exactly while putting `SELF_FORWARDED = true` would still change the exchange, so false once it is set |
| `Routing.RouteMatches` | src/main/java/com/example/demo/DemoApplication.java:41-62 | a route matches only if its host predicate holds; an ungated route matches exactly when its host does; a route gated by `isBeforeForward` never matches a forwarded exchange and otherwise matches exactly when its host does |
| `Routing.LookupFrom` | src/main/java/com/example/demo/DemoApplication.java:39-64 | the result is the first index at or after `i` whose route predicates all hold; every route before it fails, and None means none holds |
| `Routing.Lookup` | src/main/java/com/example/demo/DemoApplication.java:39-64 | routes are tried in declaration order and the first whose host predicate and (if gated) `isBeforeForward` both hold is resolved; None when no route matches |
| `Routing.FirstMatchWins` | src/main/java/com/example/demo/DemoApplication.java:41-62 | if an earlier route matches, a later one is never resolved, and some route at or before it is |
| `Routing.GuardedRouteSkippedAfterForward` | src/main/java/com/example/demo/DemoApplication.java:49 | once the flag is set, no route gated by `isBeforeForward` is resolved |
| `Routing.FindHandlerFrom` | src/main/java/com/example/demo/DemoApplication.java:69-71 | first handler route at or after `i` whose verb and path match; all earlier ones do not |
| `Routing.FindHandler` | src/main/java/com/example/demo/DemoApplication.java:69-71 | the router function resolves the first handler whose verb and path match, or none |
| `Dispatcher.GatewayChainOrdered` | src/main/java/com/example/demo/DemoApplication.java:113-117 | the chain is strictly ascending by order; the self-forward filter runs after the URL is stored and just before the terminal Netty routing filter |
| `Dispatcher.SortedMappings` | src/main/java/com/example/demo/DemoApplication.java:147-153 | the two mappings come out as a permutation sorted by order; equal or ascending input keeps its order |
| `Dispatcher.IsSelfTarget` | src/main/java/com/example/demo/DemoApplication.java:122 | a URL is the gateway's own exactly when it is host `localhost` on the configured port, whatever its scheme |
| `Dispatcher.Dispatch` | src/main/java/com/example/demo/DemoApplication.java:120-136 | after a dispatch the flag is set exactly when it was set before or a self-forward happened; the flag never returns to false; at most `fuel` self-forwards |
| `Dispatcher.RunMappings` | src/main/java/com/example/demo/DemoApplication.java:147-153 | same flag invariant and bound for the mappings tried in order |
| `Dispatcher.RunChain` | src/main/java/com/example/demo/DemoApplication.java:120-127 | same flag invariant and bound for the rest of a filter chain; the required request URL is present whenever a filter reads it |
| `Dispatcher.ChainProxiesOtherTarget` | src/main/java/com/example/demo/DemoApplication.java:126 | for a route whose URI is not localhost on the configured port, the chain passes the exchange on untouched and it goes out to the route URI, with no self-forward |
| `Dispatcher.ChainRedispatchesSelfTarget` | src/main/java/com/example/demo/DemoApplication.java:122-124 | for a route whose URI is localhost on the configured port, the flag is set; this chain's Netty routing filter does not run, and the outcome is the re-dispatch's, with one more self-forward |
| `Gateway.Exchange.constructor` | src/main/java/com/example/demo/DemoApplication.java:134-136 | a new exchange has no request URL and the flag absent (false) |
| `Gateway.DispatcherHandler.Handle` | src/main/java/com/example/demo/DemoApplication.java:124 | handling an exchange yields the dispatch outcome, and the exchange keeps the attributes the dispatch leaves |
| `Gateway.SelfForwardRoutingFilter.constructor` | src/main/java/com/example/demo/DemoApplication.java:101-104 | keeps the provider and port; nothing cached yet |
| `Gateway.SelfForwardRoutingFilter.GetDispatcherHandler` | src/main/java/com/example/demo/DemoApplication.java:106-111 | returns the cached handler, consulting the provider only when nothing is cached; once cached, the same reference is returned and the provider is not consulted again |
| `Gateway.SelfForwardRoutingFilter.GetOrder` | src/main/java/com/example/demo/DemoApplication.java:113-117 | the order is a Java int above the route filter's and `RouteToRequestUrlFilter`'s orders and strictly below `NettyRoutingFilter`'s `LOWEST_PRECEDENCE` |
| `Gateway.SelfForwardRoutingFilter.Filter` | src/main/java/com/example/demo/DemoApplication.java:120-127 | requires the request URL to be present; on localhost and the configured port it sets the flag (so `isBeforeForward` is false afterwards) and returns the re-dispatch's result; otherwise it calls the continuation with the unchanged exchange and touches nothing |
| `Demo.Routes` | src/main/java/com/example/demo/DemoApplication.java:39-64 | three routes declared as route0, route1, route2; only route1 is gated by `isBeforeForward`; route1 has host pattern `localhost*` and targets `http://localhost:<port>` |
| `Demo.OnlyRoute1TargetsGateway` | src/main/java/com/example/demo/DemoApplication.java:41-62 | of the three declared route URIs, exactly route1's is the gateway's own address |
| `Demo.GatewayRouterFunctionMappingOrder` | src/main/java/com/example/demo/DemoApplication.java:147-153 | the local mapping's order is after the gateway's route-predicate mapping |
| `Demo.MappingsInOrder` | src/main/java/com/example/demo/DemoApplication.java:147-153 | the dispatcher tries the gateway mapping first and the local mapping second |
| `Demo.EchoAnswersOnlyGetEcho` | src/main/java/com/example/demo/DemoApplication.java:67-76 | the router function has a handler exactly for GET `/echo`, with body `Hello!` |
| `Demo.LookupRoutes` | src/main/java/com/example/demo/DemoApplication.java:39-64 | resolution of the declared table: route0, else route1 if not yet forwarded, else route2, else none |
| `Demo.DispatchFallsThrough` | src/main/java/com/example/demo/DemoApplication.java:57-76 | with route0 not matching and route1 out of reach, a dispatch goes to route2 or else to the local mapping |
| `Demo.DispatchIsExpected` | src/main/java/com/example/demo/DemoApplication.java:38-76 | with fuel at least 2, every request's dispatch equals the case-by-case reference outcome |
| `Demo.AtMostOneSelfForward` | src/main/java/com/example/demo/DemoApplication.java:48-54 | dispatch terminates (never exhausts), self-forwards at most once, exactly when route1 is resolved, and never for an already forwarded exchange |
| `Demo.FuelIndependent` | src/main/java/com/example/demo/DemoApplication.java:48-54 | any fuel of at least 2 gives the same outcome as fuel 2 |
| `Demo.LocalhostEchoScenario` | src/main/java/com/example/demo/DemoApplication.java:48-76 | a new localhost GET `/echo` is forwarded once and answered `Hello!` locally, with nothing proxied |
| `Demo.Route0Scenario` | src/main/java/com/example/demo/DemoApplication.java:41-46 | a 0.0.0.0 request goes out to `https://httpstat.us` without self-forward |
| `Demo.Route2Scenario` | src/main/java/com/example/demo/DemoApplication.java:57-62 | a 127.0.0.1 request goes out to `http://httpstat.us` without self-forward |
| `Demo.EmptyTableNotFound` | src/main/java/com/example/demo/DemoApplication.java:39-64 | with an empty route table and no local handler, every request is not found |
| `Demo.UnguardedRouteNeverTerminates` | src/main/java/com/example/demo/DemoApplication.java:48-49 | without `isBeforeForward` on route1, a localhost request self-forwards on every dispatch and exhausts any bound |
| `Demo.DefaultOrderShadowsGateway` | src/main/java/com/example/demo/DemoApplication.java:147-153 | with the default mapping order, GET `/echo` for 0.0.0.0 is answered locally; with order 2 it is routed by route0 |
| `Demo.ServeLocalhostEcho` | src/main/java/com/example/demo/DemoApplication.java:119-127 | with the objects wired as the application wires them, the filter forwards a localhost exchange for route1 once and the answer is `Hello!`; the provider has been consulted exactly once (ghost result) |

## Left out

- `main`, `SpringApplication.run`, the `@Bean`/`@Configuration` wiring and the `WebConfig` override
  mechanics are bootstrapping. The mapping order they install is modelled as a constant.
- Reactive `Mono` plumbing and the real outbound call to `httpstat.us`: a proxied request is the
  opaque response `Proxied(uri)`.
- Spring Cloud Gateway's host-pattern matcher: library code, kept as an abstract function
  parameter. Scenario lemmas state the matcher facts they rely on.
- Merging the route URI into the request URL: library code. The resolved URL keeps only the route
  URI's scheme, host and port. The request path and query are not modelled.
- The `ObjectProvider` is modelled as a fixed reference (possibly null). A provider whose answer
  changes over time is not modelled. A null handler is the `NullDispatcher` response, where Java
  would raise a `NullPointerException`.
- The `volatile` field and concurrent first use of `getDispatcherHandler`: only single-threaded
  lazy initialisation is modelled.
- The gateway filter chain is reduced to the route's own filter, `RouteToRequestUrlFilter`, this
  filter and `NettyRoutingFilter`. The gateway's other global filters are not modelled. These
  include `WebsocketRoutingFilter`, which has the same order as this filter, and
  `ForwardRoutingFilter`, which has `LOWEST_PRECEDENCE`.
- `log.info` in the route filters: each route filter is a pass-through.
- `DispatcherHandler` and `RoutePredicateHandlerMapping` internals beyond "mappings tried in
  order, first handler wins" are not modelled. This covers management-port checks, route
  attributes and the Netty filter's already-routed and scheme checks.
- Router-function path matching is exact equality of verb and path. Path-pattern features such as
  trailing-slash matching are not modelled.
- Route ids are taken as declared. Construction-time validation (unique ids, malformed patterns)
  is not in this source file.
- `route1`'s URI is built from the port as a `String`, while the filter compares the `int` port.
  Both are modelled as one integer.
- Unbounded recursion is modelled with fuel. `Exhausted` stands for a dispatch that would not
  terminate and is not a response the application produces.
