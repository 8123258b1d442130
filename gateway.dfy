/** The objects whose state the source updates in place: the per-request exchange,
    the DispatcherHandler it is re-dispatched to, and SelfForwardRoutingFilter with
    its lazily resolved DispatcherHandler. */
module Gateway {
  import opened Web
  import opened Routing
  import opened Dispatcher

  /** A ServerWebExchange, reduced to its request and the two attributes of this core. */
  class Exchange {
    const request: Request
    var requestUrl: Option<Uri>
    var selfForwarded: bool

    constructor (request: Request)
      ensures this.request == request && Attributes() == FRESH
    {
      this.request := request;
      requestUrl := None;
      selfForwarded := false;
    }

    function Attributes(): Attrs
      reads this
    {
      Attrs(requestUrl, selfForwarded)
    }
  }

  /** Spring's DispatcherHandler, reduced to its handler mappings in the order it tries them. */
  class DispatcherHandler {
    const mappings: seq<Mapping>

    constructor (mappings: seq<Mapping>)
      ensures this.mappings == mappings
    {
      this.mappings := mappings;
    }

    /** handle(exchange): the exchange's attributes afterwards are those the dispatch leaves. */
    method Handle(ex: Exchange, env: Env, fuel: nat) returns (o: Outcome)
      modifies ex
      ensures o == Dispatch(fuel, mappings, env, ex.request, old(ex.Attributes()))
      ensures ex.Attributes() == o.attrs
    {
      o := Dispatch(fuel, mappings, env, ex.request, ex.Attributes());
      ex.requestUrl, ex.selfForwarded := o.attrs.requestUrl, o.attrs.selfForwarded;
    }
  }

  class SelfForwardRoutingFilter {
    /** What dispatcherHandlerProvider.getIfAvailable() yields (null when no bean is available). */
    const dispatcherHandlerProvider: DispatcherHandler?
    const port: int
    var dispatcherHandler: DispatcherHandler?
    /** How many times the provider has been consulted. */
    ghost var providerCalls: nat

    /** The cached handler is either not yet resolved or the one the provider yields. */
    ghost predicate Valid()
      reads this
    {
      dispatcherHandler == null || dispatcherHandler == dispatcherHandlerProvider
    }

    constructor (dispatcherHandlerProvider: DispatcherHandler?, port: int)
      ensures Valid()
      ensures this.dispatcherHandlerProvider == dispatcherHandlerProvider && this.port == port
      ensures dispatcherHandler == null && providerCalls == 0
    {
      this.dispatcherHandlerProvider := dispatcherHandlerProvider;
      this.port := port;
      dispatcherHandler := null;
      providerCalls := 0;
    }

    /** The re-dispatch target as the pure chain model sees it. */
    function Redispatch(): Option<seq<Mapping>>
    {
      if dispatcherHandlerProvider == null then None else Some(dispatcherHandlerProvider.mappings)
    }

    /** Lazy resolution: the provider is consulted only while nothing is cached; once a
        handler is cached, it is returned and kept. */
    method GetDispatcherHandler() returns (h: DispatcherHandler?)
      requires Valid()
      modifies this
      ensures Valid()
      ensures h == dispatcherHandler == dispatcherHandlerProvider
      ensures old(dispatcherHandler) != null ==> providerCalls == old(providerCalls)
      ensures old(dispatcherHandler) == null ==> providerCalls == old(providerCalls) + 1
    {
      if dispatcherHandler == null {
        dispatcherHandler := dispatcherHandlerProvider;
        providerCalls := providerCalls + 1;
      }
      h := dispatcherHandler;
    }

    /** getOrder: after the route filter and the URL-storing filter, before the terminal Netty routing filter. */
    function GetOrder(): (r: int)
      ensures ROUTE_FILTER_ORDER < r && ROUTE_TO_URL_FILTER_ORDER < r < NETTY_ROUTING_FILTER_ORDER
      ensures HIGHEST_PRECEDENCE <= r <= LOWEST_PRECEDENCE
    {
      Order(SelfForward)
    }

    /** filter(exchange, chain), run as filter `i` of `chain`; the rest of `chain` is the continuation. */
    method Filter(ex: Exchange, env: Env, route: Route, chain: seq<GatewayFilter>, i: nat, fuel: nat) returns (o: Outcome)
      requires Valid()
      requires env.port == port && env.redispatch == Redispatch()
      requires WellOrdered(chain) && i < |chain| && chain[i] == SelfForward
      requires ex.requestUrl.Some?
      modifies this, ex
      ensures Valid()
      ensures o == RunChain(fuel, env, ex.request, route, chain, i, old(ex.Attributes()))
      ensures ex.Attributes() == o.attrs
      ensures IsSelfTarget(old(ex.requestUrl.value), port) ==>
        && o.selfForwards >= 1 && !IsBeforeForward(ex.Attributes())
        && dispatcherHandler == dispatcherHandlerProvider
        && providerCalls == old(providerCalls) + (if old(dispatcherHandler) == null then 1 else 0)
      ensures !IsSelfTarget(old(ex.requestUrl.value), port) ==>
        o == RunChain(fuel, env, ex.request, route, chain, i + 1, old(ex.Attributes()))
        && dispatcherHandler == old(dispatcherHandler) && providerCalls == old(providerCalls)
    {
      var url := ex.requestUrl.value;
      if url.host == "localhost" && url.port == port {
        ex.selfForwarded := true;
        var h := GetDispatcherHandler();
        if h == null {
          o := Outcome(NullDispatcher, ex.Attributes(), 1);
        } else {
          o := h.Handle(ex, env, fuel);
          o := o.(selfForwards := o.selfForwards + 1);
        }
      } else {
        assert chain[..i + 1] == chain[..i] + [chain[i]];
        o := RunChain(fuel, env, ex.request, route, chain, i + 1, ex.Attributes());
        ex.requestUrl, ex.selfForwarded := o.attrs.requestUrl, o.attrs.selfForwarded;
      }
    }
  }
}
