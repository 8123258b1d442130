/** Values shared by the gateway model: URIs, inbound requests, the exchange
    attributes this core reads and writes, and the responses a dispatch ends in. */
module Web {

  datatype Option<+T> = None | Some(value: T)

  /** An absolute URI as java.net.URI reports it; `port` is NO_PORT when the URI names none. */
  datatype Uri = Uri(scheme: string, host: string, port: int)

  /** What java.net.URI.getPort() returns for a URI without an explicit port. */
  const NO_PORT: int := -1

  /** The parts of an inbound request that route and handler matching look at. */
  datatype Request = Request(hostHeader: string, verb: string, path: string)

  /** The two exchange attributes of this core: the resolved gateway request URL
      (GATEWAY_REQUEST_URL_ATTR, absent until the route's URI has been merged in) and
      the SELF_FORWARDED flag (absent reads as false). */
  datatype Attrs = Attrs(requestUrl: Option<Uri>, selfForwarded: bool)

  /** The attributes of an exchange that has just been received. */
  const FRESH: Attrs := Attrs(None, false)

  datatype Response =
    | Ok(body: string)        // a local handler function answered with this body
    | Proxied(target: Uri)    // the Netty routing filter sent the request out to target
    | NotFound                // no handler mapping produced a handler
    | NullDispatcher          // the dispatcher provider had no DispatcherHandler to re-dispatch to
    | ChainCompleted          // the filter chain ran out of filters without a terminal one
    | Exhausted               // the bound on nested dispatches ran out (stands for unbounded recursion)

  /** The result of one dispatch: the response, the exchange attributes afterwards,
      and how many times the self-forward filter set the flag and re-dispatched. */
  datatype Outcome = Outcome(response: Response, attrs: Attrs, selfForwards: nat)
}
