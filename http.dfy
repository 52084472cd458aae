/** The HTTP server builder: middleware accumulates in order on a `Builder`,
    and `Build` wraps a fresh request multiplexer in it and returns a server
    with fixed timeouts. */
module Http {
  import opened Base
  import Chain

  /** `time.Duration` counts nanoseconds. */
  const Second: int := 1_000_000_000

  /** A `func(http.Handler) http.Handler`, possibly nil; the identity of a
      non-nil one is what the traces record. */
  datatype Middleware = Middleware(id: nat) | NilMiddleware

  /** A request handler: the multiplexer (`Chain.Core`) inside layers of
      middleware. */
  type Handler = Chain.Stack<Middleware>

  /** The `*http.Server` that `Build` returns; durations in nanoseconds. */
  datatype HttpServer = HttpServer(
    readTimeout: int,
    writeTimeout: int,
    idleTimeout: int,
    tlsConfig: Option<TlsConfig>,
    handler: Handler)

  /** `Build` either returns a server or panics. */
  datatype BuildResult = Built(server: HttpServer) | Panicked

  class Builder {
    var middleware: seq<Middleware>
    var tlsConfig: Option<TlsConfig>

    /** `New`: no middleware and no TLS configuration. */
    constructor ()
      ensures middleware == [] && tlsConfig == None
    {
      middleware := [];
      tlsConfig := None;
    }

    /** Builds the server without changing the builder: the handler is the
        middleware wrapped around a fresh multiplexer, the first middleware
        outermost, so a request meets the middleware first to last before the
        multiplexer and the response leaves through them last to first.
        Wrapping calls every middleware, so a nil one panics. */
    function Build(): (r: BuildResult)
      reads this
      ensures r.Panicked? <==> NilMiddleware in middleware
      ensures r.Built? ==>
        && r.server.readTimeout == 5 * Second
        && r.server.writeTimeout == 10 * Second
        && r.server.idleTimeout == 15 * Second
        && r.server.tlsConfig == tlsConfig
        && Chain.Run(r.server.handler) ==
             Chain.Entries(middleware) + [Chain.Reached] + Chain.Exits(middleware)
      ensures middleware == [] ==> r.Built? && r.server.handler == Chain.Core
    {
      var mux: Handler := Chain.Core;
      if NilMiddleware in middleware then Panicked
      else
        Chain.RunWrap(middleware, mux);
        Built(HttpServer(5 * Second, 10 * Second, 15 * Second, tlsConfig, Chain.Wrap(middleware, mux)))
    }

    /** Replaces the stored configuration; the last call wins. */
    method WithTLS(config: Option<TlsConfig>) returns (self: Builder)
      modifies this
      ensures self == this
      ensures tlsConfig == config
      ensures middleware == old(middleware)
    {
      tlsConfig := config;
      self := this;
    }

    /** Appends the given middleware, in argument order, after the existing
        middleware; with no arguments nothing changes. */
    method WithMiddleware(ms: seq<Middleware>) returns (self: Builder)
      modifies this
      ensures self == this
      ensures middleware == old(middleware) + ms
      ensures tlsConfig == old(tlsConfig)
    {
      var i := 0;
      while i < |ms|
        invariant 0 <= i <= |ms|
        invariant middleware == old(middleware) + ms[..i]
        invariant tlsConfig == old(tlsConfig)
      {
        middleware := middleware + [ms[i]];
        i := i + 1;
      }
      assert ms[..i] == ms;
      self := this;
    }
  }

  /** The k-th registered middleware is the k-th to see a request and the
      k-th from the end to see the response. */
  lemma MiddlewareOrder(b: Builder, k: nat)
    requires NilMiddleware !in b.middleware
    requires k < |b.middleware|
    ensures b.Build().Built?
    ensures var t := Chain.Run(b.Build().server.handler);
      |t| == 2 * |b.middleware| + 1 &&
      t[k] == Chain.Enter(b.middleware[k]) &&
      t[|b.middleware|] == Chain.Reached &&
      t[|t| - 1 - k] == Chain.Exit(b.middleware[k])
  {
    Chain.RunOrder(b.middleware, k);
  }
}
