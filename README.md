# goserve builders in Dafny

This project models the two server builders of goserve.

- The **gRPC builder** (`grpc/grpc.go`) collects registration pairs, server options and unary/stream interceptors in ordered lists. `Build` does three things in order:
  - it adds one composite-interceptor option per non-empty interceptor list;
  - it creates the server with every option;
  - it checks each registration pair with reflection and invokes its registration function, panicking at the first pair that does not fit.
- The **HTTP builder** (`http/http.go`) collects middleware and a TLS configuration. `Build` wraps a fresh request multiplexer in the middleware and returns an `http.Server` with fixed timeouts.

Files:

- `base.dfy` (module `Base`): `Option`, where `None` stands for a nil pointer, and an opaque `TlsConfig`.
- `chain.dfy` (module `Chain`): layered wrapping with the first layer outermost. This is the documented composition of both `grpc_middleware.ChainUnaryServer`/`ChainStreamServer` and `alice`. A trace semantics records each layer's entry and exit and the arrival at the core, and lemmas prove the resulting order.
- `grpc.dfy` (module `Grpc`) holds:
  - Go types reduced to kinds, parameter lists and method sets, with `Implements` as method-set inclusion;
  - `registerServer` as the pure decision `Check` plus the method `RegisterServer`;
  - the `Builder` class;
  - the engine's options and how `grpc.NewServer` applies them: in list order, each option setting its own field (`EffectiveSettings`).
- `http.dfy` (module `Http`): the `Builder` class. `Build` is a function that only reads the builder.

Durations are in integer nanoseconds. Registrar invocations are recorded on the server handle (`GrpcServer.registered`), because a registrar's own effect is foreign code.

The code behaves as follows where a reader might expect otherwise:

- Registration pairs are checked lazily, in `Build`, not in `Register`.
- `WithTLS` accepts a nil configuration and still adds a credentials option.
- Size options are appended, not replaced. The last one wins only because the engine applies options in order (`MaxSendLastWins`).
- A second `Build` appends the chain options again.
- The HTTP builder has no route table and no `Handle`/`HandleFunc`.

## Model

| member | source | states |
|---|---|---|
| `Grpc.DefaultSizesAre4MiB` | grpc/grpc.go:14-20 | Both default size constants are 4·1024·1024 |
| `Grpc.Builder.constructor` | grpc/grpc.go:46-48 | `New` gives empty servers, options and interceptor lists and no TLS configuration |
| `Grpc.Builder.Register` | grpc/grpc.go:71-77 | Appends exactly one pair `Server(registerFunc, server)` at the end of `servers`, changes no other field and returns the same builder; nothing is validated |
| `Grpc.Builder.WithTLS` | grpc/grpc.go:79-84 | Sets `tlsConfig` to the argument, nil included, and appends exactly one `Creds` option after the existing options |
| `Grpc.Builder.WithUnaryInterceptor` | grpc/grpc.go:86-89 | Appends the interceptor to the unary list only, keeping registration order |
| `Grpc.Builder.WithStreamInterceptor` | grpc/grpc.go:91-94 | Appends the interceptor to the stream list only, keeping registration order |
| `Grpc.Builder.WithMaxRecvMsgSize` | grpc/grpc.go:96-99 | Appends exactly one receive-size option; earlier size options stay in the list |
| `Grpc.Builder.WithMaxSendMsgSize` | grpc/grpc.go:101-104 | Appends exactly one send-size option; earlier size options stay in the list |
| `Grpc.Builder.Build` | grpc/grpc.go:50-69 | See the list below the table |
| `Grpc.Check` | grpc/grpc.go:106-126 | See the list below the table |
| `Grpc.RegisterServer` | grpc/grpc.go:106-126 | Returns `Check`'s verdict. It invokes the registration function exactly once, with the server and the implementation, when the pair is compatible, and not at all otherwise |
| `Grpc.FirstFailure` | grpc/grpc.go:61-66 | The index where `Build` stops. Every earlier pair is registrable, and the pair at the index, if any, is not |
| `Grpc.ApplyAllAppend` | grpc/grpc.go:59 | Applying options in order: an option appended last is applied after all earlier ones |
| `Grpc.MaxSendLastWins` | grpc/grpc.go:101-104 | After `WithMaxSendMsgSize(n)`, the server's send limit is `n` whatever came before; every other setting is unchanged |
| `Grpc.MaxRecvLastWins` | grpc/grpc.go:96-99 | After `WithMaxRecvMsgSize(n)`, the server's receive limit is `n` whatever came before; every other setting is unchanged |
| `Grpc.TlsLastWins` | grpc/grpc.go:79-84 | After `WithTLS(c)`, the server uses TLS credentials built from `c`, even when `c` is nil; every other setting is unchanged |
| `Grpc.SizeDefaults` | grpc/grpc.go:96-104 | Options that set no size leave both limits at their starting values; for a new server these are the engine's own limits |
| `Grpc.BuiltInterceptors` | grpc/grpc.go:50-57 | After `Build`'s chain options, the server's unary (stream) chain is exactly the registered unary (stream) interceptors when there are any, and is otherwise as before; sizes and credentials are untouched |
| `Grpc.UnaryCallOrder` | grpc/grpc.go:33-34 | A unary call on the built server enters the interceptors first to last, reaches the handler, and leaves them last to first |
| `Grpc.StreamCallOrder` | grpc/grpc.go:36-37 | A streaming call on the built server enters the stream interceptors first to last, reaches the handler, and leaves them last to first |
| `Grpc.BareUnaryCall` | grpc/grpc.go:51-53 | While no unary-interceptor option has been added, a unary call reaches the handler directly |
| `Grpc.BareStreamCall` | grpc/grpc.go:55-57 | While no stream-interceptor option has been added, a streaming call reaches the handler directly |
| `Chain.RunWrap` | http/http.go:25 | A call through the wrapped handler yields every entry in list order, then the core's trace, then every exit in reverse order |
| `Chain.EntriesAt` | grpc/grpc.go:33-37 | The k-th entry event belongs to the k-th registered layer |
| `Chain.ExitsAt` | grpc/grpc.go:33-37 | The k-th exit event from the end belongs to the k-th registered layer |
| `Chain.RunOrder` | http/http.go:44 | With the first layer outermost, the k-th layer is the k-th to see a call and the k-th from the end to see it return; the core is reached exactly in the middle |
| `Http.Builder.constructor` | http/http.go:18-20 | `New` gives no middleware and no TLS configuration |
| `Http.Builder.Build` | http/http.go:23-36 | See the list below the table |
| `Http.Builder.WithTLS` | http/http.go:39-42 | Overwrites the stored configuration (the last call wins), leaves the middleware alone and returns the same builder |
| `Http.Builder.WithMiddleware` | http/http.go:45-50 | Appends the arguments in argument order after the existing middleware; with no arguments nothing changes; the TLS configuration is untouched |
| `Http.MiddlewareOrder` | http/http.go:44 | On the built server, the k-th registered middleware is the k-th to see a request and the k-th from the end to see the response |

What the three longer contracts state:

- `Grpc.Builder.Build`:
  - `options` becomes the old options, then a unary-chain option if and only if there are unary interceptors, then a stream-chain option if and only if there are stream interceptors. Each chain carries its interceptors in registration order.
  - A second call therefore appends the chain options again.
  - The server is fresh and gets every option.
  - Pairs are registered in list order. If every pair fits, the outcome is `Returned` and all pairs are registered. Otherwise the outcome is `Panicked` at the first pair that does not fit, and exactly the earlier pairs are registered.
- `Grpc.Check` (the decision inside `registerServer`):
  - It returns `Registered` if and only if all of these hold: the registration function is a non-nil function of exactly two parameters; the first parameter is `*grpc.Server`; the second is an interface; the implementation is non-nil and its type implements that interface.
  - It returns `Panic` exactly in three cases:
    - the registration function is nil;
    - it is well shaped and the implementation is nil;
    - it is a nil function of the right type and the implementation fits, so that calling it panics.
  - In every other case it returns an error.
- `Http.Builder.Build`:
  - It panics if and only if some middleware is nil, because wrapping calls every middleware.
  - When it returns a server, the following hold.
  - The timeouts are 5 s read, 10 s write and 15 s idle.
  - The TLS configuration is the builder's.
  - A request enters every middleware first to last, reaches the multiplexer, and leaves last to first.
  - With no middleware, the handler is the bare multiplexer.
  - The builder is only read.

## Left out

- `grpc.NewServer`, `credentials.NewTLS`, `http.NewServeMux` and `http.Server` are represented by values. Only the option fold (`EffectiveSettings`) stands for the engine's behaviour. Serving, listeners and connections are not modelled.
- Whether the engine accepts a second interceptor option, for example after a second `Build`, is the engine's own rule and is not modelled. The fold lets the last option win.
- `Chain.Run`: every interceptor and middleware is assumed to call what it wraps exactly once. Stopping a call early or calling through more than once is not modelled, so the ordering lemmas hold under that assumption.
- The bodies of `grpc_middleware.ChainUnaryServer`/`ChainStreamServer` and `alice` are not modelled. Only their documented order, first registered outermost, is modelled (`Chain.Wrap`).
- The engine's own limits when no size option is given (4 MiB to receive, 2^31-1 to send) are grpc-go's defaults; they are not part of this repository. `Build` never applies the package's `DefaultMaxSendMsgSize`/`DefaultMaxRecvMsgSize` constants; only the example commands use them as flag defaults.
- Interceptor values are never nil in the model. A nil interceptor's effect depends on `grpc_middleware` internals.
- Go's `reflect` is reduced to the kind, the parameter list and the method set of a type. Variadic functions, named function types and the text of the error messages are not modelled.
- The effect of a registration function beyond being invoked is not modelled, because it is foreign code. This includes the engine's own checks on service registration.
- `Grpc.Builder.Build`: a Go panic unwinds, and no server reaches the caller. The model instead returns the `Panicked` outcome together with the server as it stood, so that the earlier registrations can be stated.
- `serve.go` (a one-method interface) and the example commands under `examples/hello/cmd` are not part of this model: they only parse flags, load certificates, listen and log.
- The HTTP route table (`Handle`/`HandleFunc`) is not part of the HTTP builder's code, so it is not modelled.
