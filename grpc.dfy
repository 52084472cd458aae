/** The gRPC server builder: configuration accumulates in ordered lists on a
    `Builder`, and `Build` turns it into a gRPC server, applying every
    registration pair in order and panicking at the first one whose shape is
    wrong. */
module Grpc {
  import opened Base
  import Chain

  /** The package's exported default sizes; `Build` never applies them. */
  const DefaultMaxSendMsgSize: int := 1024 * 1024 * 4
  const DefaultMaxRecvMsgSize: int := 1024 * 1024 * 4

  // ---------------------------------------------------------------------
  // Go types and values, as far as registration inspects them

  /** The dynamic type of a Go value, reduced to what the registration check
      looks at: its kind and, for a function, its parameter types; every type
      has a method set. */
  datatype GoType =
    | Func(params: seq<GoType>)                 // kind Func
    | Interface(methods: set<string>)           // kind Interface
    | Named(name: string, methods: set<string>) // any other kind

  /** The contents of an `interface{}`: nil, a nil value of some dynamic type
      (a nil function or pointer), or any other value of that type. */
  datatype GoValue = Nil | TypedNil(typ: GoType) | Value(typ: GoType, id: nat)

  /** The type of the server handle the engine constructs, `*grpc.Server`.
      Only its identity matters here. */
  const ServerHandleType: GoType := Named("*grpc.Server", {})

  function MethodSet(t: GoType): set<string>
  {
    match t
    case Func(_) => {}
    case Interface(m) => m
    case Named(_, m) => m
  }

  /** Go's structural rule: a type implements an interface when its method set
      contains every method the interface declares. */
  predicate Implements(t: GoType, iface: GoType)
    requires iface.Interface?
  {
    iface.methods <= MethodSet(t)
  }

  // ---------------------------------------------------------------------
  // Engine side: options, their effect, the server handle

  datatype Interceptor = Interceptor(id: nat)

  /** Transport credentials built from a TLS configuration that may be nil. */
  datatype Credentials = Insecure | Tls(config: Option<TlsConfig>)

  /** A `grpc.ServerOption`. */
  datatype ServerOption =
    | Creds(config: Option<TlsConfig>)
    | MaxRecvMsgSize(size: int)
    | MaxSendMsgSize(size: int)
    | UnaryInterceptor(chain: seq<Interceptor>)
    | StreamInterceptor(chain: seq<Interceptor>)

  /** The settings the engine ends up with; an empty chain means none is
      installed. */
  datatype Settings = Settings(
    creds: Credentials,
    maxRecvMsgSize: int,
    maxSendMsgSize: int,
    unary: seq<Interceptor>,
    stream: seq<Interceptor>)

  /** The engine's own limits when no size option is given: 4 MiB to
      receive, the largest 32-bit signed integer to send. `Build` never
      applies the package's `Default...` constants. */
  const EngineMaxRecvMsgSize: int := 1024 * 1024 * 4
  const EngineMaxSendMsgSize: int := 0x7FFF_FFFF

  const EngineDefaults: Settings :=
    Settings(Insecure, EngineMaxRecvMsgSize, EngineMaxSendMsgSize, [], [])

  /** One option sets its own field and leaves the others alone. */
  function Apply(o: ServerOption, st: Settings): Settings
  {
    match o
    case Creds(c) => st.(creds := Tls(c))
    case MaxRecvMsgSize(n) => st.(maxRecvMsgSize := n)
    case MaxSendMsgSize(n) => st.(maxSendMsgSize := n)
    case UnaryInterceptor(c) => st.(unary := c)
    case StreamInterceptor(c) => st.(stream := c)
  }

  /** The engine applies its options in list order. */
  function ApplyAll(opts: seq<ServerOption>, st: Settings): Settings
    decreases |opts|
  {
    if opts == [] then st else ApplyAll(opts[1..], Apply(opts[0], st))
  }

  /** The settings of a server created with `opts`. */
  function EffectiveSettings(opts: seq<ServerOption>): Settings
  {
    ApplyAll(opts, EngineDefaults)
  }

  /** A call through the composite unary interceptor of a server. */
  function UnaryCall(st: Settings): seq<Chain.Event<Interceptor>>
  {
    Chain.Run(Chain.Wrap(st.unary, Chain.Core))
  }

  /** A streaming call through the composite stream interceptor of a server. */
  function StreamCall(st: Settings): seq<Chain.Event<Interceptor>>
  {
    Chain.Run(Chain.Wrap(st.stream, Chain.Core))
  }

  /** The `*grpc.Server` handle. `registered` records, in call order, every
      registration function invoked on it with its implementation. */
  class GrpcServer {
    const options: seq<ServerOption>
    var registered: seq<Server>

    constructor (options: seq<ServerOption>)
      ensures this.options == options && registered == []
    {
      this.options := options;
      registered := [];
    }
  }

  // ---------------------------------------------------------------------
  // Registration

  /** A registration function paired with the implementation it attaches. */
  datatype Server = Server(registerFunc: GoValue, server: GoValue)

  datatype RegisterResult =
    | Registered  // the registration function was called
    | Error       // an error was returned
    | Panic       // reflection panicked on a nil value

  /** A registration function's shape: `func(*grpc.Server, SomeInterface)`. */
  predicate IsRegistrationFunc(t: GoType)
  {
    t.Func? && |t.params| == 2 && t.params[0] == ServerHandleType && t.params[1].Interface?
  }

  /** The pairs that can be registered, stated condition by condition. */
  ghost predicate Compatible(p: Server)
  {
    && p.registerFunc.Value?  // neither nil nor a nil function
    && p.registerFunc.typ.Func?
    && |p.registerFunc.typ.params| == 2
    && p.registerFunc.typ.params[0] == ServerHandleType
    && p.registerFunc.typ.params[1].Interface?
    && !p.server.Nil?
    && p.registerFunc.typ.params[1].methods <= MethodSet(p.server.typ)
  }

  /** What `registerServer` does with a pair. A nil registration function has
      kind Invalid, so the shape test fails, and building the error message
      asks the zero reflect.Value for its type, which panics; a nil
      implementation behind a well-shaped function panics the same way. A
      nil function of the right type passes every test, and calling it
      panics. */
  function Check(p: Server): (r: RegisterResult)
    ensures r == Registered <==> Compatible(p)
    ensures r == Panic <==>
      || p.registerFunc.Nil?
      || (IsRegistrationFunc(p.registerFunc.typ) && p.server.Nil?)
      || (&& p.registerFunc.TypedNil? && IsRegistrationFunc(p.registerFunc.typ)
          && !p.server.Nil? && Implements(p.server.typ, p.registerFunc.typ.params[1]))
  {
    if p.registerFunc.Nil? then Panic
    else if !IsRegistrationFunc(p.registerFunc.typ) then Error
    else if p.server.Nil? then Panic
    else if !Implements(p.server.typ, p.registerFunc.typ.params[1]) then Error
    else if p.registerFunc.TypedNil? then Panic
    else Registered
  }

  /** The index of the first pair that cannot be registered, or the number of
      pairs when all can. */
  function FirstFailure(pairs: seq<Server>): (r: nat)
    ensures r <= |pairs|
    ensures forall i :: 0 <= i < r ==> Check(pairs[i]) == Registered
    ensures r < |pairs| ==> Check(pairs[r]) != Registered
    decreases |pairs|
  {
    if pairs == [] then 0
    else if Check(pairs[0]) != Registered then 0
    else 1 + FirstFailure(pairs[1..])
  }

  /** `registerServer`: checks the pair and, when it fits, invokes the
      registration function once with the server handle and the
      implementation. */
  method RegisterServer(s: GrpcServer, registerFunc: GoValue, server: GoValue)
    returns (r: RegisterResult)
    modifies s
    ensures r == Check(Server(registerFunc, server))
    ensures s.registered ==
      old(s.registered) + if r == Registered then [Server(registerFunc, server)] else []
  {
    r := Check(Server(registerFunc, server));
    if r == Registered {
      s.registered := s.registered + [Server(registerFunc, server)];
    }
  }

  // ---------------------------------------------------------------------
  // The builder

  /** The options `Build` adds: a composite unary interceptor when there are
      unary interceptors, then a composite stream interceptor when there are
      stream interceptors. */
  function ChainOptions(unary: seq<Interceptor>, stream: seq<Interceptor>): seq<ServerOption>
  {
    (if |unary| > 0 then [UnaryInterceptor(unary)] else []) +
    (if |stream| > 0 then [StreamInterceptor(stream)] else [])
  }

  datatype BuildOutcome = Returned | Panicked(at: nat)

  class Builder {
    var servers: seq<Server>
    var tlsConfig: Option<TlsConfig>
    var options: seq<ServerOption>
    var unaryInterceptors: seq<Interceptor>
    var streamInterceptors: seq<Interceptor>

    /** `New`: every list empty, no TLS configuration. */
    constructor ()
      ensures servers == [] && tlsConfig == None && options == []
      ensures unaryInterceptors == [] && streamInterceptors == []
    {
      servers := [];
      tlsConfig := None;
      options := [];
      unaryInterceptors := [];
      streamInterceptors := [];
    }

    /** Records the pair for `Build`; nothing is checked yet. */
    method Register(registerFunc: GoValue, server: GoValue) returns (self: Builder)
      modifies this
      ensures self == this
      ensures servers == old(servers) + [Server(registerFunc, server)]
      ensures tlsConfig == old(tlsConfig) && options == old(options)
      ensures unaryInterceptors == old(unaryInterceptors)
      ensures streamInterceptors == old(streamInterceptors)
    {
      servers := servers + [Server(registerFunc, server)];
      self := this;
    }

    /** Stores the configuration and adds a credentials option built from it,
        nil included. */
    method WithTLS(config: Option<TlsConfig>) returns (self: Builder)
      modifies this
      ensures self == this
      ensures tlsConfig == config
      ensures options == old(options) + [Creds(config)]
      ensures servers == old(servers)
      ensures unaryInterceptors == old(unaryInterceptors)
      ensures streamInterceptors == old(streamInterceptors)
    {
      tlsConfig := config;
      options := options + [Creds(config)];
      self := this;
    }

    method WithUnaryInterceptor(interceptor: Interceptor) returns (self: Builder)
      modifies this
      ensures self == this
      ensures unaryInterceptors == old(unaryInterceptors) + [interceptor]
      ensures servers == old(servers) && tlsConfig == old(tlsConfig)
      ensures options == old(options) && streamInterceptors == old(streamInterceptors)
    {
      unaryInterceptors := unaryInterceptors + [interceptor];
      self := this;
    }

    method WithStreamInterceptor(interceptor: Interceptor) returns (self: Builder)
      modifies this
      ensures self == this
      ensures streamInterceptors == old(streamInterceptors) + [interceptor]
      ensures servers == old(servers) && tlsConfig == old(tlsConfig)
      ensures options == old(options) && unaryInterceptors == old(unaryInterceptors)
    {
      streamInterceptors := streamInterceptors + [interceptor];
      self := this;
    }

    /** Adds a receive-size option after the existing ones; earlier size
        options stay in the list. */
    method WithMaxRecvMsgSize(size: int) returns (self: Builder)
      modifies this
      ensures self == this
      ensures options == old(options) + [MaxRecvMsgSize(size)]
      ensures servers == old(servers) && tlsConfig == old(tlsConfig)
      ensures unaryInterceptors == old(unaryInterceptors)
      ensures streamInterceptors == old(streamInterceptors)
    {
      options := options + [MaxRecvMsgSize(size)];
      self := this;
    }

    /** Adds a send-size option after the existing ones; earlier size options
        stay in the list. */
    method WithMaxSendMsgSize(size: int) returns (self: Builder)
      modifies this
      ensures self == this
      ensures options == old(options) + [MaxSendMsgSize(size)]
      ensures servers == old(servers) && tlsConfig == old(tlsConfig)
      ensures unaryInterceptors == old(unaryInterceptors)
      ensures streamInterceptors == old(streamInterceptors)
    {
      options := options + [MaxSendMsgSize(size)];
      self := this;
    }

    /** Adds the chain options to `options` (so a second call adds them
        again), creates the server with all options, then registers the pairs
        in order. At the first pair that does not fit, the Go code panics; the
        model reports `Panicked` with that pair's index and hands back the
        server as it stood, with every earlier pair registered. */
    method Build() returns (s: GrpcServer, outcome: BuildOutcome)
      modifies this
      ensures options == old(options) + ChainOptions(old(unaryInterceptors), old(streamInterceptors))
      ensures servers == old(servers) && tlsConfig == old(tlsConfig)
      ensures unaryInterceptors == old(unaryInterceptors)
      ensures streamInterceptors == old(streamInterceptors)
      ensures fresh(s) && s.options == options
      ensures s.registered == servers[..FirstFailure(servers)]
      ensures outcome ==
        if FirstFailure(servers) == |servers| then Returned else Panicked(FirstFailure(servers))
    {
      if |unaryInterceptors| > 0 {
        options := options + [UnaryInterceptor(unaryInterceptors)];
      }
      if |streamInterceptors| > 0 {
        options := options + [StreamInterceptor(streamInterceptors)];
      }
      s := new GrpcServer(options);
      var i := 0;
      while i < |servers|
        invariant 0 <= i <= |servers|
        invariant s.registered == servers[..i]
        invariant forall j :: 0 <= j < i ==> Check(servers[j]) == Registered
        modifies s
      {
        var err := RegisterServer(s, servers[i].registerFunc, servers[i].server);
        if err != Registered {
          outcome := Panicked(i);
          return;
        }
        i := i + 1;
      }
      outcome := Returned;
    }
  }

  // ---------------------------------------------------------------------
  // Properties of the option list

  lemma {:induction false} ApplyAllAppend(opts: seq<ServerOption>, o: ServerOption, st: Settings)
    ensures ApplyAll(opts + [o], st) == Apply(o, ApplyAll(opts, st))
    decreases |opts|
  {
    if opts != [] {
      assert (opts + [o])[1..] == opts[1..] + [o];
      ApplyAllAppend(opts[1..], o, Apply(opts[0], st));
    }
  }

  /** The send-size option added last decides the limit; nothing else moves. */
  lemma MaxSendLastWins(opts: seq<ServerOption>, size: int)
    ensures EffectiveSettings(opts + [MaxSendMsgSize(size)]) ==
      EffectiveSettings(opts).(maxSendMsgSize := size)
  {
    ApplyAllAppend(opts, MaxSendMsgSize(size), EngineDefaults);
  }

  /** The receive-size option added last decides the limit; nothing else
      moves. */
  lemma MaxRecvLastWins(opts: seq<ServerOption>, size: int)
    ensures EffectiveSettings(opts + [MaxRecvMsgSize(size)]) ==
      EffectiveSettings(opts).(maxRecvMsgSize := size)
  {
    ApplyAllAppend(opts, MaxRecvMsgSize(size), EngineDefaults);
  }

  /** The credentials option added last decides the credentials, and a nil
      configuration still yields TLS credentials. */
  lemma TlsLastWins(opts: seq<ServerOption>, config: Option<TlsConfig>)
    ensures EffectiveSettings(opts + [Creds(config)]) ==
      EffectiveSettings(opts).(creds := Tls(config))
  {
    ApplyAllAppend(opts, Creds(config), EngineDefaults);
  }

  /** Options that set no size leave both limits where they were; for a new
      server these are `EngineMaxRecvMsgSize` and `EngineMaxSendMsgSize`. */
  lemma {:induction false} SizeDefaults(opts: seq<ServerOption>, st: Settings)
    requires forall i :: 0 <= i < |opts| ==> !opts[i].MaxSendMsgSize? && !opts[i].MaxRecvMsgSize?
    ensures ApplyAll(opts, st).maxSendMsgSize == st.maxSendMsgSize
    ensures ApplyAll(opts, st).maxRecvMsgSize == st.maxRecvMsgSize
    decreases |opts|
  {
    if opts != [] {
      SizeDefaults(opts[1..], Apply(opts[0], st));
    }
  }

  lemma DefaultSizesAre4MiB()
    ensures DefaultMaxSendMsgSize == 4194304 && DefaultMaxRecvMsgSize == 4194304
  {
  }

  /** After `Build` has added the chain options, the server runs exactly the
      registered interceptors of each kind, in registration order, when there
      are any; otherwise it keeps what the earlier options set. Sizes and
      credentials are untouched. */
  lemma BuiltInterceptors(opts: seq<ServerOption>, unary: seq<Interceptor>, stream: seq<Interceptor>)
    ensures var before := EffectiveSettings(opts);
      var after := EffectiveSettings(opts + ChainOptions(unary, stream));
      && after.unary == (if |unary| > 0 then unary else before.unary)
      && after.stream == (if |stream| > 0 then stream else before.stream)
      && after.creds == before.creds
      && after.maxRecvMsgSize == before.maxRecvMsgSize
      && after.maxSendMsgSize == before.maxSendMsgSize
  {
    var u := if |unary| > 0 then [UnaryInterceptor(unary)] else [];
    var st := if |stream| > 0 then [StreamInterceptor(stream)] else [];
    assert ChainOptions(unary, stream) == u + st;
    var mid := opts + u;
    if |unary| > 0 {
      ApplyAllAppend(opts, UnaryInterceptor(unary), EngineDefaults);
    } else {
      assert mid == opts;
    }
    if |stream| > 0 {
      assert opts + (u + st) == mid + [StreamInterceptor(stream)];
      ApplyAllAppend(mid, StreamInterceptor(stream), EngineDefaults);
    } else {
      assert opts + (u + st) == mid;
    }
  }

  /** A unary call on a built server enters the registered interceptors first
      to last, reaches the method handler, and leaves them last to first. */
  lemma UnaryCallOrder(opts: seq<ServerOption>, unary: seq<Interceptor>, stream: seq<Interceptor>)
    requires |unary| > 0
    ensures UnaryCall(EffectiveSettings(opts + ChainOptions(unary, stream))) ==
      Chain.Entries(unary) + [Chain.Reached] + Chain.Exits(unary)
  {
    BuiltInterceptors(opts, unary, stream);
    Chain.RunWrap(unary, Chain.Core);
  }

  /** A streaming call on a built server enters the registered stream
      interceptors first to last, reaches the handler, and leaves them last to
      first. */
  lemma StreamCallOrder(opts: seq<ServerOption>, unary: seq<Interceptor>, stream: seq<Interceptor>)
    requires |stream| > 0
    ensures StreamCall(EffectiveSettings(opts + ChainOptions(unary, stream))) ==
      Chain.Entries(stream) + [Chain.Reached] + Chain.Exits(stream)
  {
    BuiltInterceptors(opts, unary, stream);
    Chain.RunWrap(stream, Chain.Core);
  }

  lemma {:induction false} UnaryUntouched(opts: seq<ServerOption>, st: Settings)
    requires forall i :: 0 <= i < |opts| ==> !opts[i].UnaryInterceptor?
    ensures ApplyAll(opts, st).unary == st.unary
    decreases |opts|
  {
    if opts != [] {
      UnaryUntouched(opts[1..], Apply(opts[0], st));
    }
  }

  /** While no unary-interceptor option has been added (no `Build` with unary
      interceptors), a unary call goes straight to the handler. */
  lemma BareUnaryCall(opts: seq<ServerOption>)
    requires forall i :: 0 <= i < |opts| ==> !opts[i].UnaryInterceptor?
    ensures UnaryCall(EffectiveSettings(opts)) == [Chain.Reached]
  {
    UnaryUntouched(opts, EngineDefaults);
  }

  lemma {:induction false} StreamUntouched(opts: seq<ServerOption>, st: Settings)
    requires forall i :: 0 <= i < |opts| ==> !opts[i].StreamInterceptor?
    ensures ApplyAll(opts, st).stream == st.stream
    decreases |opts|
  {
    if opts != [] {
      StreamUntouched(opts[1..], Apply(opts[0], st));
    }
  }

  /** While no stream-interceptor option has been added (no `Build` with
      stream interceptors), a streaming call goes straight to the handler. */
  lemma BareStreamCall(opts: seq<ServerOption>)
    requires forall i :: 0 <= i < |opts| ==> !opts[i].StreamInterceptor?
    ensures StreamCall(EffectiveSettings(opts)) == [Chain.Reached]
  {
    StreamUntouched(opts, EngineDefaults);
  }
}
