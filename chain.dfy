/** Layered wrapping, the composition both builders rely on: a list of layers
    (gRPC interceptors, HTTP middleware) folded around a core handler so that
    the FIRST layer in the list is the OUTERMOST one. Serving a call through the
    result is given a trace semantics: each layer records its entry, delegates
    to what it wraps, and records its exit; the core records that it was
    reached. */
module Chain {

  /** A handler built from layers of type L around a core handler. */
  datatype Stack<L> = Core | Layer(layer: L, inner: Stack<L>)

  datatype Event<L> = Enter(layer: L) | Exit(layer: L) | Reached

  /** Wraps `core` in `layers`, first layer outermost. */
  function Wrap<L>(layers: seq<L>, core: Stack<L>): (h: Stack<L>)
    decreases |layers|
  {
    if layers == [] then core else Layer(layers[0], Wrap(layers[1..], core))
  }

  /** The events observed while one call travels through `h` and back. */
  function Run<L>(h: Stack<L>): (t: seq<Event<L>>)
  {
    match h
    case Core => [Reached]
    case Layer(l, inner) => [Enter(l)] + Run(inner) + [Exit(l)]
  }

  /** Entry events of `layers`, in list order. */
  function Entries<L>(layers: seq<L>): (t: seq<Event<L>>)
    ensures |t| == |layers|
    decreases |layers|
  {
    if layers == [] then [] else [Enter(layers[0])] + Entries(layers[1..])
  }

  /** Exit events of `layers`, in reverse list order. */
  function Exits<L>(layers: seq<L>): (t: seq<Event<L>>)
    ensures |t| == |layers|
    decreases |layers|
  {
    if layers == [] then [] else Exits(layers[1..]) + [Exit(layers[0])]
  }

  /** A call through the wrapped handler enters every layer in list order,
      reaches the core, and leaves the layers in reverse order. */
  lemma {:induction false} RunWrap<L>(layers: seq<L>, core: Stack<L>)
    ensures Run(Wrap(layers, core)) == Entries(layers) + Run(core) + Exits(layers)
    decreases |layers|
  {
    if layers != [] {
      RunWrap(layers[1..], core);
    }
  }

  lemma {:induction false} EntriesAt<L>(layers: seq<L>, k: nat)
    requires k < |layers|
    ensures Entries(layers)[k] == Enter(layers[k])
    decreases |layers|
  {
    if k > 0 {
      EntriesAt(layers[1..], k - 1);
    }
  }

  lemma {:induction false} ExitsAt<L>(layers: seq<L>, k: nat)
    requires k < |layers|
    ensures Exits(layers)[|layers| - 1 - k] == Exit(layers[k])
    decreases |layers|
  {
    if k > 0 {
      ExitsAt(layers[1..], k - 1);
    }
  }

  /** The k-th layer in the list is the k-th to see a call arrive and the k-th
      from the end to see it leave; the core is reached in between. */
  lemma RunOrder<L>(layers: seq<L>, k: nat)
    requires k < |layers|
    ensures var t := Run(Wrap(layers, Core));
      |t| == 2 * |layers| + 1 &&
      t[k] == Enter(layers[k]) &&
      t[|layers|] == Reached &&
      t[|t| - 1 - k] == Exit(layers[k])
  {
    RunWrap(layers, Core);
    EntriesAt(layers, k);
    ExitsAt(layers, k);
  }
}
