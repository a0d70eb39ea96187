/** Compiled graph filters and the context maps they are installed in. */
module GraphFilters {
  import opened Nodes
  import opened Datasets

  /** A context key: the per-engine tuple-filter key, or any other symbol. */
  datatype Symbol = TupleFilter(engine: Engine) | Custom(name: string)

  /** An engine-specific filter, bound to the dataset it was compiled against. */
  datatype GraphFilter = GraphFilter(engine: Engine, dataset: Handle,
                                     graphNames: set<GraphName>, matchDefaultGraph: bool)
  {
    /** The key under which this filter is installed in a context: the
        tuple-filter key of its own engine, never a custom symbol. */
    function ContextKey(): (k: Symbol)
      ensures k.TupleFilter? && k.engine == engine
    {
      TupleFilter(engine)
    }
  }

  type Context = map<Symbol, GraphFilter>

  /** Bind `f` at `key`: the new binding replaces any earlier one and every
      other key keeps its value. */
  function Set(ctx: Context, key: Symbol, f: GraphFilter): (r: Context)
    ensures r.Keys == ctx.Keys + {key}
    ensures r[key] == f
    ensures forall k :: k in ctx && k != key ==> r[k] == ctx[k]
  {
    ctx[key := f]
  }
}
