/** A security policy: the graphs, by name, that an actor (user or role) may
    access, plus whether the default graph is visible. A policy compiles itself
    into an engine-specific filter for a dataset handle and installs that filter
    in a context. */
module SecurityPolicy {
  import opened Wrappers
  import opened Nodes
  import opened Datasets
  import opened GraphFilters

  datatype Policy = Policy(graphNames: set<GraphName>, matchDefaultGraph: bool)

  /** The only error `Predicate` raises: an IllegalArgumentException. */
  datatype StoreError = IllegalArgument(message: string)

  const NotTdbPrefix: string := "Not a TDB1 or TDB2 database: "

  // ---------------------------------------------------------------------
  // Construction

  /** `new SecurityPolicy(boolean)`: no graph names, default graph as given. */
  function WithDefaultGraph(matchDefaultGraph: bool): (p: Policy)
    ensures p.graphNames == {}
    ensures p.matchDefaultGraph == matchDefaultGraph
  {
    Policy({}, matchDefaultGraph)
  }

  /** `new SecurityPolicy()`: the policy that permits nothing. */
  function Nothing(): (p: Policy)
    ensures p.graphNames == {} && !p.matchDefaultGraph
  {
    WithDefaultGraph(false)
  }

  const NONE: Policy := Nothing()
  const DFT_GRAPH: Policy := WithDefaultGraph(true)

  /** `Collection.addAll` into a set: everything already there plus every
      supplied name, each once. */
  function AddAll(acc: set<GraphName>, names: seq<GraphName>): (r: set<GraphName>)
    ensures forall g :: g in r <==> g in acc || g in names
    decreases names
  {
    if names == [] then acc else AddAll(acc + {names[0]}, names[1..])
  }

  /** `names.stream().anyMatch(Quad::isDefaultGraph)`. */
  function AnyMatchDefaultGraph(names: seq<GraphName>): (b: bool)
    ensures b <==> exists i :: 0 <= i < |names| && IsDefaultGraph(names[i])
  {
    if names == [] then false
    else if IsDefaultGraph(names[0]) then true
    else AnyMatchDefaultGraph(names[1..])
  }

  /** `new SecurityPolicy(Collection<Node>)`: the policy stores exactly the
      supplied names (the default-graph marker included, if supplied) and
      matches the default graph exactly when the marker was supplied. */
  function FromCollection(names: seq<GraphName>): (p: Policy)
    ensures forall g :: g in p.graphNames <==> g in names
    ensures p.matchDefaultGraph <==> DefaultGraph in names
  {
    Policy(AddAll({}, names), AnyMatchDefaultGraph(names))
  }

  /** `new SecurityPolicy(Node...)`: the varargs array viewed as a list. */
  function FromNodes(names: seq<GraphName>): (p: Policy)
    ensures forall g :: g in p.graphNames <==> g in names
    ensures p.matchDefaultGraph <==> DefaultGraph in names
  {
    FromCollection(names)
  }

  /** `new SecurityPolicy(String...)`: the strings are converted to nodes by a
      conversion this model does not interpret, then handed to the Collection
      constructor. */
  function FromStrings(names: seq<string>, convertToSetNodes: seq<string> -> seq<GraphName>): (p: Policy)
    ensures forall g :: g in p.graphNames <==> g in convertToSetNodes(names)
    ensures p.matchDefaultGraph <==> DefaultGraph in convertToSetNodes(names)
  {
    FromCollection(convertToSetNodes(names))
  }

  // ---------------------------------------------------------------------
  // Compilation into an engine-specific filter

  /** `filterTDB1`: a TDB1 filter bound to `dsg`, carrying the policy as is. */
  function FilterTDB1(p: Policy, dsg: Handle): (f: GraphFilter)
    ensures f.engine == TDB1 && f.dataset == dsg
    ensures f.graphNames == p.graphNames && f.matchDefaultGraph == p.matchDefaultGraph
  {
    GraphFilter(TDB1, dsg, p.graphNames, p.matchDefaultGraph)
  }

  /** `filterTDB2`: a TDB2 filter bound to `dsg`, carrying the policy as is. */
  function FilterTDB2(p: Policy, dsg: Handle): (f: GraphFilter)
    ensures f.engine == TDB2 && f.dataset == dsg
    ensures f.graphNames == p.graphNames && f.matchDefaultGraph == p.matchDefaultGraph
  {
    GraphFilter(TDB2, dsg, p.graphNames, p.matchDefaultGraph)
  }

  /** `predicate(dsg)`: strip the access-control layers, then dispatch on the
      engine generation of what is left, TDB1 first; anything else is an
      unsupported store, reported by its class name. */
  function Predicate(p: Policy, dsg: Handle): (r: Result<GraphFilter, StoreError>)
    ensures r.Success? <==> IsTDB1(Unwrap(dsg)) || IsTDB2(Unwrap(dsg))
    ensures IsTDB1(Unwrap(dsg)) ==> r == Success(FilterTDB1(p, Unwrap(dsg)))
    ensures !IsTDB1(Unwrap(dsg)) && IsTDB2(Unwrap(dsg)) ==> r == Success(FilterTDB2(p, Unwrap(dsg)))
    ensures r.Failure? ==> r.error.message == NotTdbPrefix + SimpleClassName(Unwrap(dsg))
  {
    var base := Unwrap(dsg);
    if IsTDB1(base) then Success(FilterTDB1(p, base))
    else if IsTDB2(base) then Success(FilterTDB2(p, base))
    else Failure(IllegalArgument(NotTdbPrefix + SimpleClassName(base)))
  }

  // ---------------------------------------------------------------------
  // Installation

  /** The two contexts an installer can write: the dataset's own context and
      the context of one query execution. */
  datatype Contexts = Contexts(dataset: Context, execution: Context)

  /** What an installer leaves behind: the contexts, and the error it raised. */
  datatype InstallOutcome = InstallOutcome(contexts: Contexts, raised: Option<StoreError>)

  /** `filterTDB(dsg, qExec)`: install the compiled filter in the execution's
      context only. If compilation fails nothing is written. */
  function FilterTDBForExecution(p: Policy, dsg: Handle, before: Contexts): (out: InstallOutcome)
    ensures out.raised.None? <==> Predicate(p, dsg).Success?
    ensures out.raised.Some? ==> out.raised.value == Predicate(p, dsg).error && out.contexts == before
    ensures out.contexts.dataset == before.dataset
    ensures out.raised.None? ==>
              var f := Predicate(p, dsg).value;
              && out.contexts.execution.Keys == before.execution.Keys + {f.ContextKey()}
              && out.contexts.execution[f.ContextKey()] == f
              && forall k :: k in before.execution && k != f.ContextKey() ==>
                               out.contexts.execution[k] == before.execution[k]
  {
    match Predicate(p, dsg)
    case Failure(e) => InstallOutcome(before, Some(e))
    case Success(f) =>
      InstallOutcome(before.(execution := Set(before.execution, f.ContextKey(), f)), None)
  }

  /** `filterTDB(dsg)`: install the compiled filter in the dataset's own
      context only. If compilation fails nothing is written. */
  function FilterTDB(p: Policy, dsg: Handle, before: Contexts): (out: InstallOutcome)
    ensures out.raised.None? <==> Predicate(p, dsg).Success?
    ensures out.raised.Some? ==> out.raised.value == Predicate(p, dsg).error && out.contexts == before
    ensures out.contexts.execution == before.execution
    ensures out.raised.None? ==>
              var f := Predicate(p, dsg).value;
              && out.contexts.dataset.Keys == before.dataset.Keys + {f.ContextKey()}
              && out.contexts.dataset[f.ContextKey()] == f
              && forall k :: k in before.dataset && k != f.ContextKey() ==>
                               out.contexts.dataset[k] == before.dataset[k]
  {
    match Predicate(p, dsg)
    case Failure(e) => InstallOutcome(before, Some(e))
    case Success(f) =>
      InstallOutcome(before.(dataset := Set(before.dataset, f.ContextKey(), f)), None)
  }
}
