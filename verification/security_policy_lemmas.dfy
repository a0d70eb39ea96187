/** Properties of the security policy model: the shared constants, the
    constructors, unwrapping and dispatch, and the two installers. */
module SecurityPolicyLemmas {
  import opened Wrappers
  import opened Nodes
  import opened Datasets
  import opened GraphFilters
  import opened SecurityPolicy

  /** A policy whose default-graph flag says exactly whether the default-graph
      marker is among its names: what the Collection constructor establishes. */
  predicate FlagFollowsMarker(p: Policy)
  {
    p.matchDefaultGraph <==> DefaultGraph in p.graphNames
  }

  // ---------------------------------------------------------------------
  // The shared constants

  /** NONE is what the Collection constructor builds from no names at all. */
  lemma NoneIsEmptyCollection()
    ensures NONE == FromCollection([])
    ensures NONE.graphNames == {} && !NONE.matchDefaultGraph
  {
  }

  /** DFT_GRAPH matches the default graph without holding any name: it differs
      from what the Collection constructor builds from the marker, so it is the
      one shared policy whose flag does not follow the marker. */
  lemma DftGraphHoldsNoMarker()
    ensures DFT_GRAPH.graphNames == {} && DFT_GRAPH.matchDefaultGraph
    ensures DFT_GRAPH != FromCollection([DefaultGraph])
    ensures FlagFollowsMarker(NONE) && !FlagFollowsMarker(DFT_GRAPH)
  {
  }

  // ---------------------------------------------------------------------
  // Constructors

  /** Every policy built by the Collection constructor keeps the marker in its
      set exactly when it matches the default graph. */
  lemma CollectionFlagFollowsMarker(names: seq<GraphName>)
    ensures FlagFollowsMarker(FromCollection(names))
  {
  }

  /** Only the set of supplied names matters: order and duplicates do not. */
  lemma CollectionIgnoresOrderAndDuplicates(xs: seq<GraphName>, ys: seq<GraphName>)
    requires forall g :: g in xs <==> g in ys
    ensures FromCollection(xs) == FromCollection(ys)
  {
  }

  /** Rebuilding a policy from its own stored names gives the same policy,
      whenever its flag follows the marker. */
  lemma CollectionRoundTrip(p: Policy, names: seq<GraphName>)
    requires FlagFollowsMarker(p)
    requires forall g :: g in names <==> g in p.graphNames
    ensures FromCollection(names) == p
  {
  }

  /** The Node-varargs constructor and the Collection constructor agree. */
  lemma NodesAgreeWithCollection(names: seq<GraphName>)
    ensures FromNodes(names) == FromCollection(names)
  {
  }

  /** The String-varargs constructor is the Collection constructor applied to
      the converted names. */
  lemma StringsAgreeWithCollection(names: seq<string>, convertToSetNodes: seq<string> -> seq<GraphName>)
    ensures FromStrings(names, convertToSetNodes) == FromCollection(convertToSetNodes(names))
  {
  }

  // ---------------------------------------------------------------------
  // Unwrapping

  /** Any number of access-control layers disappear under Unwrap. */
  lemma {:induction false} UnwrapIgnoresAccessControl(n: nat, h: Handle)
    ensures Unwrap(Wrap(n, h)) == Unwrap(h)
  {
    if n > 0 {
      UnwrapIgnoresAccessControl(n - 1, h);
    }
  }

  /** Unwrapping twice is unwrapping once. */
  lemma UnwrapIdempotent(h: Handle)
    ensures Unwrap(Unwrap(h)) == Unwrap(h)
  {
  }

  /** A switchable layer is never stripped, however many access-control layers
      are around it, and whatever it points at. */
  lemma {:induction false} UnwrapKeepsSwitchable(n: nat, current: Handle)
    ensures Unwrap(Wrap(n, Switchable(current))) == Switchable(current)
  {
    UnwrapIgnoresAccessControl(n, Switchable(current));
  }

  // ---------------------------------------------------------------------
  // Dispatch

  /** Compiling against a handle behind N access-control layers gives the same
      result as compiling against the handle itself. */
  lemma {:induction false} PredicateIgnoresAccessControl(p: Policy, n: nat, h: Handle)
    ensures Predicate(p, Wrap(n, h)) == Predicate(p, h)
  {
    UnwrapIgnoresAccessControl(n, h);
  }

  /** Dispatch on each kind of base store, behind any number of access-control
      layers: a TDB1 database gives a TDB1 filter bound to it, a TDB2 database a
      TDB2 filter bound to it, a switchable TDB2 database a TDB2 filter bound to
      the switchable layer itself, and any other class fails with its name. */
  lemma {:induction false} PredicateDispatch(p: Policy, n: nat, id: nat, className: string)
    ensures Predicate(p, Wrap(n, Tdb1Database(id)))
              == Success(GraphFilter(TDB1, Tdb1Database(id), p.graphNames, p.matchDefaultGraph))
    ensures Predicate(p, Wrap(n, Tdb2Database(id)))
              == Success(GraphFilter(TDB2, Tdb2Database(id), p.graphNames, p.matchDefaultGraph))
    ensures Predicate(p, Wrap(n, Switchable(Tdb2Database(id))))
              == Success(GraphFilter(TDB2, Switchable(Tdb2Database(id)), p.graphNames, p.matchDefaultGraph))
    ensures Predicate(p, Wrap(n, OtherStore(className)))
              == Failure(IllegalArgument(NotTdbPrefix + className))
  {
    PredicateIgnoresAccessControl(p, n, Tdb1Database(id));
    PredicateIgnoresAccessControl(p, n, Tdb2Database(id));
    PredicateIgnoresAccessControl(p, n, Switchable(Tdb2Database(id)));
    PredicateIgnoresAccessControl(p, n, OtherStore(className));
  }

  /** A switchable layer behind any number of access-control layers compiles
      exactly when it currently points at a TDB2 database, and then to a TDB2
      filter bound to the switchable layer, not to what it points at. */
  lemma {:induction false} SwitchableDispatch(p: Policy, n: nat, current: Handle)
    ensures Predicate(p, Wrap(n, Switchable(current))).Success? <==> current.Tdb2Database?
    ensures current.Tdb2Database? ==>
              Predicate(p, Wrap(n, Switchable(current))) == Success(FilterTDB2(p, Switchable(current)))
  {
    UnwrapKeepsSwitchable(n, current);
  }

  /** Whether compilation succeeds, for which engine, and under which context
      key, depends on the handle alone, never on the policy. */
  lemma DispatchIgnoresPolicy(p: Policy, q: Policy, dsg: Handle)
    ensures Predicate(p, dsg).Success? <==> Predicate(q, dsg).Success?
    ensures Predicate(p, dsg).Success? ==>
              && Predicate(p, dsg).value.engine == Predicate(q, dsg).value.engine
              && Predicate(p, dsg).value.ContextKey() == Predicate(q, dsg).value.ContextKey()
              && Predicate(p, dsg).value.dataset == Predicate(q, dsg).value.dataset
    ensures Predicate(p, dsg).Failure? ==> Predicate(p, dsg) == Predicate(q, dsg)
  {
  }

  /** The filter carries the policy unchanged: on a supported store, two
      policies compile to the same filter exactly when they are the same. */
  lemma FilterDeterminesPolicy(p: Policy, q: Policy, dsg: Handle)
    requires Predicate(p, dsg).Success?
    ensures Predicate(p, dsg) == Predicate(q, dsg) <==> p == q
  {
  }

  // ---------------------------------------------------------------------
  // Installation

  /** Two filters share a context key exactly when they are for the same
      engine, so installing a TDB2 filter never overwrites a TDB1 filter and
      the other way round. */
  lemma ContextKeySeparatesEngines(f: GraphFilter, g: GraphFilter)
    ensures f.ContextKey() == g.ContextKey() <==> f.engine == g.engine
  {
  }

  /** Installing in the execution context twice, with the same policy or a
      different one, leaves what the second install alone would have left:
      the last filter wins and nothing accumulates. */
  lemma ExecutionInstallLastWins(p: Policy, q: Policy, dsg: Handle, before: Contexts)
    ensures FilterTDBForExecution(q, dsg, FilterTDBForExecution(p, dsg, before).contexts)
              == FilterTDBForExecution(q, dsg, before)
  {
  }

  /** The same for the dataset's own context. */
  lemma DatasetInstallLastWins(p: Policy, q: Policy, dsg: Handle, before: Contexts)
    ensures FilterTDB(q, dsg, FilterTDB(p, dsg, before).contexts) == FilterTDB(q, dsg, before)
  {
  }

  /** Installing the same policy again changes nothing. */
  lemma InstallIdempotent(p: Policy, dsg: Handle, before: Contexts)
    ensures var once := FilterTDBForExecution(p, dsg, before);
            FilterTDBForExecution(p, dsg, once.contexts).contexts == once.contexts
    ensures var once := FilterTDB(p, dsg, before);
            FilterTDB(p, dsg, once.contexts).contexts == once.contexts
  {
  }

  /** The two installers write to disjoint contexts, so they commute; on an
      unsupported store neither writes anything. */
  lemma InstallersCommute(p: Policy, q: Policy, dsg: Handle, before: Contexts)
    ensures FilterTDB(q, dsg, FilterTDBForExecution(p, dsg, before).contexts).contexts
              == FilterTDBForExecution(p, dsg, FilterTDB(q, dsg, before).contexts).contexts
    ensures Predicate(p, dsg).Failure? ==>
              FilterTDB(q, dsg, FilterTDBForExecution(p, dsg, before).contexts).contexts == before
  {
  }
}
