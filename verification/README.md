# Graph-level security policy for TDB-backed datasets

A Dafny model of Apache Jena Fuseki's `SecurityPolicy`: the set of graph names an
actor (user or role) may access, plus a flag saying whether the default graph is
visible. A policy compiles itself into an engine-specific graph filter for a
dataset handle (TDB1 or TDB2), after stripping access-control wrapper layers but
never a hot-swappable ("switchable") layer, and installs that filter either in one
query execution's context or in the dataset's own context.

Modules:

- `Wrappers` (wrappers.dfy): `Option` and `Result`.
- `Nodes` (nodes.dfy): graph names, with one marker for the default graph.
- `Datasets` (datasets.dfy): dataset handles as a recursive datatype
  (`AccessControl`, `Switchable`, `Tdb1Database`, `Tdb2Database`, `OtherStore`),
  unwrapping, engine classification and class names.
- `GraphFilters` (graph_filters.dfy): a compiled filter as an opaque record
  (engine, bound dataset, name set, flag) with its context key, and contexts as maps.
- `SecurityPolicy` (security_policy.dfy): the policy value, its constructors, the
  constants `NONE` and `DFT_GRAPH`, `Predicate` (compile and dispatch),
  `FilterTDB1`/`FilterTDB2`, and the two `filterTDB` installers.
- `SecurityPolicyLemmas` (security_policy_lemmas.dfy): properties relating them.

The Java exception of `predicate` becomes a `Result` failure; an installer returns
the contexts it leaves behind together with the error it raised, if any.

## Model

| member | source | states |
|---|---|---|
| SecurityPolicy.WithDefaultGraph | jena-fuseki2/jena-fuseki-access/src/main/java/org/apache/jena/fuseki/access/SecurityPolicy.java:51-53 | the boolean constructor holds no graph names and takes its default-graph flag from its argument |
| SecurityPolicy.Nothing | jena-fuseki2/jena-fuseki-access/src/main/java/org/apache/jena/fuseki/access/SecurityPolicy.java:47-49 | the no-argument constructor permits nothing: no names, default graph not matched |
| SecurityPolicyLemmas.NoneIsEmptyCollection | jena-fuseki2/jena-fuseki-access/src/main/java/org/apache/jena/fuseki/access/SecurityPolicy.java:41-49 | NONE has an empty name set and does not match the default graph, and equals the Collection constructor given no names |
| SecurityPolicyLemmas.DftGraphHoldsNoMarker | jena-fuseki2/jena-fuseki-access/src/main/java/org/apache/jena/fuseki/access/SecurityPolicy.java:42-53 | DFT_GRAPH has an empty name set and matches the default graph; it differs from the policy built from the marker, so its flag does not follow the marker while NONE's does |
| Nodes.IsDefaultGraph | jena-fuseki2/jena-fuseki-access/src/main/java/org/apache/jena/fuseki/access/SecurityPolicy.java:65 | the default-graph test passes exactly the one default-graph marker and no named graph |
| SecurityPolicy.AddAll | jena-fuseki2/jena-fuseki-access/src/main/java/org/apache/jena/fuseki/access/SecurityPolicy.java:64 | adding a sequence of names to a set yields exactly the earlier members plus every supplied name |
| SecurityPolicy.AnyMatchDefaultGraph | jena-fuseki2/jena-fuseki-access/src/main/java/org/apache/jena/fuseki/access/SecurityPolicy.java:65 | true exactly when some supplied name is the default-graph marker |
| SecurityPolicy.FromCollection | jena-fuseki2/jena-fuseki-access/src/main/java/org/apache/jena/fuseki/access/SecurityPolicy.java:63-66 | the Collection constructor stores exactly the supplied names, the marker included, and matches the default graph exactly when the marker is supplied |
| SecurityPolicy.FromNodes | jena-fuseki2/jena-fuseki-access/src/main/java/org/apache/jena/fuseki/access/SecurityPolicy.java:59-61 | the Node-varargs constructor stores exactly the supplied nodes and derives the flag from the marker |
| SecurityPolicy.FromStrings | jena-fuseki2/jena-fuseki-access/src/main/java/org/apache/jena/fuseki/access/SecurityPolicy.java:55-57 | the String-varargs constructor stores exactly the converted names and derives the flag from the marker among them |
| SecurityPolicyLemmas.CollectionFlagFollowsMarker | jena-fuseki2/jena-fuseki-access/src/main/java/org/apache/jena/fuseki/access/SecurityPolicy.java:63-66 | every policy from the Collection constructor matches the default graph exactly when the marker is in its stored set |
| SecurityPolicyLemmas.CollectionIgnoresOrderAndDuplicates | jena-fuseki2/jena-fuseki-access/src/main/java/org/apache/jena/fuseki/access/SecurityPolicy.java:63-65 | two name lists with the same members give the same policy, whatever their order and repetitions |
| SecurityPolicyLemmas.CollectionRoundTrip | jena-fuseki2/jena-fuseki-access/src/main/java/org/apache/jena/fuseki/access/SecurityPolicy.java:63-66 | rebuilding a policy whose flag follows the marker from any listing of its own names gives the policy back |
| SecurityPolicyLemmas.NodesAgreeWithCollection | jena-fuseki2/jena-fuseki-access/src/main/java/org/apache/jena/fuseki/access/SecurityPolicy.java:59-61 | the Node-varargs constructor gives the same policy as the Collection constructor on the same list |
| SecurityPolicyLemmas.StringsAgreeWithCollection | jena-fuseki2/jena-fuseki-access/src/main/java/org/apache/jena/fuseki/access/SecurityPolicy.java:55-57 | the String-varargs constructor is the Collection constructor applied to the converted names |
| Datasets.Unwrap | jena-fuseki2/jena-fuseki-access/src/main/java/org/apache/jena/fuseki/access/SecurityPolicy.java:97-99 | unwrapping leaves a handle that is not an access-control layer, and re-wrapping it as many layers as were stripped rebuilds the argument, so nothing else is removed |
| SecurityPolicyLemmas.UnwrapIgnoresAccessControl | jena-fuseki2/jena-fuseki-access/src/main/java/org/apache/jena/fuseki/access/SecurityPolicy.java:97-98 | any number N of access-control layers around a handle disappear under unwrapping |
| SecurityPolicyLemmas.UnwrapIdempotent | jena-fuseki2/jena-fuseki-access/src/main/java/org/apache/jena/fuseki/access/SecurityPolicy.java:97-98 | unwrapping an unwrapped handle changes nothing |
| SecurityPolicyLemmas.UnwrapKeepsSwitchable | jena-fuseki2/jena-fuseki-access/src/main/java/org/apache/jena/fuseki/access/SecurityPolicy.java:97-99 | a switchable layer under any number of access-control layers is reached and kept, never stripped |
| Datasets.IsTDB1 | jena-fuseki2/jena-fuseki-access/src/main/java/org/apache/jena/fuseki/access/SecurityPolicy.java:98-100 | a TDB1 database passes the TDB1 test; a TDB2 database or an unsupported store does not, and neither does a handle that still carries an access-control or switchable layer |
| Datasets.IsTDB2 | jena-fuseki2/jena-fuseki-access/src/main/java/org/apache/jena/fuseki/access/SecurityPolicy.java:98-102 | a TDB2 database passes the TDB2 test, and a switchable layer passes exactly when it points at a TDB2 database; an unsupported store and an access-control layer do not pass, and the test never holds together with the TDB1 test |
| Datasets.SimpleClassName | jena-fuseki2/jena-fuseki-access/src/main/java/org/apache/jena/fuseki/access/SecurityPolicy.java:104 | a store of an unsupported class reports that class verbatim; a wrapper layer reports its own class, never that of what it wraps |
| SecurityPolicy.FilterTDB1 | jena-fuseki2/jena-fuseki-access/src/main/java/org/apache/jena/fuseki/access/SecurityPolicy.java:112-115 | the TDB1 filter is bound to the given dataset and carries the policy's name set and flag unchanged |
| SecurityPolicy.FilterTDB2 | jena-fuseki2/jena-fuseki-access/src/main/java/org/apache/jena/fuseki/access/SecurityPolicy.java:107-110 | the TDB2 filter is bound to the given dataset and carries the policy's name set and flag unchanged |
| SecurityPolicy.Predicate | jena-fuseki2/jena-fuseki-access/src/main/java/org/apache/jena/fuseki/access/SecurityPolicy.java:96-105 | compilation succeeds exactly when the unwrapped handle is TDB1 or TDB2; TDB1 is tested first and gives a TDB1 filter on the unwrapped handle, else TDB2 gives a TDB2 filter on the unwrapped handle, which is the switchable layer itself when one is there; otherwise the error message is the fixed prefix followed by the unwrapped handle's class name |
| SecurityPolicyLemmas.PredicateIgnoresAccessControl | jena-fuseki2/jena-fuseki-access/src/main/java/org/apache/jena/fuseki/access/SecurityPolicy.java:96-105 | compiling against a handle wrapped in N access-control layers gives the same result as compiling against the handle itself |
| SecurityPolicyLemmas.PredicateDispatch | jena-fuseki2/jena-fuseki-access/src/main/java/org/apache/jena/fuseki/access/SecurityPolicy.java:100-104 | behind any number of access-control layers, a TDB1 database yields a TDB1 filter bound to it, a TDB2 database a TDB2 filter bound to it, a switchable TDB2 database a TDB2 filter bound to the switchable layer, and any other store fails with a message naming its class |
| SecurityPolicyLemmas.SwitchableDispatch | jena-fuseki2/jena-fuseki-access/src/main/java/org/apache/jena/fuseki/access/SecurityPolicy.java:97-103 | behind any number of access-control layers, a switchable layer compiles exactly when it points at a TDB2 database, and then to a TDB2 filter bound to the switchable layer, not to the instance behind it |
| SecurityPolicyLemmas.DispatchIgnoresPolicy | jena-fuseki2/jena-fuseki-access/src/main/java/org/apache/jena/fuseki/access/SecurityPolicy.java:100-104 | success or failure, the chosen engine, the bound dataset and the context key depend on the handle only, never on the policy |
| SecurityPolicyLemmas.FilterDeterminesPolicy | jena-fuseki2/jena-fuseki-access/src/main/java/org/apache/jena/fuseki/access/SecurityPolicy.java:107-115 | on a supported store two policies compile to the same filter exactly when they are equal: the filter loses nothing of the policy |
| GraphFilters.GraphFilter.ContextKey | jena-fuseki2/jena-fuseki-access/src/main/java/org/apache/jena/fuseki/access/SecurityPolicy.java:74-80 | a filter is installed under the tuple-filter key of its own engine, never under a custom symbol |
| SecurityPolicyLemmas.ContextKeySeparatesEngines | jena-fuseki2/jena-fuseki-access/src/main/java/org/apache/jena/fuseki/access/SecurityPolicy.java:74-80 | two filters share a context key exactly when they are for the same engine, so a TDB2 install never overwrites a TDB1 filter |
| GraphFilters.Set | jena-fuseki2/jena-fuseki-access/src/main/java/org/apache/jena/fuseki/access/SecurityPolicy.java:74 | setting a context key binds it to the new filter, replacing any earlier value, and leaves every other key as it was |
| SecurityPolicy.FilterTDBForExecution | jena-fuseki2/jena-fuseki-access/src/main/java/org/apache/jena/fuseki/access/SecurityPolicy.java:68-75 | installs the compiled filter at its key in the execution context only, overwriting that key and leaving other keys and the dataset context alone; when compilation fails it raises that error and writes neither context |
| SecurityPolicy.FilterTDB | jena-fuseki2/jena-fuseki-access/src/main/java/org/apache/jena/fuseki/access/SecurityPolicy.java:77-81 | installs the compiled filter at its key in the dataset context only, overwriting that key and leaving other keys and the execution context alone; when compilation fails it raises that error and writes neither context |
| SecurityPolicyLemmas.ExecutionInstallLastWins | jena-fuseki2/jena-fuseki-access/src/main/java/org/apache/jena/fuseki/access/SecurityPolicy.java:72-75 | installing in an execution context twice leaves what the second install alone leaves: the last filter wins, nothing accumulates |
| SecurityPolicyLemmas.DatasetInstallLastWins | jena-fuseki2/jena-fuseki-access/src/main/java/org/apache/jena/fuseki/access/SecurityPolicy.java:78-81 | installing in a dataset context twice leaves what the second install alone leaves |
| SecurityPolicyLemmas.InstallIdempotent | jena-fuseki2/jena-fuseki-access/src/main/java/org/apache/jena/fuseki/access/SecurityPolicy.java:72-81 | repeating an install with the same policy changes neither context |
| SecurityPolicyLemmas.InstallersCommute | jena-fuseki2/jena-fuseki-access/src/main/java/org/apache/jena/fuseki/access/SecurityPolicy.java:72-81 | the execution-scoped and dataset-wide installers write disjoint contexts, so running them in either order leaves the same contexts; on an unsupported store both leave the contexts as they were |

## Left out

- `toString` (SecurityPolicy.java:84-86): its text depends on Java's set iteration order.
- The concurrent key set (`ConcurrentHashMap.newKeySet`, SecurityPolicy.java:44) and thread safety: the name set is an immutable Dafny `set`. The Java set also rejects `null` names, which have no counterpart here.
- `DatasetGraphAccessControl.unwrap`, `TDBFactory.isTDB1` and `DatabaseMgr.isTDB2` are not part of this model; `Datasets.Unwrap`, `Datasets.IsTDB1` and `Datasets.IsTDB2` stand in for them. `Unwrap` strips every leading access-control layer, not just one, and keeps the switchable layer. `IsTDB2` accepts a switchable layer exactly when it points directly at a TDB2 database, and the filter is then bound to the switchable layer. A switchable layer in front of anything else, including a TDB1 database, is unsupported.
- Nodes.IsDefaultGraph: `Quad.isDefaultGraph` is not part of this model. The stand-in assumes that every IRI reserved for the default graph is written as the single marker `GraphName.DefaultGraph`, and that an `Iri` name never carries one of those IRIs; a reserved IRI written as `Iri(...)` would not be recognised.
- `NONE` and `DFT_GRAPH` (SecurityPolicy.java:41-42) are `public static` but not `final`, so any caller may reassign them. The model makes them constants, and the lemmas about them describe only the values they are initialised with.
- SecurityPolicy.FromStrings: `NodeUtils.convertToSetNodes` is not part of this model. It is a function parameter that is not interpreted, and its output is taken as a list of nodes in the order the converted set yields them.
- The internals of `GraphFilterTDB1` and `GraphFilterTDB2` (NodeId translation, per-quad visibility) are not part of this model. A filter is an opaque record of engine, bound dataset, name set and flag, and the model makes no claim about which graphs it reports visible.
- The context keys are one symbol per engine (`TupleFilter(engine)`). The real symbol values live in the TDB libraries and are not modelled.
- The class names `SimpleClassName` gives for TDB1 and TDB2 handles are placeholders. They never reach an error message, because those handles are always classified.
- `QueryExecution`, `DatasetGraph` and `Context` objects are plain maps and datatypes. Which object's context a wrapped dataset's `getContext` reaches is not modelled: `FilterTDB` writes the context of the handle it is given.
