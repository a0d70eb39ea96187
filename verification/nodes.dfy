/** Graph names as a policy sees them: opaque, comparable identifiers, one of
    which is the marker that stands for the default (unnamed) graph. */
module Nodes {

  /** `Iri` names an ordinary named graph; it never carries one of the IRIs
      reserved for the default graph, which are all represented by the single
      marker `DefaultGraph`. */
  datatype GraphName = DefaultGraph | Iri(iri: string)

  /** The test the Collection constructor applies to every supplied name:
      exactly the marker passes it. */
  function IsDefaultGraph(g: GraphName): (b: bool)
    ensures b <==> g == DefaultGraph
  {
    g.DefaultGraph?
  }
}
