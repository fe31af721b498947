/**
 * The LangGraph `StateGraph` builder both pipelines use, reduced to what they rely on:
 * named nodes, one entry point, and for each node either a fixed successor or a branch on
 * the state's cache flag. `Trace` is what a compiled graph visits in one run.
 */
module Workflow {
  import opened Wrappers

  /** The four pipeline nodes. */
  datatype Node = QueryConstructNode | CheckCacheNode | RetrieveNode | GenerateAnswerNode

  /** Where an edge leads: another node, or `END`. */
  datatype Target = To(node: Node) | End

  /** `add_edge` gives `Always`; `add_conditional_edges` keyed on `cache_hit` gives `OnCacheHit`. */
  datatype Edge = Always(next: Target) | OnCacheHit(hit: Target, miss: Target)

  class StateGraph {
    var nodes: set<Node>
    var entry: Option<Node>
    var edges: map<Node, Edge>

    constructor ()
      ensures nodes == {} && entry == None && edges == map[]
    {
      nodes, entry, edges := {}, None, map[];
    }

    /** `add_node`. */
    method AddNode(n: Node)
      modifies this
      ensures nodes == old(nodes) + {n} && entry == old(entry) && edges == old(edges)
    {
      nodes := nodes + {n};
    }

    /** `set_entry_point`. */
    method SetEntryPoint(n: Node)
      modifies this
      ensures entry == Some(n) && nodes == old(nodes) && edges == old(edges)
    {
      entry := Some(n);
    }

    /** `add_edge`. */
    method AddEdge(source: Node, target: Target)
      modifies this
      ensures edges == old(edges)[source := Always(target)]
      ensures nodes == old(nodes) && entry == old(entry)
    {
      edges := edges[source := Always(target)];
    }

    /** `add_conditional_edges` whose router maps the cache flag to `hit` or `miss`. */
    method AddConditionalEdges(source: Node, hit: Target, miss: Target)
      modifies this
      ensures edges == old(edges)[source := OnCacheHit(hit, miss)]
      ensures nodes == old(nodes) && entry == old(entry)
    {
      edges := edges[source := OnCacheHit(hit, miss)];
    }
  }

  /** The successor of `n` in a state whose cache flag is `cacheHit`; `None` for a node without edges. */
  function Step(edges: map<Node, Edge>, n: Node, cacheHit: bool): Option<Target>
  {
    if n !in edges then None
    else
      match edges[n]
      case Always(t) => Some(t)
      case OnCacheHit(hit, miss) => Some(if cacheHit then hit else miss)
  }

  /**
   * The nodes one run visits from `start`, in order, when it reaches `END` within `fuel`
   * nodes; `None` when it does not, or when it reaches a node with no outgoing edge.
   */
  function Trace(edges: map<Node, Edge>, start: Node, cacheHit: bool, fuel: nat): Option<seq<Node>>
    decreases fuel
  {
    if fuel == 0 then None
    else
      match Step(edges, start, cacheHit)
      case None => None
      case Some(End) => Some([start])
      case Some(To(n)) =>
        match Trace(edges, n, cacheHit, fuel - 1)
        case None => None
        case Some(rest) => Some([start] + rest)
  }
}
