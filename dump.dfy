/**
 * The dictionaries a complete graph dumps to, which are what the extraction
 * stream's snapshots look like once the graph is complete.
 */
module Dumps {
  import opened Wrappers
  import opened Snapshots
  import opened Shapes
  import opened Materialisation
  import opened MaterialiseProperties

  /** The dictionary a node dumps to: every field written out, colour included. */
  function DumpNode(n: Node): (v: Value)
    ensures v.Dict? && v.fields.Keys == {"id", "label", "color"}
    ensures NodeCopies(v, n)
    ensures NodeFromEntry(v) == Ok(n)
  {
    Dict(map["id" := Int(n.id), "label" := Str(n.text), "color" := DumpColor(n.color)])
  }

  /** The dictionary an edge dumps to: every field written out, colour included. */
  function DumpEdge(g: Edge): (v: Value)
    ensures v.Dict? && v.fields.Keys == {"source", "target", "label", "color"}
    ensures EdgeCopies(v, g)
    ensures EdgeFromEntry(v) == Ok(g)
  {
    Dict(map["source" := Int(g.source), "target" := Int(g.target),
             "label" := Str(g.text), "color" := DumpColor(g.color)])
  }

  /**
   * The dictionary a whole graph dumps to: its node and edge lists, entry by
   * entry in order, and its counter.
   */
  function DumpGraph(nodes: seq<Node>, edges: seq<Edge>, nextNodeId: int): (s: Snapshot)
    ensures s.Keys == {"nodes", "edges", "next_node_id"}
    ensures s["nodes"].List? && NodesCopy(s, nodes)
    ensures s["edges"].List? && EdgesCopy(s, edges)
    ensures s["next_node_id"] == Int(nextNodeId)
  {
    map["nodes" := List(seq(|nodes|, i requires 0 <= i < |nodes| => DumpNode(nodes[i]))),
        "edges" := List(seq(|edges|, i requires 0 <= i < |edges| => DumpEdge(edges[i]))),
        "next_node_id" := Int(nextNodeId)]
  }

  /** Dumping a graph and materialising the dump gives back its node and edge lists; the counter is dropped. */
  lemma {:induction false} DumpRoundTrip(nodes: seq<Node>, edges: seq<Edge>, nextNodeId: int)
    ensures Materialise(DumpGraph(nodes, edges, nextNodeId)) == Ok((nodes, edges))
  {
    CopiedEntriesMaterialise(nodes, edges, DumpGraph(nodes, edges, nextNodeId));
  }
}
