/**
 * What materialisation promises: each entry is copied field by field into its
 * node or edge, lists keep their length and order, only the colour is
 * defaulted, a missing required key is an error, and edges are never checked
 * against the nodes.
 */
module MaterialiseProperties {
  import opened Wrappers
  import opened Snapshots
  import opened Shapes
  import opened Materialisation

  /** A node entry materialises to `n` exactly when `n` copies it. */
  lemma NodeFromEntryIsCopy(e: Value, n: Node)
    ensures NodeFromEntry(e) == Ok(n) <==> NodeCopies(e, n)
  {
  }

  /** An edge entry materialises to `g` exactly when `g` copies it. */
  lemma EdgeFromEntryIsCopy(e: Value, g: Edge)
    ensures EdgeFromEntry(e) == Ok(g) <==> EdgeCopies(e, g)
  {
  }

  /** A node entry without a colour gives the node the default colour "blue". */
  lemma NodeEntryWithoutColour(id: int, text: string)
    ensures NodeFromEntry(Dict(map["id" := Int(id), "label" := Str(text)])) == Ok(Node(id, text, Some(DefaultNodeColor)))
  {
  }

  /** An edge entry without a colour gives the edge the default colour "black". */
  lemma EdgeEntryWithoutColour(source: int, target: int, text: string)
    ensures EdgeFromEntry(Dict(map["source" := Int(source), "target" := Int(target), "label" := Str(text)]))
            == Ok(Edge(source, target, text, Some(DefaultEdgeColor)))
  {
  }

  /** A stored null colour stays null: it is not replaced by the default. */
  lemma NullColourIsKept(id: int, text: string)
    ensures NodeFromEntry(Dict(map["id" := Int(id), "label" := Str(text), "color" := Null]))
            == Ok(Node(id, text, None))
  {
  }

  /** Conversely, lists whose every entry is copied by some node or edge always materialise. */
  lemma {:induction false} CopiedEntriesMaterialise(nodes: seq<Node>, edges: seq<Edge>, snapshot: Snapshot)
    requires "nodes" in snapshot && snapshot["nodes"].List? && |snapshot["nodes"].items| == |nodes|
    requires forall i | 0 <= i < |nodes| :: NodeCopies(snapshot["nodes"].items[i], nodes[i])
    requires "edges" in snapshot && snapshot["edges"].List? && |snapshot["edges"].items| == |edges|
    requires forall i | 0 <= i < |edges| :: EdgeCopies(snapshot["edges"].items[i], edges[i])
    ensures Materialise(snapshot) == Ok((nodes, edges))
  {
    var ne, ee := snapshot["nodes"].items, snapshot["edges"].items;
    forall i | 0 <= i < |nodes| ensures NodeFromEntry(ne[i]) == Ok(nodes[i]) {
      NodeFromEntryIsCopy(ne[i], nodes[i]);
    }
    forall i | 0 <= i < |edges| ensures EdgeFromEntry(ee[i]) == Ok(edges[i]) {
      EdgeFromEntryIsCopy(ee[i], edges[i]);
    }
    assert MapAll(NodeFromEntry, ne).value == nodes;
    assert MapAll(EdgeFromEntry, ee).value == edges;
  }

  /** A node entry lacking `id` or `label` makes the whole result an error, never a defaulted node. */
  lemma MissingNodeKeyFails(snapshot: Snapshot, k: nat)
    requires "nodes" in snapshot && snapshot["nodes"].List? && k < |snapshot["nodes"].items|
    requires snapshot["nodes"].items[k].Dict?
    requires "id" !in snapshot["nodes"].items[k].fields || "label" !in snapshot["nodes"].items[k].fields
    ensures Materialise(snapshot).Err?
  {
  }

  /** An edge entry lacking `source`, `target` or `label` makes the whole result an error. */
  lemma MissingEdgeKeyFails(snapshot: Snapshot, k: nat)
    requires "edges" in snapshot && snapshot["edges"].List? && k < |snapshot["edges"].items|
    requires snapshot["edges"].items[k].Dict?
    requires var f := snapshot["edges"].items[k].fields;
             "source" !in f || "target" !in f || "label" !in f
    ensures Materialise(snapshot).Err?
  {
  }

  /**
   * Edges are not checked against the nodes: dropping every node from the
   * snapshot leaves the rebuilt edge list exactly as it was.
   */
  lemma EdgesIgnoreNodes(snapshot: Snapshot)
    requires Materialise(snapshot).Ok?
    ensures Materialise(snapshot["nodes" := List([])]) == Ok(([], Materialise(snapshot).value.1))
  {
  }
}
