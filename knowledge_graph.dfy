/**
 * The knowledge graph object: node and edge lists that grow in place, a
 * counter that numbers nodes added one at a time, and the extraction that
 * rebuilds the lists in bulk from the last snapshot of a stream.
 */
module KnowledgeGraphModel {
  import opened Wrappers
  import opened Snapshots
  import opened Shapes
  import opened Materialisation
  import opened Stream
  import opened Dumps

  class KnowledgeGraph {
    var nodes: seq<Node>
    var edges: seq<Edge>
    /** The id the next `AddNode` hands out. */
    var nextNodeId: int
    /** How many times `AddNode` has run on this graph. */
    ghost var addNodeCalls: nat

    /** The counter is one more than the number of `AddNode` calls. */
    ghost predicate Valid()
      reads this
    {
      nextNodeId == 1 + addNodeCalls
    }

    /** Node ids run 1, 2, 3, ... in list order and the counter is the next one. */
    predicate NumberedFromOne()
      reads this
    {
      nextNodeId == |nodes| + 1 && forall i | 0 <= i < |nodes| :: nodes[i].id == i + 1
    }

    /** The dictionary this graph dumps to. */
    function Dump(): (s: Snapshot)
      reads this
      ensures Materialise(s) == Ok((nodes, edges))
    {
      DumpRoundTrip(nodes, edges, nextNodeId);
      DumpGraph(nodes, edges, nextNodeId)
    }

    /**
     * A graph holding the given lists, taken as they are; the counter starts
     * at 1 whatever the lists hold. With two empty lists this is a fresh graph.
     */
    constructor (nodes: seq<Node>, edges: seq<Edge>)
      ensures this.nodes == nodes && this.edges == edges
      ensures nextNodeId == 1 && addNodeCalls == 0 && Valid()
      ensures nodes == [] ==> NumberedFromOne()
    {
      this.nodes := nodes;
      this.edges := edges;
      nextNodeId := 1;
      addNodeCalls := 0;
    }

    /**
     * Stores `node` with its id replaced by the counter, whatever id it
     * carried, and advances the counter; the edges are untouched.
     */
    method AddNode(node: Node)
      modifies this
      ensures nodes == old(nodes) + [node.(id := old(nextNodeId))]
      ensures nodes[|nodes| - 1].id == old(nextNodeId)
      ensures nextNodeId == old(nextNodeId) + 1
      ensures edges == old(edges)
      ensures addNodeCalls == old(addNodeCalls) + 1
      ensures Valid() <==> old(Valid())
      ensures NumberedFromOne() <==> old(NumberedFromOne())
    {
      nodes := nodes + [node.(id := nextNodeId)];
      nextNodeId := nextNodeId + 1;
      addNodeCalls := addNodeCalls + 1;
      assert forall i | 0 <= i < |old(nodes)| :: nodes[i] == old(nodes)[i];
    }

    /** Appends `edge` as it is: its endpoints are not checked against the nodes. */
    method AddEdge(edge: Edge)
      modifies this
      ensures edges == old(edges) + [edge]
      ensures nodes == old(nodes) && nextNodeId == old(nextNodeId)
      ensures addNodeCalls == old(addNodeCalls)
      ensures Valid() <==> old(Valid())
      ensures NumberedFromOne() <==> old(NumberedFromOne())
    {
      edges := edges + [edge];
    }

    /**
     * Consumes the whole stream keeping the last snapshot it produced, and
     * rebuilds the node and edge lists from it through a new graph (whose
     * counter stays at 1); no snapshot gives two empty lists.
     */
    method GenerateFromText(stream: seq<Option<Snapshot>>)
      returns (r: Result<(seq<Node>, seq<Edge>), Error>)
      ensures r == Generate(stream)
    {
      var latest: Option<Snapshot> := None;
      for i := 0 to |stream|
        invariant latest == LastPresent(stream[..i])
      {
        if stream[i].Some? {
          latest := stream[i];
        }
        assert stream[..i + 1][..i] == stream[..i];
      }
      assert stream[..|stream|] == stream;
      match latest {
        case None =>
          r := Ok(([], []));
        case Some(snapshot) =>
          match Materialise(snapshot) {
            case Err(e) =>
              r := Err(e);
            case Ok((nodes, edges)) =>
              var graph := new KnowledgeGraph(nodes, edges);
              r := Ok((graph.nodes, graph.edges));
          }
      }
    }
  }

  /** Three nodes added to a fresh graph get ids 1, 2, 3 in call order, whatever ids they carried. */
  method ThreeNodesNumberedInOrder(a: Node, b: Node, c: Node) returns (graph: KnowledgeGraph)
    ensures graph.nodes == [a.(id := 1), b.(id := 2), c.(id := 3)]
    ensures graph.nextNodeId == 4 && graph.edges == []
  {
    graph := new KnowledgeGraph([], []);
    graph.AddNode(a);
    graph.AddNode(b);
    graph.AddNode(c);
  }
}
