/** Concrete streams and the lists they yield. */
module Scenarios {
  import opened Wrappers
  import opened Snapshots
  import opened Shapes
  import opened Materialisation
  import opened MaterialiseProperties
  import opened Stream

  /** A coloured node is copied with its colour. */
  lemma ColouredNodeCopied()
    ensures Generate([Some(map["nodes" := List([Dict(map["id" := Int(1), "label" := Str("car"), "color" := Str("red")])]),
                               "edges" := List([])])])
            == Ok(([Node(1, "car", Some("red"))], []))
  {
    var snapshot := map["nodes" := List([Dict(map["id" := Int(1), "label" := Str("car"), "color" := Str("red")])]),
                        "edges" := List([])];
    LastPresentIsLast([Some(snapshot)], 0);
    CopiedEntriesMaterialise([Node(1, "car", Some("red"))], [], snapshot);
  }

  /** A node without colour is blue. */
  lemma UncolouredNodeIsBlue()
    ensures Generate([Some(map["nodes" := List([Dict(map["id" := Int(2), "label" := Str("wheel")])]),
                               "edges" := List([])])])
            == Ok(([Node(2, "wheel", Some("blue"))], []))
  {
    var snapshot := map["nodes" := List([Dict(map["id" := Int(2), "label" := Str("wheel")])]),
                        "edges" := List([])];
    LastPresentIsLast([Some(snapshot)], 0);
    CopiedEntriesMaterialise([Node(2, "wheel", Some("blue"))], [], snapshot);
  }

  /** An edge without colour is black, and its endpoints need not be nodes. */
  lemma UncolouredEdgeIsBlack()
    ensures Generate([Some(map["nodes" := List([]),
                               "edges" := List([Dict(map["source" := Int(1), "target" := Int(2), "label" := Str("part_of")])])])])
            == Ok(([], [Edge(1, 2, "part_of", Some("black"))]))
  {
    var snapshot := map["nodes" := List([]),
                        "edges" := List([Dict(map["source" := Int(1), "target" := Int(2), "label" := Str("part_of")])])];
    LastPresentIsLast([Some(snapshot)], 0);
    CopiedEntriesMaterialise([], [Edge(1, 2, "part_of", Some("black"))], snapshot);
  }

  /** An earlier, more partial snapshot is ignored in favour of the last one; `edges` may be absent. */
  lemma PartialSnapshotIgnored()
    ensures Generate([Some(map["nodes" := List([Dict(map["id" := Int(1)])])]), None,
                      Some(map["nodes" := List([Dict(map["id" := Int(1), "label" := Str("car")])])])])
            == Ok(([Node(1, "car", Some("blue"))], []))
  {
    var partial := map["nodes" := List([Dict(map["id" := Int(1)])])];
    var last := map["nodes" := List([Dict(map["id" := Int(1), "label" := Str("car")])])];
    LastPresentIsLast([Some(partial), None, Some(last)], 2);
    NodeFromEntryIsCopy(last["nodes"].items[0], Node(1, "car", Some("blue")));
    assert MapAll(NodeFromEntry, last["nodes"].items).value == [Node(1, "car", Some("blue"))];
  }

  /** The last snapshot alone decides failure: a node without a label is an error. */
  lemma MissingLabelIsError()
    ensures Generate([Some(map["nodes" := List([Dict(map["id" := Int(1), "label" := Str("car")])])]),
                      Some(map["nodes" := List([Dict(map["id" := Int(1)])])])])
            == Err(KeyMissing("label"))
  {
  }

  /** A null node list cannot be iterated. */
  lemma NullNodeListIsError()
    ensures Generate([Some(map["nodes" := Null])]) == Err(NotIterable("nodes"))
  {
  }

  /** An empty stream yields two empty lists. */
  lemma EmptyStreamIsEmptyGraph()
    ensures Generate([]) == Ok(([], []))
  {
  }
}
