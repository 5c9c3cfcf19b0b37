/**
 * The node and edge shapes of the knowledge graph and their colour defaults.
 */
module Shapes {
  import opened Wrappers
  import opened Snapshots

  /** Colour a node gets when its entry carries no `color` key. */
  const DefaultNodeColor: string := "blue"
  /** Colour an edge gets when its entry carries no `color` key. */
  const DefaultEdgeColor: string := "black"

  /** A node: an integer id, a label (`text`; `label` is a Dafny keyword) and an optional colour (`None` is a stored null). */
  datatype Node = Node(id: int, text: string, color: Option<string>)

  /** A labelled edge between two node ids; the ids are not checked against any node. */
  datatype Edge = Edge(source: int, target: int, text: string, color: Option<string>)

  /** How a colour is written in a dictionary: null for `None`, otherwise the string. */
  function DumpColor(color: Option<string>): (v: Value)
  {
    match color
    case None => Null
    case Some(c) => Str(c)
  }
}
