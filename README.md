# Knowledge graph model and snapshot materialisation

A Dafny model of the graph core of a small tool that turns free text into a
knowledge graph (`knowledge_graph.py`). It has two parts.

- **The graph object.** `KnowledgeGraph` holds a node list, an edge list and
  a counter `nextNodeId` that starts at 1. `AddNode` stores the node with its
  id replaced by the counter, then advances the counter. `AddEdge` appends the
  edge as it is, with no check of its endpoints.
- **Extraction.** A language-model completion streams partial snapshots of a
  graph. `GenerateFromText` consumes the whole stream, keeps the last snapshot
  it produced, and rebuilds the node and edge lists from it:
  - `id` and `label` (nodes) and `source`, `target` and `label` (edges) are
    required keys;
  - `color` defaults to `"blue"` (nodes) or `"black"` (edges), but only when
    the key is absent;
  - a stream with no snapshot gives two empty lists.

Files, one module each:

- `wrappers.dfy`: `Option` and `Result`.
- `snapshots.dfy`: `Value`, a JSON-like value, and `Snapshot`, a dumped dictionary.
- `shapes.dfy`: the `Node` and `Edge` shapes and their colour defaults.
- `materialise.dfy`: rebuilding nodes and edges from one snapshot, with the error cases.
- `materialise_properties.dfy`: what that rebuilding promises.
- `dump.dfy`: the dictionaries a complete graph dumps to, and the round trip through them.
- `stream.dfy`: the last-snapshot fold as a specification (`LastPresent`, `Generate`) and its lemmas.
- `knowledge_graph.dfy`: the `KnowledgeGraph` class.
- `scenarios.dfy`: concrete streams and their results.

Modelling choices:

- The field `label` of a node or edge is called `text` in Dafny, because `label` is a keyword there.
  The dictionary key is still `"label"`.
- The shapes' own colour defaults ("blue", "black") are the constants `DefaultNodeColor` and `DefaultEdgeColor`.
  The code never builds a node or edge without passing a colour; it supplies the same default through `.get`.
- Nodes and edges are values (datatypes). The graph is a class whose list fields its methods reassign.
- A colour is `Option<string>`. `None` is a stored null, which a present `color: None` entry produces.
- Errors follow the order in which the code raises them:
  - all nodes are built before any edge;
  - within an entry, the required keys are looked up (in order) before any value is validated;
  - `KeyMissing` is the `KeyError` of a required lookup;
  - `NotADict` is the `TypeError` of subscripting an entry that is not a dictionary;
  - `NotIterable` is the `TypeError` of iterating a null or integer `nodes`/`edges` value;
  - `Invalid` is a field value of the wrong type (id/source/target not an integer, label not a string,
    colour neither null nor a string).
- Iterating a non-empty string or dictionary under `nodes`/`edges` yields strings, and subscripting the
  first of them fails. The model gives `NotADict` directly; an empty string or dictionary gives no entries.
- Where the code and its documented intent differ, the model follows the code:
  - a `color` key holding null is kept as null, not replaced by the default (`.get` only defaults an
    absent key);
  - a `nodes` or `edges` key holding null is an error, not an empty list.
- Node ids on the two construction paths differ, as in the code:
  - nodes added one at a time are numbered 1, 2, 3, ... (`NumberedFromOne` is preserved);
  - lists rebuilt from a snapshot keep the snapshot's ids, unchecked for uniqueness, and the graph built
    from them keeps its counter at 1.

## Model

| member | source | states |
|---|---|---|
| KnowledgeGraphModel.KnowledgeGraph.constructor | knowledge_graph.py:19-22 | the lists are taken as given and the counter starts at 1 whatever they hold; a graph with no nodes is numbered from one |
| KnowledgeGraphModel.KnowledgeGraph.AddNode | knowledge_graph.py:24-27 | the node is appended with its id replaced by the old counter, whatever id it carried; the counter goes up by one; edges are unchanged; the graph stays numbered 1..n (and was, if it is afterwards) and the counter stays one more than the number of calls |
| KnowledgeGraphModel.KnowledgeGraph.AddEdge | knowledge_graph.py:29-30 | the edge is appended verbatim, endpoints unchecked; nodes, counter and call count are unchanged, so the counter invariant and the 1..n numbering hold afterwards exactly when they held before |
| KnowledgeGraphModel.KnowledgeGraph.GenerateFromText | knowledge_graph.py:48-76 | the loop over the stream keeps the last present snapshot, and the result equals the specification `Generate`: two empty lists when there was none, otherwise that snapshot's materialisation or its error |
| KnowledgeGraphModel.ThreeNodesNumberedInOrder | knowledge_graph.py:22-27 | three nodes added to a fresh graph get ids 1, 2, 3 in call order and the counter ends at 4 |
| Materialisation.NodeFromEntry | knowledge_graph.py:57-61 | a non-dictionary entry, a missing `id` and then a missing `label` are errors; on success the id and label are the entry's, and the colour is the stored one if the key is present, else "blue" |
| Materialisation.EdgeFromEntry | knowledge_graph.py:65-70 | a non-dictionary entry, a missing `source`, `target` or `label` (in that order) are errors; on success those fields are the entry's, and the colour is the stored one if present, else "black" |
| Materialisation.MapAll | knowledge_graph.py:56-63 | a comprehension succeeds exactly when every entry does, giving one result per entry in order; otherwise it fails with the error of the first failing entry |
| Materialisation.EntriesUnder | knowledge_graph.py:62 | an absent `nodes`/`edges` key gives no entries, a list gives its items, null or an integer cannot be iterated, an empty string or dictionary gives no entries and a non-empty one fails on its first (string) element |
| Materialisation.NodesOf | knowledge_graph.py:56-63 | on success the nodes copy the `nodes` list entry by entry, in order (none when it is absent or iterates to nothing); with a list it succeeds exactly when every entry does; null or an integer cannot be iterated |
| Materialisation.EdgesOf | knowledge_graph.py:64-72 | on success the edges copy the `edges` list entry by entry, in order (none when it is absent or iterates to nothing); with a list it succeeds exactly when every entry does; null or an integer cannot be iterated |
| Materialisation.Materialise | knowledge_graph.py:54-74 | on success both lists copy the snapshot's entries, in order, with only the colour defaulted; it succeeds exactly when both comprehensions do, and a node failure is reported before any edge is looked at |
| MaterialiseProperties.NodeFromEntryIsCopy | knowledge_graph.py:57-61 | a node entry materialises to a node exactly when that node copies the entry's id, label and colour (colour defaulted only when absent) |
| MaterialiseProperties.EdgeFromEntryIsCopy | knowledge_graph.py:65-70 | an edge entry materialises to an edge exactly when that edge copies the entry's source, target, label and colour |
| MaterialiseProperties.NodeEntryWithoutColour | knowledge_graph.py:60 | an entry without `color` gives the node with the default colour "blue" |
| MaterialiseProperties.EdgeEntryWithoutColour | knowledge_graph.py:69 | an entry without `color` gives the edge with the default colour "black" |
| MaterialiseProperties.NullColourIsKept | knowledge_graph.py:60 | a `color` key holding null stays null; it is not defaulted |
| MaterialiseProperties.CopiedEntriesMaterialise | knowledge_graph.py:55-73 | conversely, lists whose entries are copied by given nodes and edges materialise to exactly those nodes and edges |
| Dumps.DumpNode | knowledge_graph.py:6-9 | a node dumps to a dictionary with exactly the keys `id`, `label`, `color`, which the node copies and which materialises back to it |
| Dumps.DumpEdge | knowledge_graph.py:12-16 | an edge dumps to a dictionary with exactly the keys `source`, `target`, `label`, `color`, which the edge copies and which materialises back to it |
| Dumps.DumpGraph | knowledge_graph.py:19-22 | a graph dumps to a dictionary with keys `nodes`, `edges`, `next_node_id`, whose lists hold the graph's nodes and edges entry by entry in order, and whose counter is the graph's |
| KnowledgeGraphModel.KnowledgeGraph.Dump | knowledge_graph.py:50 | the dump of the graph's current state materialises back to its node and edge lists |
| Dumps.DumpRoundTrip | knowledge_graph.py:50-73 | dumping a graph and materialising the dump gives back its node and edge lists (its counter is not carried over) |
| MaterialiseProperties.MissingNodeKeyFails | knowledge_graph.py:58-59 | a node entry without `id` or `label` makes the whole result an error, never a defaulted node |
| MaterialiseProperties.MissingEdgeKeyFails | knowledge_graph.py:66-68 | an edge entry without `source`, `target` or `label` makes the whole result an error |
| MaterialiseProperties.EdgesIgnoreNodes | knowledge_graph.py:64-72 | removing every node leaves the rebuilt edges unchanged: endpoints are never checked against nodes |
| Stream.Generate | knowledge_graph.py:48-76 | a stream with no snapshot gives two empty lists; otherwise the result is what the snapshot followed only by empty elements materialises to |
| Stream.LastPresent | knowledge_graph.py:48-52 | there is no last snapshot exactly when every element is empty; otherwise it is one of the stream's elements |
| Stream.LastPresentIsLast | knowledge_graph.py:48-52 | a snapshot followed only by empty elements is the one kept |
| Stream.LastPresentHasPosition | knowledge_graph.py:48-52 | the snapshot kept sits at a position followed only by empty elements |
| Stream.LastPresentAppend | knowledge_graph.py:48-52 | on a concatenated stream the snapshot kept is the second part's if it has one, else the first part's |
| Stream.OnlyLastSnapshotMatters | knowledge_graph.py:48-76 | snapshots streamed before a stream that produces one never change the result |
| Stream.FinalSnapshotDecides | knowledge_graph.py:48-76 | a final snapshot, whatever precedes it and however many empty elements follow, alone decides the result |
| Stream.NoSnapshotYieldsEmptyGraph | knowledge_graph.py:75-76 | a stream with no snapshot, empty included, yields two empty lists |
| Scenarios.ColouredNodeCopied | knowledge_graph.py:56-63 | a node entry with colour "red" is copied with it |
| Scenarios.UncolouredNodeIsBlue | knowledge_graph.py:60 | a node entry without colour comes out blue |
| Scenarios.UncolouredEdgeIsBlack | knowledge_graph.py:64-72 | an edge entry without colour comes out black, with endpoints that are not nodes |
| Scenarios.PartialSnapshotIgnored | knowledge_graph.py:48-63 | an earlier partial snapshot with a label-less node is ignored in favour of the last one |
| Scenarios.MissingLabelIsError | knowledge_graph.py:48-59 | a last snapshot with a label-less node fails with a missing `label`, whatever came before |
| Scenarios.NullNodeListIsError | knowledge_graph.py:62 | a null `nodes` value cannot be iterated |
| Scenarios.EmptyStreamIsEmptyGraph | knowledge_graph.py:75-76 | an empty stream yields two empty lists |

## Left out

- KnowledgeGraphModel.KnowledgeGraph.AddNode: the caller's node is not modified. The code overwrites the id on the caller's own object, which stays shared with the stored one. Nodes are values here, so later changes through that shared object, and the collision when the same object is added twice, are not modelled.
- KnowledgeGraphModel.KnowledgeGraph.GenerateFromText: it takes the stream of snapshots, not the text. The completion request (model name, prompt, temperature, streaming flag) is network I/O through a foreign client and is not modelled.
- Failures raised by the stream itself (network or API errors) are not modelled; the stream is a finite sequence.
- Dumping each partial extraction is done by the validation library. The stream's elements are taken as already-dumped dictionaries. `Dumps.DumpGraph` models only the dump of a complete graph.
- Type coercion by the validation library is not modelled (for instance a numeric string accepted as an `int`). The model accepts only an integer for an `int` field and only a string for a `str` field.
- The validation error lists every bad field; `Invalid` names only the first, in the order id, label, colour (source, target, label, colour for edges).
- Floating-point and boolean values in a snapshot are not modelled: `Value` has no such case.
- The order of a dictionary's keys is not modelled. When a non-empty dictionary is iterated, every key fails the same way, so the result does not depend on it.
- The interactive page in app.py is not part of this model: layout, session state, colour themes, client construction, rendering and PNG export.
- Re-rendering on every snapshot is not modelled: the code only ever renders the final lists.
