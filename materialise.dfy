/**
 * Rebuilding the node and edge lists from one dumped snapshot: every entry of
 * `nodes` becomes a node and every entry of `edges` an edge, with the required
 * keys looked up strictly and the colour looked up with a default.
 */
module Materialisation {
  import opened Wrappers
  import opened Snapshots
  import opened Shapes

  /** Why materialisation fails; each case is an exception the Python code raises. */
  datatype Error =
    | KeyMissing(key: string)     // a required key is absent from an entry (KeyError)
    | NotADict                    // an entry cannot be subscripted by a key (TypeError)
    | NotIterable(key: string)    // the value under `nodes`/`edges` cannot be iterated (TypeError)
    | Invalid(field: string)      // a field value of the wrong type (validation error)

  /** `d.get(key, default)` */
  function GetOr(d: map<string, Value>, key: string, default: Value): (v: Value)
  {
    if key in d then d[key] else default
  }

  /** Validation of an `Optional[str]` field: null or a string. */
  predicate IsOptionalStr(v: Value)
  {
    v.Null? || v.Str?
  }

  function AsOptionalStr(v: Value): (c: Option<string>)
    requires IsOptionalStr(v)
  {
    if v.Str? then Some(v.s) else None
  }

  /** Colour rule: a present `color` value is kept as is (null included), an absent one defaults. */
  predicate ColourCopied(fields: map<string, Value>, color: Option<string>, default: string)
  {
    if "color" in fields then fields["color"] == DumpColor(color) else color == Some(default)
  }

  /** Declarative reading of a node entry: `n` is exactly what the entry says. */
  predicate NodeCopies(e: Value, n: Node)
  {
    && e.Dict?
    && "id" in e.fields && e.fields["id"] == Int(n.id)
    && "label" in e.fields && e.fields["label"] == Str(n.text)
    && ColourCopied(e.fields, n.color, DefaultNodeColor)
  }

  /** Declarative reading of an edge entry. */
  predicate EdgeCopies(e: Value, g: Edge)
  {
    && e.Dict?
    && "source" in e.fields && e.fields["source"] == Int(g.source)
    && "target" in e.fields && e.fields["target"] == Int(g.target)
    && "label" in e.fields && e.fields["label"] == Str(g.text)
    && ColourCopied(e.fields, g.color, DefaultEdgeColor)
  }

  /**
   * `nodes` copies the snapshot's node list: one node per entry, in order,
   * when `nodes` holds a list, and no node otherwise (an absent key, or an
   * empty string or dictionary, which iterate to nothing).
   */
  predicate NodesCopy(snapshot: Snapshot, nodes: seq<Node>)
  {
    if "nodes" in snapshot && snapshot["nodes"].List? then
      var entries := snapshot["nodes"].items;
      |nodes| == |entries| && forall i | 0 <= i < |entries| :: NodeCopies(entries[i], nodes[i])
    else
      nodes == []
  }

  /** `edges` copies the snapshot's edge list, as `NodesCopy` does for nodes. */
  predicate EdgesCopy(snapshot: Snapshot, edges: seq<Edge>)
  {
    if "edges" in snapshot && snapshot["edges"].List? then
      var entries := snapshot["edges"].items;
      |edges| == |entries| && forall i | 0 <= i < |entries| :: EdgeCopies(entries[i], edges[i])
    else
      edges == []
  }

  /**
   * One node entry: `id` and `label` are looked up strictly (in that order),
   * `color` with the default "blue"; then the three values are validated.
   */
  function NodeFromEntry(e: Value): (r: Result<Node, Error>)
    ensures !e.Dict? ==> r == Err(NotADict)
    ensures e.Dict? && "id" !in e.fields ==> r == Err(KeyMissing("id"))
    ensures e.Dict? && "id" in e.fields && "label" !in e.fields ==> r == Err(KeyMissing("label"))
    ensures r.Ok? ==> e.Dict? && "id" in e.fields && "label" in e.fields
    ensures r.Ok? ==> e.fields["id"] == Int(r.value.id) && e.fields["label"] == Str(r.value.text)
    ensures r.Ok? && "color" in e.fields ==> e.fields["color"] == DumpColor(r.value.color)
    ensures r.Ok? && "color" !in e.fields ==> r.value.color == Some(DefaultNodeColor)
  {
    match e
    case Dict(d) =>
      if "id" !in d then Err(KeyMissing("id"))
      else if "label" !in d then Err(KeyMissing("label"))
      else
        var color := GetOr(d, "color", Str(DefaultNodeColor));
        if !d["id"].Int? then Err(Invalid("id"))
        else if !d["label"].Str? then Err(Invalid("label"))
        else if !IsOptionalStr(color) then Err(Invalid("color"))
        else Ok(Node(d["id"].i, d["label"].s, AsOptionalStr(color)))
    case _ => Err(NotADict)
  }

  /**
   * One edge entry: `source`, `target` and `label` are looked up strictly (in
   * that order), `color` with the default "black"; then the values are validated.
   */
  function EdgeFromEntry(e: Value): (r: Result<Edge, Error>)
    ensures !e.Dict? ==> r == Err(NotADict)
    ensures e.Dict? && "source" !in e.fields ==> r == Err(KeyMissing("source"))
    ensures e.Dict? && "source" in e.fields && "target" !in e.fields ==> r == Err(KeyMissing("target"))
    ensures e.Dict? && "source" in e.fields && "target" in e.fields && "label" !in e.fields ==>
              r == Err(KeyMissing("label"))
    ensures r.Ok? ==> e.Dict? && "source" in e.fields && "target" in e.fields && "label" in e.fields
    ensures r.Ok? ==> e.fields["source"] == Int(r.value.source) && e.fields["target"] == Int(r.value.target)
                      && e.fields["label"] == Str(r.value.text)
    ensures r.Ok? && "color" in e.fields ==> e.fields["color"] == DumpColor(r.value.color)
    ensures r.Ok? && "color" !in e.fields ==> r.value.color == Some(DefaultEdgeColor)
  {
    match e
    case Dict(d) =>
      if "source" !in d then Err(KeyMissing("source"))
      else if "target" !in d then Err(KeyMissing("target"))
      else if "label" !in d then Err(KeyMissing("label"))
      else
        var color := GetOr(d, "color", Str(DefaultEdgeColor));
        if !d["source"].Int? then Err(Invalid("source"))
        else if !d["target"].Int? then Err(Invalid("target"))
        else if !d["label"].Str? then Err(Invalid("label"))
        else if !IsOptionalStr(color) then Err(Invalid("color"))
        else Ok(Edge(d["source"].i, d["target"].i, d["label"].s, AsOptionalStr(color)))
    case _ => Err(NotADict)
  }

  /**
   * A list comprehension over entries that stops at the first failing entry:
   * on success one result per entry, in order; otherwise the first failure.
   */
  function MapAll<T>(f: Value -> Result<T, Error>, entries: seq<Value>): (r: Result<seq<T>, Error>)
    ensures r.Ok? <==> forall i | 0 <= i < |entries| :: f(entries[i]).Ok?
    ensures r.Ok? ==> |r.value| == |entries|
    ensures r.Ok? ==> forall i | 0 <= i < |entries| :: f(entries[i]) == Ok(r.value[i])
    ensures r.Err? ==> exists k | 0 <= k < |entries| ::
                         f(entries[k]) == Err(r.error) && forall j | 0 <= j < k :: f(entries[j]).Ok?
  {
    if |entries| == 0 then Ok([])
    else
      match f(entries[0])
      case Err(e) => Err(e)
      case Ok(x) =>
        match MapAll(f, entries[1..])
        case Err(e) =>
          assert exists k | 0 <= k < |entries[1..]| ::
                   f(entries[1..][k]) == Err(e) && forall j | 0 <= j < k :: f(entries[1..][j]).Ok?;
          var k :| 0 <= k < |entries[1..]| && f(entries[1..][k]) == Err(e)
                   && forall j | 0 <= j < k :: f(entries[1..][j]).Ok?;
          assert f(entries[k + 1]) == Err(e);
          assert forall j | 0 <= j < k + 1 :: f(entries[j]).Ok? by {
            forall j | 0 <= j < k + 1 ensures f(entries[j]).Ok? {
              if j > 0 { assert entries[j] == entries[1..][j - 1]; }
            }
          }
          Err(e)
        case Ok(xs) =>
          assert forall i | 1 <= i < |entries| :: entries[i] == entries[1..][i - 1];
          Ok([x] + xs)
  }

  /**
   * `snapshot.get(key, [])` followed by iteration: an absent key gives no
   * entries, a list gives its items. Iterating a string or a dictionary yields
   * strings, which cannot be subscripted by a key, so a non-empty one fails on
   * its first element; null and integers cannot be iterated at all.
   */
  function EntriesUnder(snapshot: Snapshot, key: string): (r: Result<seq<Value>, Error>)
    ensures key !in snapshot ==> r == Ok([])
    ensures key in snapshot && snapshot[key].List? ==> r == Ok(snapshot[key].items)
    ensures key in snapshot && (snapshot[key].Null? || snapshot[key].Int?) ==> r == Err(NotIterable(key))
    ensures key in snapshot && snapshot[key].Str? ==>
              r == if snapshot[key].s == "" then Ok([]) else Err(NotADict)
    ensures key in snapshot && snapshot[key].Dict? ==>
              r == if snapshot[key].fields == map[] then Ok([]) else Err(NotADict)
  {
    if key !in snapshot then Ok([])
    else
      match snapshot[key]
      case List(items) => Ok(items)
      case Str(s) => if s == "" then Ok([]) else Err(NotADict)
      case Dict(d) => if d == map[] then Ok([]) else Err(NotADict)
      case _ => Err(NotIterable(key))
  }

  /** The comprehension over `snapshot.get("nodes", [])`. */
  function NodesOf(snapshot: Snapshot): (r: Result<seq<Node>, Error>)
    ensures r.Ok? ==> NodesCopy(snapshot, r.value)
    ensures "nodes" in snapshot && snapshot["nodes"].List? ==>
              (r.Ok? <==> forall i | 0 <= i < |snapshot["nodes"].items| :: NodeFromEntry(snapshot["nodes"].items[i]).Ok?)
    ensures "nodes" in snapshot && (snapshot["nodes"].Null? || snapshot["nodes"].Int?) ==> r == Err(NotIterable("nodes"))
  {
    match EntriesUnder(snapshot, "nodes")
    case Err(e) => Err(e)
    case Ok(entries) => MapAll(NodeFromEntry, entries)
  }

  /** The comprehension over `snapshot.get("edges", [])`. */
  function EdgesOf(snapshot: Snapshot): (r: Result<seq<Edge>, Error>)
    ensures r.Ok? ==> EdgesCopy(snapshot, r.value)
    ensures "edges" in snapshot && snapshot["edges"].List? ==>
              (r.Ok? <==> forall i | 0 <= i < |snapshot["edges"].items| :: EdgeFromEntry(snapshot["edges"].items[i]).Ok?)
    ensures "edges" in snapshot && (snapshot["edges"].Null? || snapshot["edges"].Int?) ==> r == Err(NotIterable("edges"))
  {
    match EntriesUnder(snapshot, "edges")
    case Err(e) => Err(e)
    case Ok(entries) => MapAll(EdgeFromEntry, entries)
  }

  /**
   * The node and edge lists rebuilt from a snapshot: on success each list
   * copies its entries, in order; nodes are built, and fail, before edges.
   */
  function Materialise(snapshot: Snapshot): (r: Result<(seq<Node>, seq<Edge>), Error>)
    ensures r.Ok? ==> NodesCopy(snapshot, r.value.0) && EdgesCopy(snapshot, r.value.1)
    ensures r.Ok? <==> NodesOf(snapshot).Ok? && EdgesOf(snapshot).Ok?
    ensures NodesOf(snapshot).Err? ==> r == Err(NodesOf(snapshot).error)
  {
    match NodesOf(snapshot)
    case Err(e) => Err(e)
    case Ok(nodes) =>
      match EdgesOf(snapshot)
      case Err(e) => Err(e)
      case Ok(edges) => Ok((nodes, edges))
  }
}
