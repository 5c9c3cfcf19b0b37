/**
 * The dictionaries that a partially decoded extraction dumps to. Each element
 * of the extraction stream is dumped into a plain mapping from keys to
 * JSON-like values; the materialisation step reads nothing else.
 */
module Snapshots {

  /** A JSON-like value as produced by dumping a (partial) graph object. */
  datatype Value =
    | Null
    | Int(i: int)
    | Str(s: string)
    | List(items: seq<Value>)
    | Dict(fields: map<string, Value>)

  /** One dumped snapshot: its top-level keys (`nodes`, `edges`, ...). */
  type Snapshot = map<string, Value>
}
