/**
 * Folding the extraction stream: each element is either a dumped snapshot or
 * nothing, and only the last snapshot the stream produced is materialised.
 */
module Stream {
  import opened Wrappers
  import opened Snapshots
  import opened Shapes
  import opened Materialisation

  /** The last snapshot of the stream, or `None` when it produced none. */
  function LastPresent(stream: seq<Option<Snapshot>>): (r: Option<Snapshot>)
    ensures r.None? <==> forall i | 0 <= i < |stream| :: stream[i].None?
    ensures r.Some? ==> r in stream
  {
    if |stream| == 0 then None
    else if stream[|stream| - 1].Some? then stream[|stream| - 1]
    else
      var r := LastPresent(stream[..|stream| - 1]);
      assert forall i | 0 <= i < |stream| - 1 :: stream[..|stream| - 1][i] == stream[i];
      r
  }

  /** No element after position `k` holds a snapshot. */
  predicate NoneAfter(stream: seq<Option<Snapshot>>, k: nat)
  {
    forall j | k < j < |stream| :: stream[j].None?
  }

  /**
   * The node and edge lists the whole stream yields: empty when it produced
   * no snapshot, otherwise what the snapshot followed only by empty elements
   * materialises to.
   */
  function Generate(stream: seq<Option<Snapshot>>): (r: Result<(seq<Node>, seq<Edge>), Error>)
    ensures (forall i | 0 <= i < |stream| :: stream[i].None?) ==> r == Ok(([], []))
    ensures forall k | 0 <= k < |stream| && stream[k].Some? && NoneAfter(stream, k) ::
              r == Materialise(stream[k].value)
  {
    assert forall k | 0 <= k < |stream| && stream[k].Some? && NoneAfter(stream, k) ::
             LastPresent(stream) == stream[k] by {
      forall k | 0 <= k < |stream| && stream[k].Some? && NoneAfter(stream, k)
        ensures LastPresent(stream) == stream[k]
      {
        LastPresentIsLast(stream, k);
      }
    }
    match LastPresent(stream)
    case None => Ok(([], []))
    case Some(snapshot) => Materialise(snapshot)
  }

  /** A snapshot followed only by empty elements is the one `LastPresent` picks. */
  lemma {:induction false} LastPresentIsLast(stream: seq<Option<Snapshot>>, k: nat)
    requires k < |stream| && stream[k].Some?
    requires forall j | k < j < |stream| :: stream[j].None?
    ensures LastPresent(stream) == stream[k]
  {
    var n := |stream|;
    if k < n - 1 {
      var front := stream[..n - 1];
      assert front[k] == stream[k];
      assert forall j | k < j < n - 1 :: front[j] == stream[j];
      LastPresentIsLast(front, k);
    }
  }

  /** Conversely, the snapshot `LastPresent` picks sits at a position followed only by empty elements. */
  lemma {:induction false} LastPresentHasPosition(stream: seq<Option<Snapshot>>)
    requires LastPresent(stream).Some?
    ensures exists k | 0 <= k < |stream| ::
              stream[k] == LastPresent(stream) && forall j | k < j < |stream| :: stream[j].None?
  {
    var n := |stream|;
    if stream[n - 1].Some? {
      assert stream[n - 1] == LastPresent(stream);
    } else {
      var front := stream[..n - 1];
      LastPresentHasPosition(front);
      var k :| 0 <= k < |front| && front[k] == LastPresent(front) && forall j | k < j < |front| :: front[j].None?;
      assert stream[k] == LastPresent(stream);
      assert forall j | k < j < n :: stream[j].None? by {
        forall j | k < j < n ensures stream[j].None? {
          if j < n - 1 { assert front[j] == stream[j]; }
        }
      }
    }
  }

  /**
   * Appending a stream `rest` to `front`: the last snapshot is that of `rest`
   * when `rest` produced one, otherwise that of `front`.
   */
  lemma {:induction false} LastPresentAppend(front: seq<Option<Snapshot>>, rest: seq<Option<Snapshot>>)
    ensures LastPresent(front + rest)
            == if LastPresent(rest).Some? then LastPresent(rest) else LastPresent(front)
  {
    if |rest| == 0 {
      assert front + rest == front;
    } else {
      var whole := front + rest;
      assert whole[|whole| - 1] == rest[|rest| - 1];
      if rest[|rest| - 1].None? {
        assert whole[..|whole| - 1] == front + rest[..|rest| - 1];
        LastPresentAppend(front, rest[..|rest| - 1]);
      }
    }
  }

  /**
   * Only the last snapshot matters: any snapshots streamed before a stream
   * that itself produces one leave the result unchanged.
   */
  lemma OnlyLastSnapshotMatters(earlier: seq<Option<Snapshot>>, rest: seq<Option<Snapshot>>)
    requires exists i | 0 <= i < |rest| :: rest[i].Some?
    ensures Generate(earlier + rest) == Generate(rest)
  {
    LastPresentAppend(earlier, rest);
  }

  /** A final snapshot decides alone, whatever was streamed before it and however many empty elements follow. */
  lemma FinalSnapshotDecides(earlier: seq<Option<Snapshot>>, last: Snapshot, trailing: nat)
    ensures Generate(earlier + [Some(last)] + seq(trailing, _ => None)) == Materialise(last)
  {
    var tail := seq(trailing, _ => None);
    assert earlier + [Some(last)] + tail == earlier + ([Some(last)] + tail);
    LastPresentIsLast([Some(last)] + tail, 0);
    OnlyLastSnapshotMatters(earlier, [Some(last)] + tail);
  }

  /** A stream that produced no snapshot, in particular an empty one, yields two empty lists. */
  lemma NoSnapshotYieldsEmptyGraph(stream: seq<Option<Snapshot>>)
    requires forall i | 0 <= i < |stream| :: stream[i].None?
    ensures Generate(stream) == Ok(([], []))
  {
  }
}
