/** Rows of the query interpreter and the lazy streams the resolvers return.
    A resolver maps each row to an outcome; a panic while a row is pulled
    aborts the stream there, so a drained stream is the outcomes before the
    first panicking row together with that panic. */
module Rows {
  import opened Wrappers
  import opened Vertices

  /** An interpreter row: opaque apart from its optional active vertex. */
  datatype Context = Context(activeVertex: Option<Vertex>, token: nat)

  /** What draining a resolver's output yields: the items produced, then
      `halt` if production stopped at a panic. */
  datatype Stream<+T> = Stream(items: seq<T>, halt: Option<Panic>)

  /** `contexts.map(step)`, drained. */
  function MapRows<T>(rows: seq<Context>, step: Context -> Fallible<T>): (r: Stream<T>)
    ensures |r.items| <= |rows|
    ensures forall i :: 0 <= i < |r.items| ==> step(rows[i]) == Ok(r.items[i])
    ensures r.halt.None? ==> |r.items| == |rows|
    ensures r.halt.Some? ==> |r.items| < |rows| && step(rows[|r.items|]) == Panicked(r.halt.value)
    decreases |rows|
  {
    if rows == [] then Stream([], None)
    else
      match step(rows[0])
      case Panicked(p) => Stream([], Some(p))
      case Ok(x) =>
        var rest := MapRows(rows[1..], step);
        Stream([x] + rest.items, rest.halt)
  }

  /** A stream that stops only at the end of its input. */
  predicate NoPanic<T>(rows: seq<Context>, step: Context -> Fallible<T>)
  {
    forall i :: 0 <= i < |rows| ==> step(rows[i]).Ok?
  }

  /** The stream is complete exactly when no row panics; it is then the
      row-by-row image of the input, in order. */
  lemma MapRowsComplete<T>(rows: seq<Context>, step: Context -> Fallible<T>)
    ensures MapRows(rows, step).halt.None? <==> NoPanic(rows, step)
    ensures NoPanic(rows, step) ==>
      |MapRows(rows, step).items| == |rows|
      && forall i :: 0 <= i < |rows| ==> MapRows(rows, step).items[i] == step(rows[i]).value
  {
  }

  /** Pulling rows one at a time: the stream of a prefix is a prefix of the
      stream, and it stops at the same panic if that panic lies in the prefix. */
  lemma {:induction false} MapRowsPrefix<T>(rows: seq<Context>, step: Context -> Fallible<T>, k: nat)
    requires k <= |rows|
    ensures var whole, part := MapRows(rows, step), MapRows(rows[..k], step);
      if |whole.items| < k then part == whole
      else part.items == whole.items[..k] && part.halt.None?
  {
    if k > 0 {
      assert rows[..k][1..] == rows[1..][..k - 1];
      match step(rows[0])
      case Panicked(_) =>
      case Ok(_) => MapRowsPrefix(rows[1..], step, k - 1);
    }
  }
}
