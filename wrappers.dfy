/** Small result types shared by the whole model. */
module Wrappers {

  /** Kotlin's nullable `T?`. */
  datatype Option<+T> = None | Some(value: T)

  /** Kotlin's `Result<T>` as returned by the repositories: a value or a failure message. */
  datatype Result<+T> = Success(value: T) | Failure(message: string)

  /** The outcome of reading and parsing a bundled JSON asset. A failure carries the
      exception's message, which Kotlin allows to be null. */
  datatype LoadResult<+T> = Loaded(data: T) | LoadFailed(message: Option<string>)

  /** `e.message ?: fallback` */
  function MessageOr(message: Option<string>, fallback: string): (r: string)
    ensures message.Some? ==> r == message.value
    ensures message.None? ==> r == fallback
  {
    if message.Some? then message.value else fallback
  }

  /** Kotlin's `mapNotNull`: `f` applied to every element in order, the nulls dropped. */
  function MapNotNull<A, B>(xs: seq<A>, f: A -> Option<B>): (r: seq<B>)
    ensures |r| <= |xs|
  {
    if xs == [] then []
    else (if f(xs[0]).Some? then [f(xs[0]).value] else []) + MapNotNull(xs[1..], f)
  }

  /** `mapNotNull` works element by element: mapping a concatenation is concatenating
      the mapped parts, so the order of the input is kept. */
  lemma {:induction false} MapNotNullSplits<A, B>(xs: seq<A>, ys: seq<A>, f: A -> Option<B>)
    ensures MapNotNull(xs + ys, f) == MapNotNull(xs, f) + MapNotNull(ys, f)
  {
    if xs == [] {
      assert xs + ys == ys;
    } else {
      var zs := xs + ys;
      var h: seq<B> := if f(xs[0]).Some? then [f(xs[0]).value] else [];
      assert zs[0] == xs[0];
      assert zs[1..] == xs[1..] + ys;
      assert MapNotNull(xs, f) == h + MapNotNull(xs[1..], f);
      assert MapNotNull(zs, f) == h + MapNotNull(xs[1..] + ys, f);
      MapNotNullSplits(xs[1..], ys, f);
    }
  }

  /** Every element `mapNotNull` keeps is the non-null image of some input element. */
  lemma {:induction false} MapNotNullFrom<A, B>(xs: seq<A>, f: A -> Option<B>, i: nat)
    requires i < |MapNotNull(xs, f)|
    ensures exists j :: 0 <= j < |xs| && f(xs[j]) == Some(MapNotNull(xs, f)[i])
  {
    var h: seq<B> := if f(xs[0]).Some? then [f(xs[0]).value] else [];
    assert MapNotNull(xs, f) == h + MapNotNull(xs[1..], f);
    if i < |h| {
      assert f(xs[0]) == Some(MapNotNull(xs, f)[i]);
    } else {
      MapNotNullFrom(xs[1..], f, i - |h|);
      var j :| 0 <= j < |xs[1..]| && f(xs[1..][j]) == Some(MapNotNull(xs[1..], f)[i - |h|]);
      assert f(xs[j + 1]) == Some(MapNotNull(xs, f)[i]);
    }
  }
}
