/**
 * Python's slice `xs[start:stop]` with integer bounds: a negative bound counts
 * from the end, and both bounds are then clamped to the sequence.
 */
module Slices {

  /** A slice bound as Python normalises it: negative counts from the end, then clamped to [0, n]. */
  function Bound(b: int, n: nat): nat
  {
    if b < 0 then (if n + b >= 0 then n + b else 0)
    else if b > n then n
    else b
  }

  /** `xs[start:stop]`. */
  function Slice<T>(xs: seq<T>, start: int, stop: int): seq<T>
  {
    var i, j := Bound(start, |xs|), Bound(stop, |xs|);
    if i < j then xs[i..j] else []
  }

  /** `xs[:stop]`: the first `stop` elements, or all but the last `-stop` when `stop` is negative. */
  function Prefix<T>(xs: seq<T>, stop: int): (r: seq<T>)
  {
    Slice(xs, 0, stop)
  }

  /** A prefix slice with a non-negative bound is the leading `min(stop, |xs|)` elements. */
  lemma PrefixLength<T>(xs: seq<T>, stop: int)
    requires stop >= 0
    ensures |Prefix(xs, stop)| == (if stop < |xs| then stop else |xs|)
    ensures Prefix(xs, stop) == xs[..|Prefix(xs, stop)|]
  {
  }

  /** A prefix slice with a negative bound drops that many elements from the end. */
  lemma PrefixNegative<T>(xs: seq<T>, stop: int)
    requires stop < 0
    ensures Prefix(xs, stop) == xs[..(if |xs| + stop >= 0 then |xs| + stop else 0)]
  {
  }
}
