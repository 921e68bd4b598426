/** Small value types shared by every module of the model. */
module Basics {

  /** A value that may be absent (a missing JSON key, a `None` return). */
  datatype Option<T> = None | Some(value: T)

  /** The outcome of an operation that can raise: a value, or the error it raised. */
  datatype Result<T, E> = Ok(value: T) | Err(error: E)

  /** Python's `s[:n]` for a non-negative `n`: the first `n` elements, or all of them. */
  function Prefix<T>(s: seq<T>, n: nat): (r: seq<T>)
    ensures |r| == if n < |s| then n else |s|
    ensures r == s[..|r|]
  {
    if n < |s| then s[..n] else s
  }

  /** The elements of `xs` whose flag in `keep` is set, in their original order. */
  function Select<T>(xs: seq<T>, keep: seq<bool>): (r: seq<T>)
    requires |keep| == |xs|
    ensures |r| <= |xs|
    ensures (forall i :: 0 <= i < |keep| ==> keep[i]) ==> r == xs
    ensures (forall i :: 0 <= i < |keep| ==> !keep[i]) ==> r == []
  {
    if xs == [] then []
    else
      var n := |xs| - 1;
      Select(xs[..n], keep[..n]) + (if keep[n] then [xs[n]] else [])
  }

  /** Selecting from a longer sequence adds the new element when its flag is set. */
  lemma SelectSnoc<T>(xs: seq<T>, x: T, keep: seq<bool>, b: bool)
    requires |keep| == |xs|
    ensures Select(xs + [x], keep + [b]) == Select(xs, keep) + (if b then [x] else [])
  {
    assert (xs + [x])[..|xs|] == xs;
    assert (keep + [b])[..|keep|] == keep;
  }

  /** Selecting from a sequence with a new first element starts with it when its flag is set. */
  lemma {:induction false} SelectCons<T>(x: T, xs: seq<T>, b: bool, keep: seq<bool>)
    requires |keep| == |xs|
    ensures Select([x] + xs, [b] + keep) == (if b then [x] else []) + Select(xs, keep)
    decreases |xs|
  {
    if xs != [] {
      var n := |xs| - 1;
      assert ([x] + xs)[..n + 1] == [x] + xs[..n];
      assert ([b] + keep)[..n + 1] == [b] + keep[..n];
      SelectCons(x, xs[..n], b, keep[..n]);
      assert ([x] + xs)[n + 1] == xs[n] && ([b] + keep)[n + 1] == keep[n];
    } else {
      assert [x] + xs == [x] && [b] + keep == [b];
      assert Select([x], [b]) == Select([x][..0], [b][..0]) + (if b then [x] else []);
    }
  }
}
