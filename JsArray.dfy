/** Array.prototype.slice on a sequence, including its treatment of negative and out-of-range bounds. */
module JsArray {
  import opened JsMath

  /** Where slice starts or stops for a bound `x`: negative bounds count from the end, and all are clamped to [0, len]. */
  function RelativeIndex(x: int, len: nat): (k: nat)
    ensures k <= len
  {
    if x < 0 then (if len + x < 0 then 0 else len + x)
    else if x < len then x else len
  }

  function Slice<T>(s: seq<T>, start: int, end: int): seq<T> {
    var from, to := RelativeIndex(start, |s|), RelativeIndex(end, |s|);
    if from < to then s[from..to] else []
  }

  /** With non-negative bounds, slice keeps the indices in [start, end) that exist. */
  lemma SliceNonNegative<T>(s: seq<T>, start: int, end: int)
    requires 0 <= start <= end
    ensures Slice(s, start, end) == s[Min(start, |s|)..Min(end, |s|)]
  {
  }

  /** slice(0, n) is the first min(n, length) elements. */
  lemma SlicePrefix<T>(s: seq<T>, n: nat)
    ensures Slice(s, 0, n) == s[..Min(n, |s|)]
    ensures |Slice(s, 0, n)| == Min(n, |s|)
  {
    SliceNonNegative(s, 0, n);
  }
}
