/**
 * The pieces of JavaScript value semantics that the modelled code depends on:
 * number division (which yields Infinity or NaN instead of failing),
 * `Array.prototype.slice` with its negative and out-of-range positions, and
 * `Math.max(...xs)`.
 */
module JsValues {

  /** A JavaScript number as far as this model needs one. */
  datatype Number = Finite(value: real) | PositiveInfinity | NegativeInfinity | NaN

  /** `a / b` on JavaScript numbers. */
  function Divide(a: real, b: real): (r: Number)
    ensures r.Finite? <==> b != 0.0
    ensures r.Finite? ==> r.value * b == a
    ensures r == NaN <==> b == 0.0 && a == 0.0
    ensures r == PositiveInfinity <==> b == 0.0 && a > 0.0
    ensures r == NegativeInfinity <==> b == 0.0 && a < 0.0
  {
    if b != 0.0 then Finite(a / b)
    else if a > 0.0 then PositiveInfinity
    else if a < 0.0 then NegativeInfinity
    else NaN
  }

  /** A position handed to `slice`, resolved against the length of the array. */
  function SliceIndex(k: int, len: nat): (r: nat)
    ensures r <= len
    ensures 0 <= k <= len ==> r == k
    ensures k < 0 && -k <= len ==> r == len + k
    ensures k < 0 && -k > len ==> r == 0
    ensures k > len ==> r == len
  {
    if k < 0 then (if len + k < 0 then 0 else len + k)
    else if k > len then len
    else k
  }

  /** `s.slice(start, end)`. */
  function Slice<T>(s: seq<T>, start: int, end: int): (r: seq<T>)
    ensures 0 <= start <= end <= |s| ==> r == s[start..end]
    ensures |s| <= start ==> r == []
    ensures 0 <= start <= |s| < end ==> r == s[start..]
    ensures SliceIndex(start, |s|) < SliceIndex(end, |s|) ==> r == s[SliceIndex(start, |s|)..SliceIndex(end, |s|)]
    ensures SliceIndex(end, |s|) <= SliceIndex(start, |s|) ==> r == []
    ensures start < 0 && end < 0 && -start <= |s| && -end <= |s| ==>
              r == if start < end then s[|s| + start..|s| + end] else []
  {
    var b, e := SliceIndex(start, |s|), SliceIndex(end, |s|);
    if b < e then s[b..e] else []
  }

  /** `s.slice(start)`: always a suffix of `s`. */
  function SliceFrom<T>(s: seq<T>, start: int): (r: seq<T>)
    ensures |r| <= |s| && r == s[|s| - |r|..]
    ensures 0 < -start <= |s| ==> |r| == -start
    ensures -start > |s| ==> r == s
    ensures start == 0 ==> r == s
    ensures start > 0 ==> |r| == if start <= |s| then |s| - start else 0
  {
    s[SliceIndex(start, |s|)..]
  }

  /** `Math.max(...s)` for a non-empty list of integers. */
  function Max(s: seq<int>): (m: int)
    requires |s| > 0
    ensures m in s
    ensures forall x :: x in s ==> x <= m
  {
    if |s| == 1 then s[0]
    else
      var rest := Max(s[1..]);
      assert forall x :: x in s ==> x == s[0] || x in s[1..];
      if s[0] >= rest then s[0] else rest
  }
}
