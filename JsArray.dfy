/** The two Array.prototype operations the components rely on: `slice` and `reverse`. */
module JsArray {

  /** How `slice` resolves one of its bounds: a negative bound counts back from the end, and the
      result is clamped to `[0, len]`. */
  function RelativeIndex(i: int, len: nat): (r: nat)
    ensures r <= len
    ensures 0 <= i <= len ==> r == i
    ensures i > len ==> r == len
    ensures -(len as int) <= i < 0 ==> r == len + i
    ensures i < -(len as int) ==> r == 0
  {
    if i < 0 then (if len + i < 0 then 0 else len + i)
    else if i > len then len
    else i
  }

  /** `s.slice(start, end)`: an empty array when the resolved end is not after the resolved start. */
  function Slice<T>(s: seq<T>, start: int, end: int): (r: seq<T>)
    ensures |r| <= |s|
    ensures end >= start ==> |r| <= end - start
    ensures 0 <= start <= end ==>
      r == s[if start <= |s| then start else |s| .. if end <= |s| then end else |s|]
  {
    var b := RelativeIndex(start, |s|);
    var e := RelativeIndex(end, |s|);
    if e <= b then [] else s[b..e]
  }

  /** `s.reverse()` on a copy. */
  function Reverse<T>(s: seq<T>): (r: seq<T>)
    ensures |r| == |s|
    ensures forall i :: 0 <= i < |s| ==> r[i] == s[|s| - 1 - i]
  {
    if s == [] then [] else Reverse(s[1..]) + [s[0]]
  }
}
