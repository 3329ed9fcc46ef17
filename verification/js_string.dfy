/** The pieces of JavaScript string semantics the wallet client relies on:
    truthiness of a string-or-undefined value, the `||` default idiom, and
    `String.prototype.slice` with its negative and clamped indices. */
module JsString {
  import opened Optional

  function Min(a: int, b: int): (m: int) {
    if a <= b then a else b
  }

  /** A string-or-undefined value is truthy exactly when it is present and
      non-empty: `undefined` and `""` are the two falsy cases. */
  predicate Truthy(v: Option<string>) {
    v.Some? && v.value != ""
  }

  /** `v || fallback` where `v` is a string or `undefined`. */
  function Or(v: Option<string>, fallback: string): (r: string)
    ensures Truthy(v) ==> r == v.value
    ensures !Truthy(v) ==> r == fallback
  {
    if Truthy(v) then v.value else fallback
  }

  /** How `slice` turns an integral argument into a position of a string of
      length `len`: a negative argument counts back from the end, and the
      result is clamped to `[0, len]`. Minus zero is zero, so `-0` resolves
      like `0`, to the start of the string. */
  function ResolveIndex(k: int, len: nat): (i: nat)
    ensures i <= len
    ensures 0 <= k ==> i == Min(k, len)
    ensures k < 0 ==> i == (if len + k < 0 then 0 else len + k)
  {
    if k < 0 then (if len + k < 0 then 0 else len + k)
    else if k > len then len
    else k
  }

  /** `s.slice(start)` when `end` is None, `s.slice(start, end)` otherwise;
      an empty string when the resolved start is not before the resolved end. */
  function Slice(s: string, start: int, end: Option<int>): (r: string)
    ensures |r| <= |s|
  {
    var from := ResolveIndex(start, |s|);
    var to := if end.Some? then ResolveIndex(end.value, |s|) else |s|;
    if from < to then s[from..to] else ""
  }

  /** `s.slice(0, k)` for `k >= 0` is the first `min(k, |s|)` characters. */
  lemma SliceHead(s: string, k: int)
    requires 0 <= k
    ensures Slice(s, 0, Some(k)) == s[..Min(k, |s|)]
  {
  }

  /** `s.slice(-k)` for `k > 0` is the last `min(k, |s|)` characters. */
  lemma SliceTail(s: string, k: int)
    requires 0 < k
    ensures Slice(s, -k, None) == s[|s| - Min(k, |s|)..]
  {
  }

  /** `s.slice(-0)` is `s.slice(0)`, the whole string. */
  lemma SliceMinusZero(s: string)
    ensures Slice(s, -0, None) == s
  {
  }
}
