/** Small shared vocabulary: optional values, results standing for thrown
    exceptions, and the few JavaScript built-ins whose exact behaviour the
    modelled code depends on (`Array.prototype.slice`, `toLowerCase` and
    `includes` on strings). */
module Wrappers {

  datatype Option<+T> = None | Some(value: T)

  /** A call that either returns a value or throws. */
  datatype Result<+T, +E> = Success(value: T) | Failure(error: E)

  /** A call that returns nothing or throws. */
  datatype Outcome<+E> = Pass | Fail(error: E)

  /** JavaScript truthiness of an optional string: `null`, `undefined` and
      the empty string are falsy. */
  predicate Truthy(s: Option<string>)
  {
    s.Some? && s.value != ""
  }

  /** How `slice` normalises one index against a length: negative indices
      count from the end, everything is clamped to `[0, n]`. */
  function SliceIndex(i: int, n: nat): (k: nat)
    ensures k <= n
    ensures 0 <= i <= n ==> k == i
    ensures i > n ==> k == n
    ensures i < 0 ==> k == if n + i < 0 then 0 else n + i
  {
    if i < 0 then (if n + i < 0 then 0 else n + i)
    else if i > n then n
    else i
  }

  /** `s.slice(start, end)` of JavaScript. */
  function JsSlice<T>(s: seq<T>, start: int, end: int): (r: seq<T>)
    ensures 0 <= start <= end <= |s| ==> r == s[start..end]
    ensures SliceIndex(start, |s|) < SliceIndex(end, |s|) ==> r == s[SliceIndex(start, |s|)..SliceIndex(end, |s|)]
    ensures SliceIndex(start, |s|) >= SliceIndex(end, |s|) ==> r == []
    ensures |r| <= |s|
    ensures multiset(r) <= multiset(s)
  {
    var a := SliceIndex(start, |s|);
    var b := SliceIndex(end, |s|);
    if a < b then
      assert s == s[..a] + s[a..b] + s[b..];
      s[a..b]
    else []
  }

  /** Two adjacent slices make up the slice that spans both. */
  lemma JsSliceAdjacent<T>(s: seq<T>, a: int, b: int, e: int)
    requires 0 <= a <= b <= e
    ensures JsSlice(s, a, b) + JsSlice(s, b, e) == JsSlice(s, a, e)
  {
    var n := |s|;
    var sa, sb, se := SliceIndex(a, n), SliceIndex(b, n), SliceIndex(e, n);
    assert s[sa..sb] + s[sb..se] == s[sa..se];
  }

  /** `toLowerCase` restricted to ASCII letters. */
  function LowerChar(c: char): (d: char)
    ensures 'A' <= c <= 'Z' ==> d as int == c as int + 32
    ensures !('A' <= c <= 'Z') ==> d == c
  {
    if 'A' <= c <= 'Z' then (c as int + 32) as char else c
  }

  function Lower(s: string): (r: string)
    ensures |r| == |s|
    ensures forall i :: 0 <= i < |s| ==> r[i] == LowerChar(s[i])
  {
    if s == [] then [] else [LowerChar(s[0])] + Lower(s[1..])
  }

  /** `t` occurs in `s` starting at position `i`. */
  predicate OccursAt(s: string, t: string, i: int)
  {
    0 <= i <= |s| - |t| && s[i..i + |t|] == t
  }

  /** `s.includes(t)`: `t` occurs in `s` as a contiguous block. */
  predicate Contains(s: string, t: string)
  {
    exists i | 0 <= i <= |s| - |t| :: OccursAt(s, t, i)
  }

  /** Case-insensitive `includes`, as `s.toLowerCase().includes(t.toLowerCase())`. */
  predicate ContainsIgnoringCase(s: string, t: string)
  {
    Contains(Lower(s), Lower(t))
  }
}
