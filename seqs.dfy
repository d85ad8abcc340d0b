/** Small facts about sequences used across the model. */
module Seqs {

  predicate NoDuplicates<T(==)>(s: seq<T>)
  {
    forall i, j :: 0 <= i < j < |s| ==> s[i] != s[j]
  }

  /** `s` can be obtained from `t` by deleting elements. */
  predicate IsSubsequence<T(==)>(s: seq<T>, t: seq<T>)
    decreases |t|
  {
    if s == [] then true
    else if t == [] then false
    else if s[|s| - 1] == t[|t| - 1] then IsSubsequence(s[..|s| - 1], t[..|t| - 1])
    else IsSubsequence(s, t[..|t| - 1])
  }

  /** `s.remove(x)` on a list that holds `x`: its first occurrence goes. */
  function RemoveFirst<T(==)>(s: seq<T>, x: T): (r: seq<T>)
    requires x in s
    ensures |r| == |s| - 1
    ensures forall y :: y in r ==> y in s
    ensures NoDuplicates(s) ==> NoDuplicates(r) && x !in r
  {
    if s[0] == x then s[1..]
    else
      var t := RemoveFirst(s[1..], x);
      assert forall i :: 0 <= i < |t| ==> t[i] in s[1..];
      [s[0]] + t
  }

  /** Python's `s[-n:]`: the last `n` elements for positive `n`, all of them for `n == 0`,
      and everything from index `-n` on for negative `n`. */
  function PyTail<T>(s: seq<T>, n: int): (r: seq<T>)
    ensures |r| <= |s|
    ensures n > 0 ==> |r| == (if n < |s| then n else |s|)
    ensures r == s[|s| - |r|..]
  {
    if n > 0 then (if n < |s| then s[|s| - n..] else s)
    else if n == 0 then s
    else if -n < |s| then s[-n..] else []
  }

  /** Python's `s[:n]`: the first `n` elements for non-negative `n`, and all but the last
      `-n` for negative `n`. */
  function PyPrefix<T>(s: seq<T>, n: int): (r: seq<T>)
    ensures |r| <= |s|
    ensures n >= 0 ==> |r| == (if n < |s| then n else |s|)
    ensures n < 0 ==> |r| == (if -n < |s| then |s| + n else 0)
    ensures r == s[..|r|]
  {
    if n >= 0 then (if n < |s| then s[..n] else s)
    else if -n < |s| then s[..|s| + n] else []
  }

  /** `min(a, b)`. */
  function Min(a: int, b: int): (m: int)
    ensures m <= a && m <= b && (m == a || m == b)
  {
    if a <= b then a else b
  }
}
