/**
 * Python's insertion-ordered `dict` with string keys, as the list of its
 * (key, value) pairs in insertion order.
 */
module ODict {
  import opened Wrappers

  type Dict<V> = seq<(string, V)>

  function Keys<V>(d: Dict<V>): (r: seq<string>)
    ensures |r| == |d| && forall i :: 0 <= i < |d| ==> r[i] == d[i].0
  {
    if d == [] then [] else [d[0].0] + Keys(d[1..])
  }

  function Values<V>(d: Dict<V>): (r: seq<V>)
    ensures |r| == |d| && forall i :: 0 <= i < |d| ==> r[i] == d[i].1
  {
    seq(|d|, i requires 0 <= i < |d| => d[i].1)
  }

  predicate DistinctSeq(xs: seq<string>)
  {
    forall i, j :: 0 <= i < j < |xs| ==> xs[i] != xs[j]
  }

  /** `k in d`. */
  predicate HasKey<V>(d: Dict<V>, k: string)
  {
    k in Keys(d)
  }

  /** What every Python dict satisfies: no key occurs twice. */
  predicate DistinctKeys<V>(d: Dict<V>)
  {
    DistinctSeq(Keys(d))
  }

  /** `d.get(k)`: the value bound to `k`, if any. */
  function Get<V>(d: Dict<V>, k: string): (r: Option<V>)
    ensures r.Some? <==> HasKey(d, k)
    ensures r.Some? ==> exists i | 0 <= i < |d| :: d[i] == (k, r.value)
  {
    if d == [] then None
    else if d[0].0 == k then Some(d[0].1)
    else
      var r := Get(d[1..], k);
      assert r.Some? ==> d[1..][0..] == d[1..];
      r
  }

  /** `d.get(k, default)`. */
  function GetOr<V>(d: Dict<V>, k: string, default: V): (r: V)
    ensures !HasKey(d, k) ==> r == default
    ensures HasKey(d, k) ==> Some(r) == Get(d, k)
  {
    match Get(d, k)
    case None => default
    case Some(v) => v
  }

  /** `d[k] = v`: an existing key keeps its position and gets the new value, a new key goes last. */
  function Put<V>(d: Dict<V>, k: string, v: V): (r: Dict<V>)
    ensures Get(r, k) == Some(v)
    ensures forall k' :: k' != k ==> Get(r, k') == Get(d, k')
  {
    if d == [] then [(k, v)]
    else if d[0].0 == k then [(k, v)] + d[1..]
    else [d[0]] + Put(d[1..], k, v)
  }

  /** Reading back after an assignment. */
  lemma GetOrPut<V>(d: Dict<V>, k: string, v: V, k': string, default: V)
    ensures GetOr(Put(d, k, v), k', default) == if k' == k then v else GetOr(d, k', default)
    ensures HasKey(Put(d, k, v), k') <==> k' == k || HasKey(d, k')
  {
    if k' != k {
      assert Get(Put(d, k, v), k') == Get(d, k');
    }
  }

  /** A second assignment to the same key overrides the first. */
  lemma {:induction false} PutPut<V>(d: Dict<V>, k: string, v: V, w: V)
    ensures Put(Put(d, k, v), k, w) == Put(d, k, w)
  {
    if d != [] && d[0].0 != k {
      PutPut(d[1..], k, v, w);
      assert ([d[0]] + Put(d[1..], k, v))[1..] == Put(d[1..], k, v);
    } else if d != [] {
      assert ([(k, v)] + d[1..])[1..] == d[1..];
    }
  }

  /** Assignment never reorders keys: an existing key stays put, a new one is appended. */
  lemma {:induction false} PutKeys<V>(d: Dict<V>, k: string, v: V)
    ensures HasKey(d, k) ==> Keys(Put(d, k, v)) == Keys(d)
    ensures !HasKey(d, k) ==> Keys(Put(d, k, v)) == Keys(d) + [k]
  {
    if d != [] && d[0].0 != k {
      PutKeys(d[1..], k, v);
      var t := Put(d[1..], k, v);
      assert ([d[0]] + t)[1..] == t;
    } else if d != [] {
      assert ([(k, v)] + d[1..])[1..] == d[1..];
    }
  }

  /** A value of `Dict` read back at a position holding a key's only binding. */
  lemma GetAt<V>(d: Dict<V>, i: int)
    requires DistinctKeys(d) && 0 <= i < |d|
    ensures Get(d, d[i].0) == Some(d[i].1)
  {
    var k := d[i].0;
    var r := Get(d, k);
    assert HasKey(d, k) by { assert Keys(d)[i] == k; }
    var j :| 0 <= j < |d| && d[j] == (k, r.value);
    assert Keys(d)[j] == Keys(d)[i];
  }

  /** Assigning a key the dict does not have appends one pair. */
  lemma {:induction false} PutAbsent<V>(d: Dict<V>, k: string, v: V)
    requires !HasKey(d, k)
    ensures Put(d, k, v) == d + [(k, v)]
  {
    if d != [] {
      var t := d[1..];
      assert Keys(d) == [d[0].0] + Keys(t);
      PutAbsent(t, k, v);
      assert Put(d, k, v) == [d[0]] + (t + [(k, v)]);
      assert [d[0]] + (t + [(k, v)]) == d + [(k, v)];
    }
  }

  /** Reading a dict that got one more pair at its end: an earlier binding wins. */
  lemma {:induction false} GetSnoc<V>(d: Dict<V>, k: string, v: V, k': string)
    ensures Get(d + [(k, v)], k') == if HasKey(d, k') then Get(d, k') else if k == k' then Some(v) else None
    ensures HasKey(d + [(k, v)], k') <==> HasKey(d, k') || k == k'
  {
    var e := d + [(k, v)];
    assert Keys(e) == Keys(d) + [k];
    if d != [] {
      assert e[1..] == d[1..] + [(k, v)];
      assert Keys(d) == [d[0].0] + Keys(d[1..]);
      GetSnoc(d[1..], k, v, k');
    }
  }

  /** Assignment keeps a dict's keys distinct. */
  lemma PutDistinct<V>(d: Dict<V>, k: string, v: V)
    requires DistinctKeys(d)
    ensures DistinctKeys(Put(d, k, v))
  {
    PutKeys(d, k, v);
    if !HasKey(d, k) {
      AppendDistinct(Keys(d), k);
    }
  }

  lemma AppendDistinct(xs: seq<string>, x: string)
    requires DistinctSeq(xs) && x !in xs
    ensures DistinctSeq(xs + [x])
  {
    var ys := xs + [x];
    forall i, j | 0 <= i < j < |ys|
      ensures ys[i] != ys[j]
    {
      if j < |xs| {
        assert ys[i] == xs[i] && ys[j] == xs[j];
      } else {
        assert ys[i] == xs[i] && ys[j] == x;
      }
    }
  }
}
