/**
 * Orders on Diplomacy phase names such as "S1901M", "F1901M" and "W1901A". The
 * chronological order is the one `phase_sort_key` (analyze_game_moments.py,
 * analyze_game_moments_llm_new.py) defines: year, then season (spring, fall, winter),
 * then the phase type. The lexicographic order is Python's default order on strings.
 */
module PhaseOrder {
  import opened Text
  import Sorting

  /** `(year, season_order, phase_type)`. */
  datatype PhaseKey = PhaseKey(year: nat, season: nat, kind: string)

  /** `{"S": 1, "F": 2, "W": 3}.get(season, 0)`. */
  function SeasonOrder(c: char): (n: nat)
    ensures n <= 3
    ensures n == 0 <==> c != 'S' && c != 'F' && c != 'W'
  {
    if c == 'S' then 1 else if c == 'F' then 2 else if c == 'W' then 3 else 0
  }

  /** `phase_sort_key`: a name shorter than six characters gets the least key. */
  function PhaseSortKey(name: string): (k: PhaseKey)
    ensures |name| < 6 ==> k == PhaseKey(0, 0, "")
    ensures |name| >= 6 ==> k.season == SeasonOrder(name[0]) && k.kind == name[5..]
  {
    if |name| < 6 then PhaseKey(0, 0, "")
    else
      var y := name[1..5];
      PhaseKey(if IsDigits(y) then ParseNat(y) else 0, SeasonOrder(name[0]), name[5..])
  }

  /** Python's order on the key tuples. */
  predicate KeyLess(a: PhaseKey, b: PhaseKey)
  {
    a.year < b.year
    || (a.year == b.year && a.season < b.season)
    || (a.year == b.year && a.season == b.season && LexLess(a.kind, b.kind))
  }

  lemma KeyLessIrreflexive(a: PhaseKey)
    ensures !KeyLess(a, a)
  {
    LexLessIrreflexive(a.kind);
  }

  lemma KeyLessTransitive(a: PhaseKey, b: PhaseKey, c: PhaseKey)
    requires KeyLess(a, b) && KeyLess(b, c)
    ensures KeyLess(a, c)
  {
    if a.year == b.year == c.year && a.season == b.season == c.season {
      LexLessTransitive(a.kind, b.kind, c.kind);
    }
  }

  lemma KeyLessTotal(a: PhaseKey, b: PhaseKey)
    ensures a == b || KeyLess(a, b) || KeyLess(b, a)
  {
    LexLessTotal(a.kind, b.kind);
  }

  /** Within a year, spring comes before fall and fall before winter. */
  lemma SeasonsInOrder(y: string)
    requires |y| == 4 && IsDigits(y)
    ensures KeyLess(PhaseSortKey("S" + y + "M"), PhaseSortKey("F" + y + "M"))
    ensures KeyLess(PhaseSortKey("F" + y + "M"), PhaseSortKey("W" + y + "A"))
  {
    assert ("S" + y + "M")[1..5] == y && ("F" + y + "M")[1..5] == y && ("W" + y + "A")[1..5] == y;
  }

  /** A later year comes after every phase of an earlier one. */
  lemma YearsInOrder(y: string, z: string, a: char, b: char, p: string, q: string)
    requires |y| == 4 && IsDigits(y) && |z| == 4 && IsDigits(z) && ParseNat(y) < ParseNat(z)
    requires |p| == 1 && |q| == 1
    ensures KeyLess(PhaseSortKey([a] + y + p), PhaseSortKey([b] + z + q))
  {
    assert ([a] + y + p)[1..5] == y && ([b] + z + q)[1..5] == z;
  }

  /** The orders phase names are sorted by. */
  datatype Order = Lexicographic | Chronological

  /** `a` sorts strictly before `b`; the chronological order breaks ties between equal
      keys by name, so that both are strict total orders. */
  predicate Before(o: Order, a: string, b: string)
  {
    match o
    case Lexicographic => LexLess(a, b)
    case Chronological =>
      KeyLess(PhaseSortKey(a), PhaseSortKey(b)) || (PhaseSortKey(a) == PhaseSortKey(b) && LexLess(a, b))
  }

  lemma BeforeIrreflexive(o: Order, a: string)
    ensures !Before(o, a, a)
  {
    LexLessIrreflexive(a);
    KeyLessIrreflexive(PhaseSortKey(a));
  }

  lemma BeforeTransitive(o: Order, a: string, b: string, c: string)
    requires Before(o, a, b) && Before(o, b, c)
    ensures Before(o, a, c)
  {
    match o
    case Lexicographic => LexLessTransitive(a, b, c);
    case Chronological =>
      var ka, kb, kc := PhaseSortKey(a), PhaseSortKey(b), PhaseSortKey(c);
      KeyLessIrreflexive(ka);
      KeyLessIrreflexive(kb);
      if ka == kb && kb == kc {
        LexLessTransitive(a, b, c);
      } else if KeyLess(ka, kb) && KeyLess(kb, kc) {
        KeyLessTransitive(ka, kb, kc);
      }
  }

  lemma BeforeTotal(o: Order, a: string, b: string)
    ensures a == b || Before(o, a, b) || Before(o, b, a)
  {
    LexLessTotal(a, b);
    KeyLessTotal(PhaseSortKey(a), PhaseSortKey(b));
  }

  /** `Before(o, _, _)` as the relation the sort takes. */
  function BeforeIn(o: Order): (string, string) -> bool
  {
    (a: string, b: string) => Before(o, a, b)
  }

  lemma BeforeStrict(o: Order)
    ensures Sorting.StrictOrder(BeforeIn(o))
  {
    forall a ensures !Before(o, a, a) {
      BeforeIrreflexive(o, a);
    }
    forall a, b, c | Before(o, a, b) && Before(o, b, c) ensures Before(o, a, c) {
      BeforeTransitive(o, a, b, c);
    }
  }

  predicate SortedBy(o: Order, s: seq<string>)
  {
    Sorting.SortedBy(BeforeIn(o), s)
  }

  /** `sorted(xs)` under the order `o`. */
  function SortBy(o: Order, xs: seq<string>): (r: seq<string>)
    ensures multiset(r) == multiset(xs)
    ensures SortedBy(o, r)
  {
    BeforeStrict(o);
    Sorting.SortBySorted(BeforeIn(o), xs);
    Sorting.SortBy(BeforeIn(o), xs)
  }

  lemma SortedTail(o: Order, a: seq<string>)
    requires a != [] && SortedBy(o, a)
    ensures SortedBy(o, a[1..])
  {
    forall i, j | 0 <= i < j < |a| - 1 ensures !Before(o, a[1..][j], a[1..][i]) {
      assert a[1..][j] == a[j + 1] && a[1..][i] == a[i + 1];
    }
  }

  /** In a sorted list nothing comes before the head. */
  lemma SortedHead(o: Order, s: seq<string>, k: nat)
    requires SortedBy(o, s) && 0 < k < |s|
    ensures !Before(o, s[k], s[0])
  {
    assert !BeforeIn(o)(s[k], s[0]);
  }

  /** Lists that agree on their heads and hold the same multiset agree on their tails'
      multisets. */
  lemma SameTails(a: seq<string>, b: seq<string>)
    requires a != [] && b != [] && a[0] == b[0] && multiset(a) == multiset(b)
    ensures multiset(a[1..]) == multiset(b[1..])
  {
    assert a == [a[0]] + a[1..] && b == [b[0]] + b[1..];
    assert multiset(a) == multiset{a[0]} + multiset(a[1..]);
    assert multiset(b) == multiset{b[0]} + multiset(b[1..]);
    assert multiset(a[1..]) == multiset(a) - multiset{a[0]} == multiset(b[1..]);
  }

  /** Sorted lists holding the same multiset start with the same element. */
  lemma SameHeads(o: Order, a: seq<string>, b: seq<string>)
    requires a != [] && SortedBy(o, a) && SortedBy(o, b) && multiset(a) == multiset(b)
    ensures b != [] && a[0] == b[0]
  {
    assert a[0] in multiset(b);
    var j :| 0 <= j < |b| && b[j] == a[0];
    assert b[0] in multiset(a);
    var i :| 0 <= i < |a| && a[i] == b[0];
    if j > 0 { SortedHead(o, b, j); }
    if i > 0 { SortedHead(o, a, i); }
    BeforeTotal(o, a[0], b[0]);
  }

  /** Under a strict total order there is one sorted arrangement of a multiset. */
  lemma {:induction false} SortedUnique(o: Order, a: seq<string>, b: seq<string>)
    requires SortedBy(o, a) && SortedBy(o, b) && multiset(a) == multiset(b)
    ensures a == b
  {
    if a == [] {
      assert |b| == |multiset(b)| == 0;
    } else {
      SameHeads(o, a, b);
      SameTails(a, b);
      SortedTail(o, a);
      SortedTail(o, b);
      SortedUnique(o, a[1..], b[1..]);
      assert a == [a[0]] + a[1..] && b == [b[0]] + b[1..];
    }
  }

  /** Sorting keeps exactly the elements it was given. */
  lemma SortByMembers(o: Order, xs: seq<string>)
    ensures forall x :: x in SortBy(o, xs) <==> x in xs
  {
    Sorting.SortByMembers(BeforeIn(o), xs);
  }

  /** `max(xs)` under the order `o`. */
  function MaxBy(o: Order, xs: seq<string>): (m: string)
    requires xs != []
    ensures m in xs
    ensures forall y :: y in xs ==> !Before(o, m, y)
  {
    if |xs| == 1 then
      BeforeIrreflexive(o, xs[0]);
      xs[0]
    else
      var init := xs[..|xs| - 1];
      var m := MaxBy(o, init);
      var last := xs[|xs| - 1];
      assert forall y :: y in xs ==> y in init || y == last;
      if Before(o, m, last) then
        assert forall y :: y in init ==> !Before(o, last, y) by {
          forall y | y in init ensures !Before(o, last, y) {
            if Before(o, last, y) { BeforeTransitive(o, m, last, y); }
          }
        }
        BeforeIrreflexive(o, last);
        last
      else m
  }

  /** The greatest element of a sorted list is its last. */
  lemma MaxOfSorted(o: Order, xs: seq<string>)
    requires xs != [] && SortedBy(o, xs)
    ensures MaxBy(o, xs) == xs[|xs| - 1]
  {
    var m := MaxBy(o, xs);
    var i :| 0 <= i < |xs| && xs[i] == m;
    if i < |xs| - 1 {
      BeforeTotal(o, m, xs[|xs| - 1]);
    }
  }
}
