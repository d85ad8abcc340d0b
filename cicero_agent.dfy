/**
 * The enhanced stand-in for Cicero (ai_diplomacy/cicero_agent_enhanced.py): it sorts each
 * location's legal orders into supports, convoys, holds and moves, then picks one order per
 * location by a fixed priority in which two steps depend on a coin flip and one on a random
 * pick. The coins and the picks are nondeterministic choices here, so every property holds
 * whatever they turn out to be. Alliance suggestions compare threat scores with the open
 * interval (0.3, 0.7).
 */
module Cicero {
  import opened Wrappers
  import opened Text
  import opened ODict
  import opened Seqs

  datatype Kind = SupportOrder | ConvoyOrder | HoldOrder | MoveOrder

  /** The first test that matches decides: " S ", then " C ", then a trailing " H". */
  function KindOf(order: string): Kind
  {
    if Contains(order, " S ") then SupportOrder
    else if Contains(order, " C ") then ConvoyOrder
    else if EndsWith(order, " H") then HoldOrder
    else MoveOrder
  }

  /** The orders of one kind, in their original order. */
  function OfKind(orders: seq<string>, k: Kind): (r: seq<string>)
    ensures forall o :: o in r ==> o in orders
  {
    if orders == [] then []
    else OfKind(orders[..|orders| - 1], k) + (if KindOf(orders[|orders| - 1]) == k then [orders[|orders| - 1]] else [])
  }

  lemma OfKindSnoc(xs: seq<string>, o: string, k: Kind)
    ensures OfKind(xs + [o], k) == OfKind(xs, k) + (if KindOf(o) == k then [o] else [])
  {
    assert (xs + [o])[..|xs|] == xs;
  }

  lemma OfKindSnocCount(xs: seq<string>, o: string, k: Kind)
    ensures multiset(OfKind(xs + [o], k)) == multiset(OfKind(xs, k)) + (if KindOf(o) == k then multiset{o} else multiset{})
  {
    OfKindSnoc(xs, o, k);
  }

  /** Classification splits every list exactly: each order lands in one kind. */
  lemma {:induction false} KindsPartition(orders: seq<string>)
    ensures multiset(OfKind(orders, SupportOrder)) + multiset(OfKind(orders, ConvoyOrder))
          + multiset(OfKind(orders, HoldOrder)) + multiset(OfKind(orders, MoveOrder)) == multiset(orders)
  {
    if orders != [] {
      var init := orders[..|orders| - 1];
      var o := orders[|orders| - 1];
      assert orders == init + [o];
      KindsPartition(init);
      OfKindSnocCount(init, o, SupportOrder);
      OfKindSnocCount(init, o, ConvoyOrder);
      OfKindSnocCount(init, o, HoldOrder);
      OfKindSnocCount(init, o, MoveOrder);
      assert multiset(orders) == multiset(init) + multiset{o};
    }
  }

  /** A per-location grouping after `xs` were appended to `g[loc]` of their kind; a location
      with no order of that kind gets no key, as with a `defaultdict` filled by `append`. */
  function AddKind(g: map<string, seq<string>>, loc: string, xs: seq<string>, k: Kind): map<string, seq<string>>
  {
    var f := OfKind(xs, k);
    if f == [] then g else g[loc := (if loc in g then g[loc] else []) + f]
  }

  /** The `defaultdict` of one kind after the classification loop over `d`. */
  function Grouped(d: Dict<seq<string>>, k: Kind): map<string, seq<string>>
  {
    if d == [] then map[]
    else AddKind(Grouped(d[..|d| - 1], k), d[|d| - 1].0, d[|d| - 1].1, k)
  }

  lemma AddKindSnoc(g: map<string, seq<string>>, loc: string, xs: seq<string>, o: string, k: Kind)
    ensures AddKind(g, loc, xs + [o], k) ==
      var h := AddKind(g, loc, xs, k);
      if KindOf(o) == k then h[loc := (if loc in h then h[loc] else []) + [o]] else h
  {
    OfKindSnoc(xs, o, k);
    var f := OfKind(xs, k);
    if KindOf(o) == k && f != [] {
      var h := AddKind(g, loc, xs, k);
      var base := if loc in g then g[loc] else [];
      assert h[loc] == base + f;
      assert base + f + [o] == base + (f + [o]);
      assert h[loc := h[loc] + [o]] == g[loc := base + (f + [o])];
      assert AddKind(g, loc, xs + [o], k) == g[loc := base + (f + [o])];
    } else if KindOf(o) == k {
      assert f + [o] == [o];
    } else {
      assert f + [] == f;
    }
  }

  /** In a dict with distinct keys, each location's group is the filter of its own list. */
  lemma {:induction false} GroupedAt(d: Dict<seq<string>>, k: Kind, j: nat)
    requires DistinctKeys(d) && j < |d|
    ensures d[j].0 in Grouped(d, k) <==> OfKind(d[j].1, k) != []
    ensures d[j].0 in Grouped(d, k) ==> Grouped(d, k)[d[j].0] == OfKind(d[j].1, k)
  {
    var init := d[..|d| - 1];
    DistinctInit(d);
    if j < |d| - 1 {
      assert init[j] == d[j];
      assert Keys(d)[j] == d[j].0 && Keys(d)[|d| - 1] == d[|d| - 1].0;
      GroupedAt(init, k, j);
    } else {
      NotGrouped(init, k, d[j].0);
    }
  }

  lemma DistinctInit<V>(d: Dict<V>)
    requires DistinctKeys(d) && d != []
    ensures DistinctKeys(d[..|d| - 1]) && d[|d| - 1].0 !in Keys(d[..|d| - 1])
  {
    var init := d[..|d| - 1];
    forall a, b | 0 <= a < b < |Keys(init)| ensures Keys(init)[a] != Keys(init)[b] {
      assert Keys(init)[a] == Keys(d)[a] && Keys(init)[b] == Keys(d)[b];
    }
    forall a | 0 <= a < |init| ensures Keys(init)[a] != d[|d| - 1].0 {
      assert Keys(init)[a] == Keys(d)[a] && Keys(d)[|d| - 1] == d[|d| - 1].0;
    }
  }

  /** A location that is not a key of `d` is not a key of its grouping. */
  lemma {:induction false} NotGrouped(d: Dict<seq<string>>, k: Kind, loc: string)
    requires loc !in Keys(d)
    ensures loc !in Grouped(d, k)
  {
    if d != [] {
      var init := d[..|d| - 1];
      assert Keys(d)[|d| - 1] == d[|d| - 1].0;
      assert forall a :: a in Keys(init) ==> a in Keys(d);
      NotGrouped(init, k, loc);
    }
  }

  /** The classification loop: four `defaultdict`s filled by appending each order of each
      location to the group of its kind. */
  method GroupByKind(d: Dict<seq<string>>) returns (moves: map<string, seq<string>>, supports: map<string, seq<string>>,
                                                   convoys: map<string, seq<string>>, holds: map<string, seq<string>>)
    ensures moves == Grouped(d, MoveOrder) && supports == Grouped(d, SupportOrder)
    ensures convoys == Grouped(d, ConvoyOrder) && holds == Grouped(d, HoldOrder)
  {
    moves, supports, convoys, holds := map[], map[], map[], map[];
    for i := 0 to |d|
      invariant moves == Grouped(d[..i], MoveOrder) && supports == Grouped(d[..i], SupportOrder)
      invariant convoys == Grouped(d[..i], ConvoyOrder) && holds == Grouped(d[..i], HoldOrder)
    {
      var (loc, orders) := d[i];
      ghost var m0, s0, c0, h0 := moves, supports, convoys, holds;
      for j := 0 to |orders|
        invariant moves == AddKind(m0, loc, orders[..j], MoveOrder)
        invariant supports == AddKind(s0, loc, orders[..j], SupportOrder)
        invariant convoys == AddKind(c0, loc, orders[..j], ConvoyOrder)
        invariant holds == AddKind(h0, loc, orders[..j], HoldOrder)
      {
        var order := orders[j];
        assert orders[..j + 1] == orders[..j] + [order];
        AddKindSnoc(m0, loc, orders[..j], order, MoveOrder);
        AddKindSnoc(s0, loc, orders[..j], order, SupportOrder);
        AddKindSnoc(c0, loc, orders[..j], order, ConvoyOrder);
        AddKindSnoc(h0, loc, orders[..j], order, HoldOrder);
        if Contains(order, " S ") {
          supports := supports[loc := (if loc in supports then supports[loc] else []) + [order]];
        } else if Contains(order, " C ") {
          convoys := convoys[loc := (if loc in convoys then convoys[loc] else []) + [order]];
        } else if EndsWith(order, " H") {
          holds := holds[loc := (if loc in holds then holds[loc] else []) + [order]];
        } else {
          moves := moves[loc := (if loc in moves then moves[loc] else []) + [order]];
        }
      }
      assert orders[..|orders|] == orders;
      assert d[..i + 1][..i] == d[..i];
    }
    assert d[..|d|] == d;
  }

  /** The supports that name a moving unit (`s.count(" - ") > 0`). */
  function ComplexSupports(ss: seq<string>): (r: seq<string>)
    ensures forall s :: s in r <==> s in ss && Contains(s, " - ")
  {
    if ss == [] then []
    else
      var rest := ComplexSupports(ss[..|ss| - 1]);
      var s := ss[|ss| - 1];
      assert forall x :: x in ss ==> x in ss[..|ss| - 1] || x == s;
      rest + (if Contains(s, " - ") then [s] else [])
  }

  /** `_evaluate_supports`: the complex supports when there are any, else all of them. */
  function EvaluateSupports(ss: seq<string>): (r: seq<string>)
    ensures forall s :: s in r ==> s in ss
    ensures r != [] <==> ss != []
    ensures (exists s :: s in ss && Contains(s, " - ")) ==> forall s :: s in ss ==> (s in r <==> Contains(s, " - "))
    ensures (forall s :: s in ss ==> !Contains(s, " - ")) ==> r == ss
  {
    var c := ComplexSupports(ss);
    if c != [] then
      assert c[0] in c;
      c
    else
      ss
  }

  const KEY_TERRITORIES: seq<string> := ["MUN", "PAR", "LON", "ROM", "VIE", "BER", "CON", "WAR", "MOS", "STP"]

  /** A move whose target, the stripped text after its first " - " and before any second
      one, contains a key territory. */
  predicate IsStrategic(move: string)
  {
    var parts := SplitOn(move, " - ");
    |parts| > 1 && ContainsAny(Strip(parts[1]), KEY_TERRITORIES)
  }

  function StrategicMoves(ms: seq<string>): (r: seq<string>)
    ensures forall m :: m in r <==> m in ms && IsStrategic(m)
    ensures IsSubsequence(r, ms)
  {
    if ms == [] then []
    else
      var m := ms[|ms| - 1];
      var r := StrategicMoves(ms[..|ms| - 1]);
      if IsStrategic(m) then r + [m] else r
  }

  /** What `_evaluate_moves` returns: the strategic moves when there are any, else all. */
  function MovesChosen(ms: seq<string>): (r: seq<string>)
    ensures forall m :: m in r ==> m in ms
    ensures r != [] <==> ms != []
    ensures (exists m :: m in ms && IsStrategic(m)) ==> forall m :: m in ms ==> (m in r <==> IsStrategic(m))
    ensures (forall m :: m in ms ==> !IsStrategic(m)) ==> r == ms
  {
    var s := StrategicMoves(ms);
    if s != [] then
      assert s[0] in s;
      s
    else ms
  }

  /** `_evaluate_moves`: a loop that keeps the strategic moves, falling back to all moves. */
  method EvaluateMoves(ms: seq<string>) returns (r: seq<string>)
    ensures r == MovesChosen(ms)
    ensures forall m :: m in r ==> m in ms
    ensures r != [] <==> ms != []
  {
    var strategic := [];
    for i := 0 to |ms|
      invariant strategic == StrategicMoves(ms[..i])
    {
      assert ms[..i + 1][..i] == ms[..i];
      var parts := SplitOn(ms[i], " - ");
      if |parts| > 1 {
        var target := Strip(parts[1]);
        if ContainsAny(target, KEY_TERRITORIES) {
          strategic := strategic + [ms[i]];
        }
      }
    }
    assert ms[..|ms|] == ms;
    r := if strategic != [] then strategic else ms;
  }

  /** A move without " - " has no target and is never strategic. */
  lemma NoTargetNotStrategic(move: string)
    requires !Contains(move, " - ")
    ensures !IsStrategic(move)
  {
    assert Find(move, " - ").None?;
  }

  /** The fixed tail of the priority: the first convoy, else the first hold, else the first
      legal order. */
  function Fallback(orders: seq<string>): (o: string)
    requires orders != []
    ensures o in orders
  {
    var c := OfKind(orders, ConvoyOrder);
    var h := OfKind(orders, HoldOrder);
    if c != [] then c[0] else if h != [] then h[0] else orders[0]
  }

  /** The orders `get_orders` may pick for a location with these legal orders, for some
      outcome of its coins and its random picks. */
  predicate Choosable(orders: seq<string>, o: string)
  {
    orders != [] &&
    var ss := OfKind(orders, SupportOrder);
    var ms := OfKind(orders, MoveOrder);
    || (ss != [] && o in EvaluateSupports(ss))
    || (ms != [] && o in MovesChosen(ms))
    || o == Fallback(orders)
  }

  /** Every order that may be picked is legal for its location. */
  lemma ChoosableIsLegal(orders: seq<string>, o: string)
    requires Choosable(orders, o)
    ensures o in orders
  {
    var ms := OfKind(orders, MoveOrder);
    if ms != [] && o in MovesChosen(ms) {
      assert o in ms;
    }
  }

  /** A location whose orders hold no support and no move always gets its fallback. */
  lemma OnlyFallback(orders: seq<string>, o: string)
    requires orders != [] && OfKind(orders, SupportOrder) == [] && OfKind(orders, MoveOrder) == []
    ensures Choosable(orders, o) <==> o == Fallback(orders)
  {
  }

  /** The non-empty order lists of `d`, in its order: one order is picked for each. */
  function Active(d: Dict<seq<string>>): (r: seq<seq<string>>)
    ensures |r| <= |d|
    ensures forall k :: 0 <= k < |r| ==> r[k] != []
  {
    if d == [] then []
    else Active(d[..|d| - 1]) + (if d[|d| - 1].1 != [] then [d[|d| - 1].1] else [])
  }

  /** `get_orders`: one order for each location with legal orders, in the dict's order, and
      each of them one that the priority can pick. */
  method GetOrders(d: Dict<seq<string>>) returns (selected: seq<string>)
    requires DistinctKeys(d)
    ensures |selected| == |Active(d)|
    ensures forall k :: 0 <= k < |selected| ==> Choosable(Active(d)[k], selected[k])
  {
    var moves, supports, convoys, holds := GroupByKind(d);
    selected := [];
    for i := 0 to |d|
      invariant |selected| == |Active(d[..i])|
      invariant forall k :: 0 <= k < |selected| ==> Choosable(Active(d[..i])[k], selected[k])
    {
      assert d[..i + 1][..i] == d[..i];
      var (loc, orders) := d[i];
      ghost var before := Active(d[..i]);
      if orders == [] {
        assert Active(d[..i + 1]) == before + [];
        continue;
      }
      assert Active(d[..i + 1]) == before + [orders];
      var o := PickFor(d, i, moves, supports, convoys, holds);
      selected := selected + [o];
    }
    assert d[..|d|] == d;
  }

  /** The priority for one location, given its groups: a support (on a coin), a move (on a
      second coin), the first convoy, the first hold, or the first order. */
  method PickFor(d: Dict<seq<string>>, i: nat, moves: map<string, seq<string>>, supports: map<string, seq<string>>,
                 convoys: map<string, seq<string>>, holds: map<string, seq<string>>) returns (o: string)
    requires DistinctKeys(d) && i < |d| && d[i].1 != []
    requires moves == Grouped(d, MoveOrder) && supports == Grouped(d, SupportOrder)
    requires convoys == Grouped(d, ConvoyOrder) && holds == Grouped(d, HoldOrder)
    ensures Choosable(d[i].1, o)
  {
    var (loc, orders) := d[i];
    GroupedAt(d, SupportOrder, i);
    GroupedAt(d, MoveOrder, i);
    GroupedAt(d, ConvoyOrder, i);
    GroupedAt(d, HoldOrder, i);
    var cooperate: bool :| true;
    if loc in supports && cooperate {
      var strategic := EvaluateSupports(supports[loc]);
      if strategic != [] {
        assert strategic[0] in strategic;
        o :| o in strategic;
        return;
      }
    }
    var attack: bool :| true;
    if loc in moves && attack {
      var strategic := EvaluateMoves(moves[loc]);
      if strategic != [] {
        assert strategic[0] in strategic;
        o :| o in strategic;
        return;
      }
    }
    if loc in convoys {
      o := convoys[loc][0];
    } else if loc in holds {
      o := holds[loc][0];
    } else {
      o := orders[0];
    }
  }

  /** The other powers whose threat score lies strictly between 0.3 and 0.7, in the dict's
      order. */
  function Candidates(scores: Dict<real>, us: string): (r: seq<string>)
    ensures forall p :: p in r <==> exists i :: 0 <= i < |scores| && scores[i].0 == p && p != us && 0.3 < scores[i].1 < 0.7
  {
    if scores == [] then []
    else
      var init := scores[..|scores| - 1];
      var (p, v) := scores[|scores| - 1];
      var rest := Candidates(init, us);
      assert forall i :: 0 <= i < |init| ==> init[i] == scores[i];
      rest + (if p != us && 0.3 < v < 0.7 then [p] else [])
  }

  lemma {:induction false} NoCandidates(scores: Dict<real>, us: string)
    requires Candidates(scores, us) == []
    ensures forall i :: 0 <= i < |scores| ==> scores[i].0 == us || !(0.3 < scores[i].1 < 0.7)
  {
    if scores != [] {
      var init := scores[..|scores| - 1];
      NoCandidates(init, us);
      assert forall i :: 0 <= i < |init| ==> init[i] == scores[i];
    }
  }

  /** `self.alliance_memory.get(p, 0)`. */
  function Memory(memory: map<string, real>, p: string): real
  {
    if p in memory then memory[p] else 0.0
  }

  /** Python's `max` with a key: the index of the first candidate of greatest memory. */
  function BestIndex(cs: seq<string>, memory: map<string, real>): (b: nat)
    requires cs != []
    ensures b < |cs|
    ensures forall j :: 0 <= j < |cs| ==> Memory(memory, cs[j]) <= Memory(memory, cs[b])
    ensures forall j :: 0 <= j < b ==> Memory(memory, cs[j]) < Memory(memory, cs[b])
  {
    if |cs| == 1 then 0
    else
      var b := BestIndex(cs[..|cs| - 1], memory);
      if Memory(memory, cs[|cs| - 1]) > Memory(memory, cs[b]) then |cs| - 1 else b
  }

  /** `suggest_alliance`: the candidate with the best cooperation record, or none. */
  function SuggestAlliance(us: string, scores: Dict<real>, memory: map<string, real>): (r: Option<string>)
    ensures r.None? <==> forall i :: 0 <= i < |scores| ==> scores[i].0 == us || !(0.3 < scores[i].1 < 0.7)
    ensures r.Some? ==> r.value != us && exists i :: 0 <= i < |scores| && scores[i].0 == r.value && 0.3 < scores[i].1 < 0.7
    ensures r.Some? ==> forall i :: 0 <= i < |scores| && scores[i].0 != us && 0.3 < scores[i].1 < 0.7 ==>
                          Memory(memory, scores[i].0) <= Memory(memory, r.value)
  {
    var cs := Candidates(scores, us);
    if cs != [] then
      var b := BestIndex(cs, memory);
      assert cs[b] in cs;
      assert forall i :: 0 <= i < |scores| && scores[i].0 != us && 0.3 < scores[i].1 < 0.7 ==>
                 Memory(memory, scores[i].0) <= Memory(memory, cs[b]) by {
        forall i | 0 <= i < |scores| && scores[i].0 != us && 0.3 < scores[i].1 < 0.7
          ensures Memory(memory, scores[i].0) <= Memory(memory, cs[b])
        {
          assert scores[i].0 in cs;
          var j :| 0 <= j < |cs| && cs[j] == scores[i].0;
        }
      }
      Some(cs[b])
    else
      NoCandidates(scores, us);
      None
  }
}
