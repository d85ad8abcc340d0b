/**
 * The map connectivity graph and the two breadth-first searches over it
 * (ai_diplomacy/map_utils.py).
 *
 * `graph[a][b]` is the set of unit types ("A", "F") that can move between
 * territories `a` and `b`. Both levels are Python dicts, so the order in which
 * neighbours are visited is insertion order; they are modelled as `Dict`s.
 */
module MapGraph {
  import opened Wrappers
  import opened ODict
  import opened Seqs

  type Graph = Dict<Dict<set<string>>>

  /** `graph.get(a, {})`: the neighbour table of `a`. */
  function Row(g: Graph, a: string): Dict<set<string>>
  {
    GetOr(g, a, [])
  }

  /** `get_adjacent(a)` on the value of the graph. */
  function Adjacent(g: Graph, a: string): seq<string>
  {
    Keys(Row(g, a))
  }

  /** `get_allowed_units(a, b)` on the value of the graph. */
  function Units(g: Graph, a: string, b: string): set<string>
  {
    GetOr(Row(g, a), b, {})
  }

  /** `b` is listed as a neighbour of `a`, whatever its unit types. */
  predicate HasEdge(g: Graph, a: string, b: string)
  {
    HasKey(Row(g, a), b)
  }

  /** A unit of one of the `allowed` types can move from `a` to `b`. */
  predicate Traversable(g: Graph, allowed: set<string>, a: string, b: string)
  {
    HasEdge(g, a, b) && Units(g, a, b) * allowed != {}
  }

  /**
   * What every graph built by `add_edge` satisfies: dicts without repeated keys,
   * every neighbour is itself a node, and each edge is recorded in both
   * directions with the same unit types.
   */
  ghost predicate WellFormed(g: Graph)
  {
    DistinctKeys(g)
    && (forall a :: DistinctKeys(Row(g, a)))
    && (forall a, b | HasEdge(g, a, b) :: HasKey(g, b) && HasEdge(g, b, a) && Units(g, a, b) == Units(g, b, a))
  }

  /** `add_node` on the value of the graph. */
  function AddNodeTo(g: Graph, n: string): Graph
  {
    if HasKey(g, n) then g else Put(g, n, [])
  }

  /** `add_edge` on the value of the graph: both nodes, then `t` in both directions. */
  function AddEdgeTo(g: Graph, a: string, b: string, t: string): Graph
  {
    var g1 := AddNodeTo(AddNodeTo(g, a), b);
    var g2 := Put(g1, a, Put(Row(g1, a), b, Units(g1, a, b) + {t}));
    Put(g2, b, Put(Row(g2, b), a, Units(g2, b, a) + {t}))
  }

  /** Replacing the row of `a` changes what is read at `a` and nothing else. */
  lemma PutRow(g: Graph, a: string, row: Dict<set<string>>, x: string, y: string)
    ensures Row(Put(g, a, row), x) == if x == a then row else Row(g, x)
    ensures Units(Put(g, a, row), x, y) == if x == a then GetOr(row, y, {}) else Units(g, x, y)
    ensures HasKey(Put(g, a, row), x) <==> x == a || HasKey(g, x)
  {
    GetOrPut(g, a, row, x, []);
  }

  /** `add_node` keeps every node's adjacency and only ever adds `n` to the nodes. */
  lemma AddNodeKeeps(g: Graph, n: string, x: string)
    ensures Row(AddNodeTo(g, n), x) == Row(g, x)
    ensures HasKey(AddNodeTo(g, n), x) <==> x == n || HasKey(g, x)
  {
    if !HasKey(g, n) {
      PutRow(g, n, [], x, "");
    }
  }

  /** `add_node` is idempotent, and afterwards `n` is a node. */
  lemma AddNodeIdempotent(g: Graph, n: string)
    ensures AddNodeTo(AddNodeTo(g, n), n) == AddNodeTo(g, n)
    ensures HasKey(AddNodeTo(g, n), n)
  {
    AddNodeKeeps(g, n, n);
  }

  lemma AddNodeWellFormed(g: Graph, n: string)
    requires WellFormed(g)
    ensures WellFormed(AddNodeTo(g, n))
  {
    var g' := AddNodeTo(g, n);
    if !HasKey(g, n) {
      PutDistinct(g, n, []);
    }
    forall a
      ensures DistinctKeys(Row(g', a))
    {
      AddNodeKeeps(g, n, a);
    }
    forall a, b | HasEdge(g', a, b)
      ensures HasKey(g', b) && HasEdge(g', b, a) && Units(g', a, b) == Units(g', b, a)
    {
      AddNodeKeeps(g, n, a);
      AddNodeKeeps(g, n, b);
      assert HasEdge(g, a, b);
    }
  }

  /** The effect of adding one unit type to one direction of an edge. */
  lemma AddUnit(g: Graph, a: string, b: string, t: string, x: string, y: string)
    ensures var g' := Put(g, a, Put(Row(g, a), b, Units(g, a, b) + {t}));
      && Units(g', x, y) == (if x == a && y == b then Units(g, x, y) + {t} else Units(g, x, y))
      && (HasEdge(g', x, y) <==> HasEdge(g, x, y) || (x == a && y == b))
      && (HasKey(g', x) <==> HasKey(g, x) || x == a)
  {
    var row := Put(Row(g, a), b, Units(g, a, b) + {t});
    PutRow(g, a, row, x, y);
    GetOrPut(Row(g, a), b, Units(g, a, b) + {t}, y, {});
  }

  /**
   * `add_edge(a, b, t)` adds `t` to the unit types of `a`-`b` in both directions,
   * creates the edge in both directions, makes both ends nodes and changes no other pair.
   */
  lemma AddEdgeEffect(g: Graph, a: string, b: string, t: string, x: string, y: string)
    ensures var g' := AddEdgeTo(g, a, b, t);
      && Units(g', x, y) == (if (x == a && y == b) || (x == b && y == a) then Units(g, x, y) + {t} else Units(g, x, y))
      && (HasEdge(g', x, y) <==> HasEdge(g, x, y) || (x == a && y == b) || (x == b && y == a))
      && (HasKey(g', x) <==> HasKey(g, x) || x == a || x == b)
  {
    var g0 := AddNodeTo(g, a);
    var g1 := AddNodeTo(g0, b);
    var g2 := Put(g1, a, Put(Row(g1, a), b, Units(g1, a, b) + {t}));
    AddNodeKeeps(g, a, x);
    AddNodeKeeps(g0, b, x);
    AddNodeKeeps(g, a, b);
    AddNodeKeeps(g0, b, b);
    AddUnit(g1, a, b, t, x, y);
    AddUnit(g1, a, b, t, b, a);
    AddUnit(g2, b, a, t, x, y);
  }

  lemma AddEdgeWellFormed(g: Graph, a: string, b: string, t: string)
    requires WellFormed(g)
    ensures WellFormed(AddEdgeTo(g, a, b, t))
  {
    var g0 := AddNodeTo(g, a);
    var g1 := AddNodeTo(g0, b);
    AddNodeWellFormed(g, a);
    AddNodeWellFormed(g0, b);
    var row1 := Put(Row(g1, a), b, Units(g1, a, b) + {t});
    var g2 := Put(g1, a, row1);
    var row2 := Put(Row(g2, b), a, Units(g2, b, a) + {t});
    var g' := Put(g2, b, row2);
    AddNodeIdempotent(g, a);
    AddNodeKeeps(g0, b, a);
    PutDistinct(g1, a, row1);
    PutDistinct(g2, b, row2);
    forall x
      ensures DistinctKeys(Row(g', x))
    {
      PutRow(g1, a, row1, x, "");
      PutRow(g2, b, row2, x, "");
      if x == a {
        PutDistinct(Row(g1, a), b, Units(g1, a, b) + {t});
      }
      if x == b {
        PutRow(g1, a, row1, b, "");
        PutDistinct(Row(g2, b), a, Units(g2, b, a) + {t});
      }
    }
    forall x, y | HasEdge(g', x, y)
      ensures HasKey(g', y) && HasEdge(g', y, x) && Units(g', x, y) == Units(g', y, x)
    {
      AddEdgeEffect(g, a, b, t, x, y);
      AddEdgeEffect(g, a, b, t, y, x);
    }
  }

  class DiplomacyGraph {
    var graph: Graph

    ghost predicate Valid()
      reads this
    {
      WellFormed(graph)
    }

    constructor()
      ensures Valid() && graph == []
    {
      graph := [];
    }

    method AddNode(node: string)
      requires Valid()
      modifies this
      ensures Valid() && graph == AddNodeTo(old(graph), node)
    {
      AddNodeWellFormed(graph, node);
      if !HasKey(graph, node) {
        graph := Put(graph, node, []);
      }
    }

    method AddEdge(node1: string, node2: string, unitType: string)
      requires Valid()
      modifies this
      ensures Valid() && graph == AddEdgeTo(old(graph), node1, node2, unitType)
    {
      AddEdgeWellFormed(graph, node1, node2, unitType);
      AddNode(node1);
      AddNode(node2);
      AddDirected(node1, node2, unitType);
      AddDirected(node2, node1, unitType);
    }

    /** `graph[a][b].add(t)`, creating the set if needed. */
    method AddDirected(a: string, b: string, t: string)
      modifies this
      ensures graph == Put(old(graph), a, Put(Row(old(graph), a), b, Units(old(graph), a, b) + {t}))
    {
      var row := Row(graph, a);
      if !HasKey(row, b) {
        PutPut(row, b, {}, {t});
        GetOrPut(row, b, {}, b, {});
        assert {} + {t} == {t};
        row := Put(row, b, {});
      }
      graph := Put(graph, a, Put(row, b, GetOr(row, b, {}) + {t}));
    }

    function GetAdjacent(node: string): (r: seq<string>)
      reads this
      ensures !HasKey(graph, node) ==> r == []
      ensures forall b :: b in r <==> HasEdge(graph, node, b)
    {
      Adjacent(graph, node)
    }

    function GetAllowedUnits(node1: string, node2: string): (r: set<string>)
      reads this
      ensures !HasEdge(graph, node1, node2) ==> r == {}
      ensures r == Units(graph, node1, node2)
    {
      GetOr(GetOr(graph, node1, []), node2, {})
    }

    function Nodes(): (r: seq<string>)
      reads this
      ensures forall n :: n in r <==> HasKey(graph, n)
    {
      Keys(graph)
    }

    /**
     * `edges()`: one triple per unordered pair of neighbours, in the order the
     * pairs are first met, each carrying the unit types of its first direction.
     */
    method Edges() returns (es: seq<Edge>)
      requires Valid()
      ensures forall i, j | 0 <= i < j < |es| :: Pair(es[i]) != Pair(es[j])
      ensures forall i | 0 <= i < |es| :: HasEdge(graph, es[i].0, es[i].1) && es[i].2 == Units(graph, es[i].0, es[i].1)
      ensures forall a, b | HasEdge(graph, a, b) :: PairOf(a, b) in Pairs(es)
    {
      es := [];
      var seen: set<set<string>> := {};
      for i := 0 to |graph|
        invariant EdgesOk(graph, es, seen)
        invariant forall i', j' | 0 <= i' < i && 0 <= j' < |graph[i'].1| :: PairOf(graph[i'].0, graph[i'].1[j'].0) in seen
      {
        var (node1, row) := graph[i];
        GetAt(graph, i);
        assert Row(graph, node1) == row;
        es, seen := RowEdges(graph, node1, row, es, seen);
      }
      forall a, b | HasEdge(graph, a, b)
        ensures PairOf(a, b) in Pairs(es)
      {
        var i :| 0 <= i < |graph| && Keys(graph)[i] == a;
        GetAt(graph, i);
        var j :| 0 <= j < |graph[i].1| && Keys(graph[i].1)[j] == b;
        assert PairOf(graph[i].0, graph[i].1[j].0) in seen;
      }
    }
  }

  /** The inner loop of `edges()`: the pairs of one node's row. */
  method RowEdges(g: Graph, node1: string, row: Dict<set<string>>, es0: seq<Edge>, seen0: set<set<string>>)
    returns (es: seq<Edge>, seen: set<set<string>>)
    requires DistinctKeys(row) && row == Row(g, node1)
    requires EdgesOk(g, es0, seen0)
    ensures EdgesOk(g, es, seen) && seen0 <= seen
    ensures forall j' | 0 <= j' < |row| :: PairOf(node1, row[j'].0) in seen
  {
    es, seen := es0, seen0;
    for j := 0 to |row|
      invariant EdgesOk(g, es, seen) && seen0 <= seen
      invariant forall j' | 0 <= j' < j :: PairOf(node1, row[j'].0) in seen
    {
      ghost var seenBefore := seen;
      var (node2, unitTypes) := row[j];
      GetAt(row, j);
      assert HasEdge(g, node1, node2) by { assert Keys(row)[j] == node2; }
      var key := PairOf(node1, node2);
      if key !in seen {
        var e := (node1, node2, unitTypes);
        ListEdge(g, es, seen, e);
        es := es + [e];
        seen := seen + {key};
      }
      assert seenBefore <= seen && row[j].0 == node2 && key in seen;
      forall j' | 0 <= j' <= j
        ensures PairOf(node1, row[j'].0) in seen
      {
        if j' < j {
          assert PairOf(node1, row[j'].0) in seenBefore;
        }
      }
    }
  }

  /**
   * The invariant of `edges()`: `seen` holds the pairs listed so far, no pair is
   * listed twice, and each triple is an edge with its own unit types.
   */
  ghost predicate EdgesOk(g: Graph, es: seq<Edge>, seen: set<set<string>>)
  {
    seen == Pairs(es)
    && (forall k, l | 0 <= k < l < |es| :: Pair(es[k]) != Pair(es[l]))
    && (forall k | 0 <= k < |es| :: HasEdge(g, es[k].0, es[k].1) && es[k].2 == Units(g, es[k].0, es[k].1))
  }

  lemma ListEdge(g: Graph, es: seq<Edge>, seen: set<set<string>>, e: Edge)
    requires EdgesOk(g, es, seen) && Pair(e) !in seen
    requires HasEdge(g, e.0, e.1) && e.2 == Units(g, e.0, e.1)
    ensures EdgesOk(g, es + [e], seen + {Pair(e)})
  {
    PairsAppend(es, e);
    var t := es + [e];
    forall k, l | 0 <= k < l < |t|
      ensures Pair(t[k]) != Pair(t[l])
    {
      assert t[k] == es[k];
      if l < |es| {
        assert t[l] == es[l];
      }
    }
    forall k | 0 <= k < |t|
      ensures HasEdge(g, t[k].0, t[k].1) && t[k].2 == Units(g, t[k].0, t[k].1)
    {
      if k < |es| {
        assert t[k] == es[k];
      }
    }
  }

  type Edge = (string, string, set<string>)

  /** `tuple(sorted((node1, node2)))` identifies the same unordered pair as this set. */
  function PairOf(a: string, b: string): set<string>
  {
    {a, b}
  }

  function Pair(e: Edge): set<string>
  {
    PairOf(e.0, e.1)
  }

  /** The pairs already listed: the `seen` set of `edges()`. */
  function Pairs(es: seq<Edge>): set<set<string>>
  {
    if es == [] then {} else Pairs(es[..|es| - 1]) + {Pair(es[|es| - 1])}
  }

  lemma {:induction false} PairsListed(es: seq<Edge>, k: int)
    requires 0 <= k < |es|
    ensures Pair(es[k]) in Pairs(es)
  {
    if k < |es| - 1 {
      PairsListed(es[..|es| - 1], k);
    }
  }

  lemma PairsAppend(es: seq<Edge>, e: Edge)
    requires Pair(e) !in Pairs(es)
    ensures Pairs(es + [e]) == Pairs(es) + {Pair(e)}
    ensures forall k | 0 <= k < |es| :: Pair(es[k]) != Pair(e)
  {
    assert (es + [e])[..|es|] == es;
    forall k | 0 <= k < |es|
      ensures Pair(es[k]) != Pair(e)
    {
      PairsListed(es, k);
    }
  }

  /**
   * The moves the searches may make: from `a` to a neighbour `b` whose unit
   * types meet `allowed` (`edge_types.intersection(allowed_unit_types)` is non-empty).
   */
  ghost function Steps(g: Graph, allowed: set<string>): iset<(string, string)>
  {
    iset a, b | Traversable(g, allowed, a, b) :: (a, b)
  }

  lemma InSteps(g: Graph, allowed: set<string>, a: string, b: string)
    ensures (a, b) in Steps(g, allowed) <==> HasEdge(g, a, b) && Units(g, a, b) * allowed != {}
  {
    if (a, b) in Steps(g, allowed) {
      var a', b' :| Traversable(g, allowed, a', b') && (a', b') == (a, b);
    }
  }

  /** A sequence of territories from `start`, each step one of the moves `steps`. */
  ghost predicate Walk(steps: iset<(string, string)>, start: string, p: seq<string>)
  {
    |p| >= 1 && p[0] == start
    && forall k | 0 <= k < |p| - 1 :: (p[k], p[k + 1]) in steps
  }

  /** A walk that never visits a territory twice. */
  ghost predicate SimplePath(steps: iset<(string, string)>, start: string, p: seq<string>)
  {
    Walk(steps, start, p) && NoDuplicates(p)
  }

  function Last(p: seq<string>): string
    requires |p| > 0
  {
    p[|p| - 1]
  }

  /** No neighbour of `v`, whatever the unit types, is occupied. */
  ghost predicate Clear<V>(g: Graph, occupants: map<string, V>, v: string)
  {
    forall w | HasEdge(g, v, w) :: w !in occupants
  }

  /** The territories at which queued paths end: those still to be expanded. */
  function Ends(queue: seq<seq<string>>): set<string>
  {
    if queue == [] then {}
    else
      var last := queue[|queue| - 1];
      Ends(queue[..|queue| - 1]) + if |last| > 0 then {Last(last)} else {}
  }

  lemma EndsPush(queue: seq<seq<string>>, x: seq<string>)
    requires |x| > 0
    ensures Ends(queue + [x]) == Ends(queue) + {Last(x)}
  {
    assert (queue + [x])[..|queue|] == queue;
  }

  lemma {:induction false} EndsPop(queue: seq<seq<string>>)
    requires |queue| > 0 && |queue[0]| > 0
    ensures Ends(queue) == {Last(queue[0])} + Ends(queue[1..])
  {
    if |queue| > 1 {
      var init := queue[..|queue| - 1];
      assert init[0] == queue[0];
      EndsPop(init);
      assert init[1..] == queue[1..][..|queue| - 2];
    } else {
      assert queue[1..] == [];
    }
  }

  /** Every territory one move away from `v` has been visited. */
  ghost predicate Expanded(steps: iset<(string, string)>, visited: set<string>, v: string)
  {
    forall w {:trigger (v, w) in steps} | (v, w) in steps :: w in visited
  }

  /** Every queued path is a simple path from `start` through visited territories only. */
  ghost predicate Queued(steps: iset<(string, string)>, start: string, queue: seq<seq<string>>, visited: set<string>)
  {
    forall i | 0 <= i < |queue| ::
      SimplePath(steps, start, queue[i]) && forall k | 0 <= k < |queue[i]| :: queue[i][k] in visited
  }

  /** Every visited territory outside `except` is still queued or has been expanded. */
  ghost predicate Closed(steps: iset<(string, string)>, queue: seq<seq<string>>, visited: set<string>, except: set<string>)
  {
    forall v {:trigger Expanded(steps, visited, v)} | v in visited && v !in except && v !in Ends(queue) ::
      Expanded(steps, visited, v)
  }

  /** A set closed under the moves that holds the start holds the end of every walk. */
  lemma {:induction false} ClosedHoldsWalks(steps: iset<(string, string)>, start: string, visited: set<string>, p: seq<string>)
    requires start in visited
    requires Closed(steps, [], visited, {})
    requires Walk(steps, start, p)
    ensures Last(p) in visited
  {
    if |p| > 1 {
      var q := p[..|p| - 1];
      assert Walk(steps, start, q) by {
        forall k | 0 <= k < |q| - 1
          ensures (q[k], q[k + 1]) in steps
        {
          assert q[k] == p[k] && q[k + 1] == p[k + 1];
        }
      }
      ClosedHoldsWalks(steps, start, visited, q);
      assert (p[|p| - 2], p[|p| - 1]) in steps;
      assert Expanded(steps, visited, Last(q));
    }
  }

  /** Extending a simple path by an unvisited next move keeps it simple. */
  lemma ExtendPath(steps: iset<(string, string)>, start: string, p: seq<string>, visited: set<string>, n: string)
    requires SimplePath(steps, start, p)
    requires forall k | 0 <= k < |p| :: p[k] in visited
    requires n !in visited && (Last(p), n) in steps
    ensures SimplePath(steps, start, p + [n])
    ensures forall k | 0 <= k < |p + [n]| :: (p + [n])[k] in visited + {n}
  {
    var q := p + [n];
    forall k | 0 <= k < |q| - 1
      ensures (q[k], q[k + 1]) in steps
    {
      if k < |p| - 1 {
        assert q[k] == p[k] && q[k + 1] == p[k + 1];
      }
    }
    forall i, j | 0 <= i < j < |q|
      ensures q[i] != q[j]
    {
      if j < |p| {
        assert q[i] == p[i] && q[j] == p[j];
      } else {
        assert q[i] == p[i] && p[i] in visited;
      }
    }
  }

  /** Visiting one more node of `s` leaves one fewer unvisited. */
  lemma VisitOne(s: set<string>, visited: set<string>, n: string)
    requires n in s && n !in visited
    ensures |s - (visited + {n})| == |s - visited| - 1
  {
    assert s - (visited + {n}) == (s - visited) - {n};
  }

  /** Taking the head off the queue: its path is usable and only its end is left unaccounted for. */
  lemma Dequeue(steps: iset<(string, string)>, start: string, queue: seq<seq<string>>, visited: set<string>)
    requires |queue| > 0
    requires Queued(steps, start, queue, visited) && Closed(steps, queue, visited, {})
    ensures SimplePath(steps, start, queue[0]) && forall k | 0 <= k < |queue[0]| :: queue[0][k] in visited
    ensures Queued(steps, start, queue[1..], visited)
    ensures Closed(steps, queue[1..], visited, {Last(queue[0])})
    ensures Ends(queue) == {Last(queue[0])} + Ends(queue[1..])
  {
    assert SimplePath(steps, start, queue[0]);
    EndsPop(queue);
    forall i | 0 <= i < |queue| - 1
      ensures SimplePath(steps, start, queue[1..][i]) && forall k | 0 <= k < |queue[1..][i]| :: queue[1..][i][k] in visited
    {
      assert queue[1..][i] == queue[i + 1];
    }
    forall v | v in visited && v !in {Last(queue[0])} && v !in Ends(queue[1..])
      ensures Expanded(steps, visited, v)
    {
      assert v !in Ends(queue);
    }
  }

  /** Queueing `p + [n]` for an unvisited next move `n` from the end of `p`. */
  lemma Enqueue(steps: iset<(string, string)>, start: string, queue: seq<seq<string>>, visited: set<string>,
                except: set<string>, p: seq<string>, n: string)
    requires Queued(steps, start, queue, visited) && Closed(steps, queue, visited, except)
    requires SimplePath(steps, start, p) && forall k | 0 <= k < |p| :: p[k] in visited
    requires n !in visited && (Last(p), n) in steps
    ensures Queued(steps, start, queue + [p + [n]], visited + {n})
    ensures Closed(steps, queue + [p + [n]], visited + {n}, except)
    ensures Ends(queue + [p + [n]]) == Ends(queue) + {n}
    ensures SimplePath(steps, start, p + [n]) && Last(p + [n]) == n
  {
    ExtendPath(steps, start, p, visited, n);
    var q := queue + [p + [n]];
    forall i | 0 <= i < |q|
      ensures SimplePath(steps, start, q[i]) && forall k | 0 <= k < |q[i]| :: q[i][k] in visited + {n}
    {
      if i < |queue| {
        assert q[i] == queue[i];
      }
    }
    EndsPush(queue, p + [n]);
    forall v | v in visited + {n} && v !in except && v !in Ends(q)
      ensures Expanded(steps, visited + {n}, v)
    {
      assert v in visited && Expanded(steps, visited, v);
    }
  }

  /** Once every move out of `current` leads to a visited territory, `current` needs no exception. */
  lemma Expand(steps: iset<(string, string)>, queue: seq<seq<string>>, visited: set<string>, current: string)
    requires Closed(steps, queue, visited, {current})
    requires Expanded(steps, visited, current)
    ensures Closed(steps, queue, visited, {})
  {
    forall v | v in visited && v !in {} && v !in Ends(queue)
      ensures Expanded(steps, visited, v)
    {
      if v != current {
        assert v !in {current};
      }
    }
  }

  function KeySet(g: Graph): (r: set<string>)
    ensures forall n :: n in r <==> HasKey(g, n)
  {
    set i | 0 <= i < |g| :: g[i].0
  }

  /** The moves out of `a` are exactly the allowed edges out of `a`. */
  ghost predicate Links(steps: iset<(string, string)>, g: Graph, allowed: set<string>, a: string)
  {
    forall w {:trigger (a, w) in steps} :: (a, w) in steps <==> Traversable(g, allowed, a, w)
  }

  lemma StepsLink(g: Graph, allowed: set<string>, a: string)
    ensures Links(Steps(g, allowed), g, allowed, a)
  {
    forall w
      ensures (a, w) in Steps(g, allowed) <==> Traversable(g, allowed, a, w)
    {
      InSteps(g, allowed, a, w);
    }
  }

  /** In a well-formed graph every move leads to a node. */
  lemma StepsStayInside(g: Graph, allowed: set<string>, a: string)
    requires WellFormed(g)
    ensures forall w | (a, w) in Steps(g, allowed) :: w in KeySet(g)
  {
    forall w | (a, w) in Steps(g, allowed)
      ensures w in KeySet(g)
    {
      InSteps(g, allowed, a, w);
    }
  }

  /**
   * `bfs_shortest_path`: the first territory, in breadth-first order over allowed
   * moves, on which `matches` gives a (truthy) value, with the path to it.
   * `matches` returns None where the Python condition returns a falsy value.
   */
  method BfsShortestPath<V>(g: DiplomacyGraph, start: string, matches: string -> Option<V>, allowed: set<string>)
    returns (path: Option<seq<string>>, found: Option<V>)
    requires g.Valid()
    ensures !HasKey(g.graph, start) ==> path == None && found == None
    ensures HasKey(g.graph, start) && matches(start).Some? ==> path == Some([start]) && found == matches(start)
    ensures path.Some? ==>
      SimplePath(Steps(g.graph, allowed), start, path.value) && found.Some? && found == matches(Last(path.value))
    ensures path.None? ==> found.None?
    ensures path.None? && HasKey(g.graph, start) ==>
      forall p | Walk(Steps(g.graph, allowed), start, p) :: matches(Last(p)).None?
  {
    if !HasKey(g.graph, start) {
      return None, None;
    }
    var visited: set<string> := {start};
    var queue: seq<seq<string>> := [[start]];
    var initialMatch := matches(start);
    if initialMatch.Some? {
      return Some([start]), initialMatch;
    }
    ghost var steps := Steps(g.graph, allowed);
    ghost var nodes := KeySet(g.graph);
    EndsPush([], [start]);
    assert [] + [[start]] == queue;
    while queue != []
      invariant visited <= nodes && start in visited
      invariant forall v | v in visited :: matches(v).None?
      invariant Queued(steps, start, queue, visited)
      invariant Closed(steps, queue, visited, {})
      decreases |nodes - visited|, |queue|
    {
      Dequeue(steps, start, queue, visited);
      var p := queue[0];
      queue := queue[1..];
      StepsStayInside(g.graph, allowed, Last(p));
      StepsLink(g.graph, allowed, Last(p));
      queue, visited, path, found := ShortestFrom(g, steps, start, matches, allowed, p, queue, visited, nodes);
      if path.Some? {
        return;
      }
    }
    forall q | Walk(steps, start, q)
      ensures matches(Last(q)).None?
    {
      ClosedHoldsWalks(steps, start, visited, q);
    }
    return None, None;
  }

  /** One turn of the loop of `bfs_shortest_path`: the neighbours of the end of `p`. */
  method ShortestFrom<V>(g: DiplomacyGraph, ghost steps: iset<(string, string)>, ghost start: string,
                         matches: string -> Option<V>, allowed: set<string>,
                         p: seq<string>, queue0: seq<seq<string>>, visited0: set<string>, ghost nodes: set<string>)
    returns (queue: seq<seq<string>>, visited: set<string>, path: Option<seq<string>>, found: Option<V>)
    requires |p| > 0 && Links(steps, g.graph, allowed, Last(p))
    requires visited0 <= nodes && start in visited0
    requires forall v | v in visited0 :: matches(v).None?
    requires SimplePath(steps, start, p) && forall k | 0 <= k < |p| :: p[k] in visited0
    requires forall w | (Last(p), w) in steps :: w in nodes
    requires Queued(steps, start, queue0, visited0) && Closed(steps, queue0, visited0, {Last(p)})
    ensures path.Some? ==> SimplePath(steps, start, path.value) && found.Some? && found == matches(Last(path.value))
    ensures path.None? ==> found.None?
    ensures path.None? ==> visited0 <= visited <= nodes && start in visited
    ensures path.None? ==> forall v | v in visited :: matches(v).None?
    ensures path.None? ==> Queued(steps, start, queue, visited) && Closed(steps, queue, visited, {})
    ensures path.None? ==>
      |nodes - visited| < |nodes - visited0| || (|nodes - visited| == |nodes - visited0| && queue == queue0)
    ensures path.None? ==> Ends(queue0) <= Ends(queue) && visited <= visited0 + Ends(queue)
  {
    queue, visited := queue0, visited0;
    var current := p[|p| - 1];
    var neighbours := g.GetAdjacent(current);
    ghost var pushed := 0;
    for j := 0 to |neighbours|
      invariant Scan(steps, start, matches, p, nodes, visited0, queue0, neighbours, j, queue, visited, pushed)
    {
      var neighbour := neighbours[j];
      var edgeTypes := g.GetAllowedUnits(current, neighbour);
      assert (current, neighbour) in steps <==> edgeTypes * allowed != {} by {
        assert HasEdge(g.graph, current, neighbour);
      }
      if edgeTypes * allowed != {} && neighbour !in visited {
        ScanPush(steps, start, matches, p, nodes, visited0, queue0, neighbours, j, queue, visited, pushed);
        var newPath := p + [neighbour];
        var matchResult := matches(neighbour);
        if matchResult.Some? {
          return queue, visited + {neighbour}, Some(newPath), matchResult;
        }
        visited := visited + {neighbour};
        queue := queue + [newPath];
        pushed := pushed + 1;
      } else {
        ScanSkip(steps, start, matches, p, nodes, visited0, queue0, neighbours, j, queue, visited, pushed);
      }
    }
    forall w | (current, w) in steps
      ensures w in neighbours
    {
    }
    ScanDone(steps, start, matches, p, nodes, visited0, queue0, neighbours, queue, visited, pushed);
    path, found := None, None;
  }

  /**
   * The invariant of the inner loop of `bfs_shortest_path`, after the first `j`
   * neighbours of the end of `p`, with `pushed` paths queued so far.
   */
  ghost predicate Scan<V>(steps: iset<(string, string)>, start: string, matches: string -> Option<V>, p: seq<string>,
                          nodes: set<string>, visited0: set<string>, queue0: seq<seq<string>>, neighbours: seq<string>,
                          j: int, queue: seq<seq<string>>, visited: set<string>, pushed: int)
  {
    |p| > 0 && 0 <= j <= |neighbours|
    && SimplePath(steps, start, p)
    && (forall w | (Last(p), w) in steps :: w in nodes)
    && start in visited0 && visited0 <= visited <= nodes
    && 0 <= pushed && |nodes - visited| == |nodes - visited0| - pushed
    && (pushed == 0 ==> queue == queue0)
    && Ends(queue0) <= Ends(queue) && visited <= visited0 + Ends(queue)
    && (forall v | v in visited :: matches(v).None?)
    && (forall k | 0 <= k < |p| :: p[k] in visited)
    && Queued(steps, start, queue, visited)
    && Closed(steps, queue, visited, {Last(p)})
    && (forall k | 0 <= k < j :: (Last(p), neighbours[k]) in steps ==> neighbours[k] in visited)
  }

  lemma ScanSkip<V>(steps: iset<(string, string)>, start: string, matches: string -> Option<V>, p: seq<string>,
                    nodes: set<string>, visited0: set<string>, queue0: seq<seq<string>>, neighbours: seq<string>,
                    j: int, queue: seq<seq<string>>, visited: set<string>, pushed: int)
    requires Scan(steps, start, matches, p, nodes, visited0, queue0, neighbours, j, queue, visited, pushed)
    requires j < |neighbours|
    requires (Last(p), neighbours[j]) !in steps || neighbours[j] in visited
    ensures Scan(steps, start, matches, p, nodes, visited0, queue0, neighbours, j + 1, queue, visited, pushed)
  {
    forall k | 0 <= k < j + 1 && (Last(p), neighbours[k]) in steps
      ensures neighbours[k] in visited
    {
    }
    assert Closed(steps, queue, visited, {Last(p)});
  }

  lemma ScanPush<V>(steps: iset<(string, string)>, start: string, matches: string -> Option<V>, p: seq<string>,
                    nodes: set<string>, visited0: set<string>, queue0: seq<seq<string>>, neighbours: seq<string>,
                    j: int, queue: seq<seq<string>>, visited: set<string>, pushed: int)
    requires Scan(steps, start, matches, p, nodes, visited0, queue0, neighbours, j, queue, visited, pushed)
    requires j < |neighbours|
    requires (Last(p), neighbours[j]) in steps && neighbours[j] !in visited
    ensures SimplePath(steps, start, p + [neighbours[j]]) && Last(p + [neighbours[j]]) == neighbours[j]
    ensures matches(neighbours[j]).None? ==>
      Scan(steps, start, matches, p, nodes, visited0, queue0, neighbours, j + 1,
           queue + [p + [neighbours[j]]], visited + {neighbours[j]}, pushed + 1)
  {
    var n := neighbours[j];
    Enqueue(steps, start, queue, visited, {Last(p)}, p, n);
    VisitOne(nodes, visited, n);
    if matches(n).None? {
      forall k | 0 <= k < j + 1 && (Last(p), neighbours[k]) in steps
        ensures neighbours[k] in visited + {n}
      {
      }
      assert forall v | v in visited + {n} :: matches(v).None?;
      assert forall k | 0 <= k < |p| :: p[k] in visited + {n};
      assert Closed(steps, queue + [p + [n]], visited + {n}, {Last(p)});
      assert visited + {n} <= visited0 + Ends(queue + [p + [n]]);
    }
  }

  lemma ScanDone<V>(steps: iset<(string, string)>, start: string, matches: string -> Option<V>, p: seq<string>,
                    nodes: set<string>, visited0: set<string>, queue0: seq<seq<string>>, neighbours: seq<string>,
                    queue: seq<seq<string>>, visited: set<string>, pushed: int)
    requires Scan(steps, start, matches, p, nodes, visited0, queue0, neighbours, |neighbours|, queue, visited, pushed)
    requires forall w | (Last(p), w) in steps :: w in neighbours
    ensures visited0 <= visited <= nodes && start in visited
    ensures forall v | v in visited :: matches(v).None?
    ensures Queued(steps, start, queue, visited) && Closed(steps, queue, visited, {})
    ensures |nodes - visited| < |nodes - visited0| || (|nodes - visited| == |nodes - visited0| && queue == queue0)
    ensures Ends(queue0) <= Ends(queue) && visited <= visited0 + Ends(queue)
  {
    forall w | (Last(p), w) in steps
      ensures w in visited
    {
      var k :| 0 <= k < |neighbours| && neighbours[k] == w;
    }
    Expand(steps, queue, visited, Last(p));
  }

  /** Every visited territory that is no longer queued has no occupied neighbour. */
  ghost predicate Checked<V>(g: Graph, occupants: map<string, V>, queue: seq<seq<string>>, visited: set<string>)
  {
    forall v {:trigger Clear(g, occupants, v)} | v in visited && v !in Ends(queue) :: Clear(g, occupants, v)
  }

  /** The loop invariant of `bfs_nearest_adjacent`. */
  ghost predicate Search<V>(g: Graph, steps: iset<(string, string)>, occupants: map<string, V>, start: string,
                            nodes: set<string>, queue: seq<seq<string>>, visited: set<string>)
  {
    && visited <= nodes && start in visited
    && Queued(steps, start, queue, visited)
    && Closed(steps, queue, visited, {})
    && Checked(g, occupants, queue, visited)
    && (Clear(g, occupants, start) || queue == [[start]])
  }

  /** Expanding a clear territory keeps every finished territory clear. */
  lemma CheckedAfter<V>(g: Graph, occupants: map<string, V>, before: seq<seq<string>>, visited0: set<string>,
                        queue: seq<seq<string>>, visited: set<string>)
    requires |before| > 0 && |before[0]| > 0
    requires Checked(g, occupants, before, visited0) && Clear(g, occupants, Last(before[0]))
    requires Ends(before[1..]) <= Ends(queue) && visited <= visited0 + Ends(queue)
    ensures Checked(g, occupants, queue, visited)
  {
    EndsPop(before);
    forall v | v in visited && v !in Ends(queue)
      ensures Clear(g, occupants, v)
    {
      assert v in visited0 && v !in Ends(before[1..]);
      if v != Last(before[0]) {
        assert v !in Ends(before);
      }
    }
  }

  /** A condition that holds nowhere: the expansion half of `bfs_nearest_adjacent` checks none. */
  function NoMatch<V>(t: string): Option<V>
  {
    None
  }

  /**
   * `bfs_nearest_adjacent`: the first path, in breadth-first order over allowed
   * moves, whose end has an occupied neighbour (whatever the unit types of that
   * edge), with that neighbour and what `occupants` records for it.
   */
  method BfsNearestAdjacent<V>(g: DiplomacyGraph, start: string, occupants: map<string, V>, allowed: set<string>)
    returns (path: Option<seq<string>>, occupied: Option<(string, V)>)
    requires g.Valid()
    ensures occupants == map[] || !HasKey(g.graph, start) ==> path == None && occupied == None
    ensures path.Some? ==>
      SimplePath(Steps(g.graph, allowed), start, path.value) && occupied.Some?
      && occupied.value.0 in occupants && occupied.value.1 == occupants[occupied.value.0]
      && HasEdge(g.graph, Last(path.value), occupied.value.0)
    ensures path.None? ==> occupied.None?
    ensures occupants != map[] && HasKey(g.graph, start) && !Clear(g.graph, occupants, start) ==> path == Some([start])
    ensures path.None? && occupants != map[] && HasKey(g.graph, start) ==>
      forall p | Walk(Steps(g.graph, allowed), start, p) :: Clear(g.graph, occupants, Last(p))
  {
    if occupants == map[] || !HasKey(g.graph, start) {
      return None, None;
    }
    var visited: set<string> := {start};
    var queue: seq<seq<string>> := [[start]];
    ghost var steps := Steps(g.graph, allowed);
    ghost var nodes := KeySet(g.graph);
    EndsPush([], [start]);
    assert [] + [[start]] == queue;
    assert SimplePath(steps, start, [start]);
    while queue != []
      invariant Search(g.graph, steps, occupants, start, nodes, queue, visited)
      decreases |nodes - visited|, |queue|
    {
      queue, visited, path, occupied := NearestStep(g, steps, start, occupants, allowed, nodes, queue, visited);
      if path.Some? {
        return;
      }
    }
    assert Walk(steps, start, [start]);
    forall q | Walk(steps, start, q)
      ensures Clear(g.graph, occupants, Last(q))
    {
      ClosedHoldsWalks(steps, start, visited, q);
    }
    return None, None;
  }

  /** One turn of the loop of `bfs_nearest_adjacent`: the next queued path either ends
      next to an occupied territory or has its allowed moves queued. */
  method NearestStep<V>(g: DiplomacyGraph, ghost steps: iset<(string, string)>, ghost start: string,
                        occupants: map<string, V>, allowed: set<string>, ghost nodes: set<string>,
                        queue0: seq<seq<string>>, visited0: set<string>)
    returns (queue: seq<seq<string>>, visited: set<string>, path: Option<seq<string>>, occupied: Option<(string, V)>)
    requires g.Valid() && steps == Steps(g.graph, allowed) && nodes == KeySet(g.graph)
    requires queue0 != [] && Search(g.graph, steps, occupants, start, nodes, queue0, visited0)
    ensures path.Some? ==>
      SimplePath(steps, start, path.value) && occupied.Some?
      && occupied.value.0 in occupants && occupied.value.1 == occupants[occupied.value.0]
      && HasEdge(g.graph, Last(path.value), occupied.value.0)
    ensures !Clear(g.graph, occupants, start) ==> path == Some([start])
    ensures path.None? ==> occupied.None? && Search(g.graph, steps, occupants, start, nodes, queue, visited)
    ensures path.None? ==>
      |nodes - visited| < |nodes - visited0| || (|nodes - visited| == |nodes - visited0| && |queue| < |queue0|)
  {
    Dequeue(steps, start, queue0, visited0);
    var p := queue0[0];
    queue := queue0[1..];
    var current := p[|p| - 1];
    var hit := OccupiedNeighbour(g, current, occupants);
    if hit.Some? {
      return queue, visited0, Some(p), hit;
    }
    queue, visited := NearestExpand(g, steps, start, occupants, allowed, nodes, queue0, visited0);
    path, occupied := None, None;
  }

  /** The other half of a turn: the dequeued path ends in a clear territory and its
      allowed moves are queued, as in `bfs_shortest_path`. */
  method NearestExpand<V>(g: DiplomacyGraph, ghost steps: iset<(string, string)>, ghost start: string,
                          occupants: map<string, V>, allowed: set<string>, ghost nodes: set<string>,
                          queue0: seq<seq<string>>, visited0: set<string>)
    returns (queue: seq<seq<string>>, visited: set<string>)
    requires g.Valid() && steps == Steps(g.graph, allowed) && nodes == KeySet(g.graph)
    requires queue0 != [] && Search(g.graph, steps, occupants, start, nodes, queue0, visited0)
    requires Clear(g.graph, occupants, Last(queue0[0]))
    ensures Search(g.graph, steps, occupants, start, nodes, queue, visited)
    ensures |nodes - visited| < |nodes - visited0| || (|nodes - visited| == |nodes - visited0| && |queue| < |queue0|)
  {
    Dequeue(steps, start, queue0, visited0);
    var p := queue0[0];
    StepsStayInside(g.graph, allowed, Last(p));
    StepsLink(g.graph, allowed, Last(p));
    var none: Option<seq<string>>, nothing: Option<V>;
    queue, visited, none, nothing := ShortestFrom(g, steps, start, NoMatch, allowed, p, queue0[1..], visited0, nodes);
    CheckedAfter(g.graph, occupants, queue0, visited0, queue, visited);
  }

  /** The scan of `bfs_nearest_adjacent`: the first neighbour of `current`, in adjacency order, that is occupied. */
  method OccupiedNeighbour<V>(g: DiplomacyGraph, current: string, occupants: map<string, V>) returns (hit: Option<(string, V)>)
    ensures hit.None? ==> Clear(g.graph, occupants, current)
    ensures hit.Some? ==> hit.value.0 in occupants && hit.value.1 == occupants[hit.value.0]
    ensures hit.Some? ==> exists j | 0 <= j < |Adjacent(g.graph, current)| ::
      Adjacent(g.graph, current)[j] == hit.value.0 && forall k | 0 <= k < j :: Adjacent(g.graph, current)[k] !in occupants
  {
    var neighbours := g.GetAdjacent(current);
    for j := 0 to |neighbours|
      invariant forall k | 0 <= k < j :: neighbours[k] !in occupants
    {
      var neighbour := neighbours[j];
      if neighbour in occupants {
        return Some((neighbour, occupants[neighbour]));
      }
    }
    return None;
  }
}
