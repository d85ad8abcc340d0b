/**
 * Order recovery and message parsing of the model clients
 * (`ai_diplomacy/clients.py`): turning a model's free-text reply into legal
 * orders for a power, and into addressed chat messages.
 *
 * The model's reply is a string supplied by the caller (the provider calls
 * return "" on failure). The regular-expression searches and the JSON /
 * Python-literal parsers are fields of a scanner value, so every statement
 * here holds for any behaviour of them.
 */
module Clients {
  import opened Wrappers
  import opened Text
  import opened ODict
  import opened Json
  import opened Seqs
  import opened Powers
  import ErrorStats

  /** `possible_orders`: each orderable location with its legal orders. */
  type PossibleOrders = Dict<seq<string>>

  // ---------------------------------------------------------------------
  // fallback_orders

  /** The first order ending in "H" (the hold test of the source). */
  function FirstHold(orders: seq<string>): (r: Option<nat>)
    ensures r.Some? ==> r.value < |orders| && EndsWith(orders[r.value], "H")
    ensures r.Some? ==> forall j :: 0 <= j < r.value ==> !EndsWith(orders[j], "H")
    ensures r.None? ==> forall j :: 0 <= j < |orders| ==> !EndsWith(orders[j], "H")
  {
    if orders == [] then None
    else if EndsWith(orders[0], "H") then Some(0)
    else match FirstHold(orders[1..])
      case None => None
      case Some(i) => Some(i + 1)
  }

  /** The order a location defaults to: its first hold, else its first order. */
  function DefaultOrder(orders: seq<string>): (r: string)
    requires orders != []
    ensures r in orders
    ensures (exists j :: 0 <= j < |orders| && EndsWith(orders[j], "H")) ==> EndsWith(r, "H")
    ensures !EndsWith(r, "H") ==> r == orders[0]
  {
    match FirstHold(orders)
    case Some(i) => orders[i]
    case None => orders[0]
  }

  /** The locations that have at least one legal order, in iteration order. */
  function NonEmptySlots(p: PossibleOrders): (r: PossibleOrders)
    ensures forall slot :: slot in r <==> slot in p && slot.1 != []
  {
    if p == [] then []
    else
      assert p[..|p| - 1] + [p[|p| - 1]] == p;
      NonEmptySlots(p[..|p| - 1]) + (if p[|p| - 1].1 != [] then [p[|p| - 1]] else [])
  }

  /** What `fallback_orders` returns (the specification of `FallbackOrders`). */
  function Fallback(p: PossibleOrders): seq<string>
  {
    if p == [] then []
    else Fallback(p[..|p| - 1]) + (if p[|p| - 1].1 != [] then [DefaultOrder(p[|p| - 1].1)] else [])
  }

  /** The fallback holds exactly one order per non-empty location, in location order:
      that location's first hold, else its first order. Empty locations contribute nothing. */
  lemma {:induction false} FallbackShape(p: PossibleOrders)
    ensures |Fallback(p)| == |NonEmptySlots(p)|
    ensures forall k :: 0 <= k < |Fallback(p)| ==> Fallback(p)[k] == DefaultOrder(NonEmptySlots(p)[k].1)
  {
    if p != [] {
      FallbackShape(p[..|p| - 1]);
    }
  }

  /** Every order `Fallback` picks is legal for some location. */
  lemma {:induction false} FallbackLegal(p: PossibleOrders)
    ensures forall o :: o in Fallback(p) ==> IsLegal(p, o)
  {
    if p != [] {
      FallbackLegal(p[..|p| - 1]);
      LegalExtend(p[..|p| - 1], p[|p| - 1]);
      assert p[..|p| - 1] + [p[|p| - 1]] == p;
      if p[|p| - 1].1 != [] {
        assert IsLegal(p, DefaultOrder(p[|p| - 1].1)) by {
          assert p[|p| - 1].1 == p[|p| - 1].1;
        }
      }
    }
  }

  /** `fallback_orders`: a deterministic default that never fails. */
  method FallbackOrders(possible: PossibleOrders) returns (fallback: seq<string>)
    ensures fallback == Fallback(possible)
    ensures |fallback| == |NonEmptySlots(possible)|
    ensures forall o :: o in fallback ==> IsLegal(possible, o)
  {
    fallback := [];
    for i := 0 to |possible|
      invariant fallback == Fallback(possible[..i])
    {
      var ordersList := possible[i].1;
      if ordersList != [] {
        fallback := fallback + [DefaultOrder(ordersList)];
      }
      assert possible[..i + 1][..i] == possible[..i];
    }
    assert possible[..|possible|] == possible;
    FallbackShape(possible);
    FallbackLegal(possible);
  }

  // ---------------------------------------------------------------------
  // _validate_orders

  /** `any(o in orders for orders in possible_orders.values())`. */
  predicate IsLegal(p: PossibleOrders, o: string)
  {
    exists i | 0 <= i < |p| :: o in p[i].1
  }

  lemma LegalExtend(p: PossibleOrders, slot: (string, seq<string>))
    ensures forall o :: IsLegal(p, o) ==> IsLegal(p + [slot], o)
    ensures forall o :: o in slot.1 ==> IsLegal(p + [slot], o)
  {
    forall o | IsLegal(p, o)
      ensures IsLegal(p + [slot], o)
    {
      var i :| 0 <= i < |p| && o in p[i].1;
      assert (p + [slot])[i] == p[i];
    }
    forall o | o in slot.1
      ensures IsLegal(p + [slot], o)
    {
      assert (p + [slot])[|p|] == slot;
    }
  }

  /** The stripped candidates, or None when one of them is not a string
      (its `.strip()` raises `AttributeError`). */
  function StripAll(moves: seq<Value>): Option<seq<string>>
  {
    if moves == [] then Some([])
    else match StripAll(moves[..|moves| - 1])
      case None => None
      case Some(init) => if moves[|moves| - 1].Str? then Some(init + [Strip(moves[|moves| - 1].s)]) else None
  }

  lemma {:induction false} StripAllPrefixFails(moves: seq<Value>, i: nat)
    requires i <= |moves| && StripAll(moves[..i]).None?
    ensures StripAll(moves).None?
    decreases |moves| - i
  {
    if i < |moves| {
      assert moves[..i + 1][..i] == moves[..i];
      StripAllPrefixFails(moves, i + 1);
    } else {
      assert moves[..i] == moves;
    }
  }

  /** The candidates found among the legal orders, in candidate order. */
  function Accepted(p: PossibleOrders, cands: seq<string>): seq<string>
  {
    if cands == [] then []
    else Accepted(p, cands[..|cands| - 1]) + (if IsLegal(p, cands[|cands| - 1]) then [cands[|cands| - 1]] else [])
  }

  /** The location an accepted order covers: its second word cut to three characters. */
  function CoveredLoc(o: string): Option<string>
  {
    var parts := Words(o);
    if |parts| >= 2 then Some(Take(parts[1], 3)) else None
  }

  function Covered(accepted: seq<string>): set<string>
  {
    if accepted == [] then {}
    else
      Covered(accepted[..|accepted| - 1])
      + (match CoveredLoc(accepted[|accepted| - 1]) case Some(l) => {l} case None => {})
  }

  /** The defaults added for the non-empty locations no accepted order covers. */
  function Fill(p: PossibleOrders, used: set<string>): seq<string>
  {
    if p == [] then []
    else
      Fill(p[..|p| - 1], used)
      + (if p[|p| - 1].0 !in used && p[|p| - 1].1 != [] then [DefaultOrder(p[|p| - 1].1)] else [])
  }

  /** The locations of `p` not covered by `used`. */
  function Uncovered(p: PossibleOrders, used: set<string>): (r: PossibleOrders)
    ensures forall k :: 0 <= k < |r| ==> r[k] in p && r[k].0 !in used
    ensures forall i :: 0 <= i < |p| && p[i].0 !in used ==> p[i] in r
  {
    if p == [] then []
    else
      assert p[|p| - 1] in p;
      Uncovered(p[..|p| - 1], used) + (if p[|p| - 1].0 !in used then [p[|p| - 1]] else [])
  }

  /** What `_validate_orders` returns (the specification of `ValidateOrders`);
      `Raised` when the debug line's `len(moves)` or a candidate's `.strip()` raises. */
  function Validate(moves: Value, p: PossibleOrders): Outcome<seq<string>>
  {
    if !HasLen(moves) then Raised
    else if !moves.List? then Returned(Fallback(p))
    else match StripAll(moves.items)
      case None => Raised
      case Some(cands) =>
        var accepted := Accepted(p, cands);
        var validated := accepted + Fill(p, Covered(accepted));
        if validated == [] then Returned(Fallback(p)) else Returned(validated)
  }

  /** Acceptance: a candidate is kept iff it is legal for some location (not
      necessarily its own). */
  lemma {:induction false} AcceptedExactly(p: PossibleOrders, cands: seq<string>)
    ensures forall o :: o in Accepted(p, cands) <==> o in cands && IsLegal(p, o)
  {
    if cands != [] {
      AcceptedExactly(p, cands[..|cands| - 1]);
      assert cands[..|cands| - 1] + [cands[|cands| - 1]] == cands;
    }
  }

  /** Coverage: the defaults added are exactly the fallback of the uncovered locations. */
  lemma {:induction false} FillIsFallbackOfUncovered(p: PossibleOrders, used: set<string>)
    ensures Fill(p, used) == Fallback(Uncovered(p, used))
  {
    if p != [] {
      var init, last := p[..|p| - 1], p[|p| - 1];
      FillIsFallbackOfUncovered(init, used);
      var u := Uncovered(init, used);
      if last.0 !in used {
        var v := u + [last];
        assert Uncovered(p, used) == v;
        assert v[..|v| - 1] == u;
        assert v[|v| - 1] == last;
        assert Fallback(v) == Fallback(u) + (if last.1 != [] then [DefaultOrder(last.1)] else []);
      } else {
        assert Uncovered(p, used) == u + [];
        assert u + [] == u;
      }
    }
  }

  lemma {:induction false} UncoveredNothing(p: PossibleOrders)
    ensures Uncovered(p, {}) == p
  {
    if p != [] {
      UncoveredNothing(p[..|p| - 1]);
      assert p[..|p| - 1] + [p[|p| - 1]] == p;
    }
  }

  /** Total rejection: when no candidate is accepted, the result is exactly `fallback_orders`. */
  lemma TotalRejection(moves: Value, p: PossibleOrders)
    requires moves.List? && StripAll(moves.items).Some?
    requires Accepted(p, StripAll(moves.items).value) == []
    ensures Validate(moves, p) == Returned(Fallback(p))
  {
    assert Covered([]) == {};
    FillIsFallbackOfUncovered(p, {});
    UncoveredNothing(p);
    assert [] + Fill(p, {}) == Fallback(p);
  }

  /** A value that is not a list (but has a length) also gives `fallback_orders`;
      one without a length makes the debug line raise. */
  lemma NonListValidate(moves: Value, p: PossibleOrders)
    requires !moves.List?
    ensures HasLen(moves) ==> Validate(moves, p) == Returned(Fallback(p))
    ensures !HasLen(moves) ==> Validate(moves, p) == Raised
  {
  }

  /** Whatever the candidates, every validated order is legal for some location. */
  lemma ValidateLegal(moves: Value, p: PossibleOrders)
    ensures Validate(moves, p).Returned? ==> forall o :: o in Validate(moves, p).value ==> IsLegal(p, o)
  {
    FallbackLegal(p);
    if moves.List? && StripAll(moves.items).Some? {
      var cands := StripAll(moves.items).value;
      var accepted := Accepted(p, cands);
      AcceptedExactly(p, cands);
      FillIsFallbackOfUncovered(p, Covered(accepted));
      UncoveredLegal(p, Covered(accepted));
      FallbackLegal(Uncovered(p, Covered(accepted)));
    }
  }

  lemma UncoveredLegal(p: PossibleOrders, used: set<string>)
    ensures forall o :: IsLegal(Uncovered(p, used), o) ==> IsLegal(p, o)
  {
    forall o | IsLegal(Uncovered(p, used), o)
      ensures IsLegal(p, o)
    {
      var u := Uncovered(p, used);
      var i :| 0 <= i < |u| && o in u[i].1;
      assert u[i] in p;
      var j :| 0 <= j < |p| && p[j] == u[i];
    }
  }

  /** The candidate loop of `_validate_orders`: the accepted orders and the locations
      they cover, or `Raised` at the first candidate that is not a string. */
  method AcceptCandidates(items: seq<Value>, possible: PossibleOrders)
    returns (r: Outcome<(seq<string>, set<string>)>)
    ensures StripAll(items).None? <==> r.Raised?
    ensures r.Returned? ==>
      (r.value.0 == Accepted(possible, StripAll(items).value) && r.value.1 == Covered(r.value.0))
  {
    var validated: seq<string> := [];
    var usedLocs: set<string> := {};
    ghost var cands: seq<string> := [];
    for i := 0 to |items|
      invariant StripAll(items[..i]) == Some(cands)
      invariant validated == Accepted(possible, cands)
      invariant usedLocs == Covered(validated)
    {
      var move := items[i];
      if !move.Str? {
        assert items[..i + 1][..i] == items[..i];
        StripAllPrefixFails(items, i + 1);
        return Raised;
      }
      var moveStr := Strip(move.s);
      StripAllStep(items, i);
      AcceptedStep(possible, cands, moveStr);
      cands := cands + [moveStr];
      if IsLegal(possible, moveStr) {
        CoveredStep(validated, moveStr);
        ghost var before := validated;
        validated := validated + [moveStr];
        var parts := Words(moveStr);
        if |parts| >= 2 {
          assert CoveredLoc(moveStr) == Some(Take(parts[1], 3));
          usedLocs := usedLocs + {Take(parts[1], 3)};
          assert usedLocs == Covered(before) + {CoveredLoc(moveStr).value};
        } else {
          assert CoveredLoc(moveStr) == None;
        }
      }
    }
    assert items[..|items|] == items;
    return Returned((validated, usedLocs));
  }

  lemma StripAllStep(items: seq<Value>, i: nat)
    requires i < |items| && items[i].Str? && StripAll(items[..i]).Some?
    ensures StripAll(items[..i + 1]) == Some(StripAll(items[..i]).value + [Strip(items[i].s)])
  {
    assert items[..i + 1][..i] == items[..i];
  }

  lemma AcceptedStep(p: PossibleOrders, c: seq<string>, x: string)
    ensures Accepted(p, c + [x]) == Accepted(p, c) + (if IsLegal(p, x) then [x] else [])
  {
    var cx := c + [x];
    assert cx[..|cx| - 1] == c;
  }

  lemma CoveredStep(a: seq<string>, x: string)
    ensures CoveredLoc(x).Some? ==> Covered(a + [x]) == Covered(a) + {CoveredLoc(x).value}
    ensures CoveredLoc(x).None? ==> Covered(a + [x]) == Covered(a)
  {
    var ax := a + [x];
    assert ax[..|ax| - 1] == a;
  }

  /** The fill loop of `_validate_orders`: the default of every non-empty location
      outside `used`, in location order. */
  method FillUncovered(possible: PossibleOrders, used: set<string>) returns (added: seq<string>)
    ensures added == Fill(possible, used)
  {
    added := [];
    for j := 0 to |possible|
      invariant added == Fill(possible[..j], used)
    {
      assert possible[..j + 1][..j] == possible[..j];
      var loc := possible[j].0;
      var ordersList := possible[j].1;
      if loc !in used && ordersList != [] {
        added := added + [DefaultOrder(ordersList)];
      }
    }
    assert possible[..|possible|] == possible;
  }

  /** `_validate_orders`: keep the legal candidates, then give every uncovered
      location its default; fall back when nothing at all was produced. */
  method ValidateOrders(moves: Value, possible: PossibleOrders) returns (r: Outcome<seq<string>>)
    ensures r == Validate(moves, possible)
  {
    if !HasLen(moves) {
      return Raised;
    }
    if !moves.List? {
      var f := FallbackOrders(possible);
      return Returned(f);
    }
    var accepted := AcceptCandidates(moves.items, possible);
    if accepted.Raised? {
      return Raised;
    }
    var added := FillUncovered(possible, accepted.value.1);
    var validated := accepted.value.0 + added;
    if validated == [] {
      var f := FallbackOrders(possible);
      return Returned(f);
    }
    return Returned(validated);
  }

  // ---------------------------------------------------------------------
  // _extract_moves

  /** The searches and parsers `_extract_moves` relies on. */
  datatype OrderScanner = OrderScanner(
    parsableOutput: string -> Option<string>,  // group 1 of `PARSABLE OUTPUT:\s*(\{[\s\S]*\})`
    parsableInline: string -> Option<string>,  // group 1 of `PARSABLE OUTPUT\s*\{(.*?)\}\s*$`
    fencedJson: string -> Option<string>,      // group 1 of a ```json fence holding `{...}`
    ordersList: string -> Option<string>,      // group 1 of `["']orders["']\s*:\s*\[([^\]]*)\]`
    decode: Decoder,                           // `json.loads`
    literalEval: Decoder)                      // `ast.literal_eval`

  /** The first of the three searches that matches, in the source's order. */
  function LocateCapture(raw: string, sc: OrderScanner): Option<string>
  {
    if sc.parsableOutput(raw).Some? then sc.parsableOutput(raw)
    else if sc.parsableInline(raw).Some? then sc.parsableInline(raw)
    else sc.fencedJson(raw)
  }

  /** Brace normalisation of a stripped capture: the result always opens with a brace. */
  function NormaliseBraces(captured: string): (r: string)
    ensures r != [] && r[0] == '{'
  {
    if StartsWith(captured, "{{") && EndsWith(captured, "}}") then
      assert captured[1] == '{' && captured[|captured| - 1] == '}' && captured[|captured| - 2] == '}';
      var inner := captured[1..|captured| - 1];
      assert inner[0] == '{';
      StripKeepsFirst(inner);
      Strip(inner)
    else if StartsWith(captured, "{") then captured
    else "{" + captured + "}"
  }

  /** A stripped object text wrapped in one extra brace pair loses exactly that pair. */
  lemma NormaliseDoubled(x: string)
    requires IsStripped(x) && |x| >= 2 && x[0] == '{' && x[|x| - 1] == '}'
    ensures NormaliseBraces("{" + x + "}") == x
  {
    var w := "{" + x + "}";
    assert StartsWith(w, "{{") by { assert w[..2] == "{{"; }
    assert EndsWith(w, "}}") by { assert w[|w| - 2..] == "}}"; }
    assert w[1..|w| - 1] == x;
    StripStripped(x);
  }

  /** A capture that opens with a single brace is used as it is; anything else is
      wrapped in one brace pair: it gains a closing brace and keeps its text between. */
  lemma NormaliseOtherwise(c: string)
    ensures StartsWith(c, "{") && !(StartsWith(c, "{{") && EndsWith(c, "}}")) ==> NormaliseBraces(c) == c
    ensures !StartsWith(c, "{") ==> NormaliseBraces(c) == "{" + c + "}"
    ensures !StartsWith(c, "{") ==> var r := NormaliseBraces(c);
      |r| == |c| + 2 && r[|r| - 1] == '}' && r[1..|r| - 1] == c
  {
    DoubleBraceOpens(c);
    if !StartsWith(c, "{") {
      var w := "{" + c + "}";
      assert w[1..|w| - 1] == c;
    }
  }

  lemma DoubleBraceOpens(c: string)
    ensures StartsWith(c, "{{") ==> StartsWith(c, "{")
  {
    if StartsWith(c, "{{") {
      assert c[..1] == c[..2][..1];
    }
  }

  lemma StripKeepsFirst(s: string)
    requires s != [] && !IsSpace(s[0])
    ensures Strip(s) != [] && Strip(s)[0] == s[0]
  {
    assert TrimStart(s) == s;
    var r := TrimEnd(s);
    assert r == s[..|r|];
    assert r != [] by {
      assert !IsSpace(s[0]);
    }
  }

  /** The JSON text `_extract_moves` hands to the decoder, if a search matched. */
  function JsonText(raw: string, sc: OrderScanner): (r: Option<string>)
    ensures r.Some? <==> LocateCapture(raw, sc).Some?
    ensures r.Some? ==> StartsWith(r.value, "{")
  {
    match LocateCapture(raw, sc)
    case None => None
    case Some(group) =>
      var t := NormaliseBraces(Strip(group));
      assert !IsSpace(t[0]);
      StripKeepsFirst(t);
      Some(Strip(t))
  }

  /** `_extract_moves`: the value under "orders" (Python `None` is `Null`), or `Raised`
      when the decoded JSON is not an object (its `.get` raises). */
  function ExtractMoves(raw: string, sc: OrderScanner): (r: Outcome<Value>)
    ensures LocateCapture(raw, sc).None? ==> r == Returned(Null)
  {
    match JsonText(raw, sc)
    case None => Returned(Null)
    case Some(jsonText) => MovesFromText(jsonText, sc)
  }

  /** The decoding half of `_extract_moves`, on the located JSON text. */
  function MovesFromText(jsonText: string, sc: OrderScanner): Outcome<Value>
  {
    if jsonText == [] then Returned(Null)
    else match sc.decode(jsonText)
      case Some(Object(fields)) => Returned(GetOr(fields, "orders", Null))
      case Some(_) => Raised
      case None => OrdersListFallback(jsonText, sc)
  }

  /** The bracket fallback: the `"orders": [...]` literal, kept only if it is a list. */
  function OrdersListFallback(jsonText: string, sc: OrderScanner): (r: Outcome<Value>)
    ensures r.Returned? && (r.value == Null || r.value.List?)
  {
    match sc.ordersList(jsonText)
    case None => Returned(Null)
    case Some(group) =>
      match sc.literalEval("[" + Strip(group) + "]")
      case Some(List(items)) => Returned(List(items))
      case _ => Returned(Null)
  }

  /** On a decoded object the result is the value under "orders" (`Null` when absent);
      any other decoded value makes `.get` raise. */
  lemma ExtractDecoded(raw: string, sc: OrderScanner, text: string, data: Value)
    requires JsonText(raw, sc) == Some(text) && sc.decode(text) == Some(data)
    ensures data.Object? ==> ExtractMoves(raw, sc) == Returned(GetOr(data.fields, "orders", Null))
    ensures !data.Object? ==> ExtractMoves(raw, sc) == Raised
  {
    assert ExtractMoves(raw, sc) == MovesFromText(text, sc);
    assert text != [];
  }

  /** When decoding fails only the literal-list fallback is tried, and it yields a list or nothing. */
  lemma ExtractUndecodable(raw: string, sc: OrderScanner, text: string)
    requires JsonText(raw, sc) == Some(text) && sc.decode(text).None?
    ensures ExtractMoves(raw, sc) == Returned(Null) || ExtractMoves(raw, sc).value.List?
    ensures sc.ordersList(text).None? ==> ExtractMoves(raw, sc) == Returned(Null)
  {
    assert ExtractMoves(raw, sc) == MovesFromText(text, sc);
    assert text != [];
  }

  // ---------------------------------------------------------------------
  // get_orders

  /** What `get_orders` decides: whether it counts an order-decoding error, and the orders. */
  function OrdersDecision(raw: string, sc: OrderScanner, p: PossibleOrders): (bool, seq<string>)
  {
    match ExtractMoves(raw, sc)
    case Raised => (true, Fallback(p))
    case Returned(moveList) =>
      if !Truthy(moveList) then (true, Fallback(p))
      else match Validate(moveList, p)
        case Raised => (true, Fallback(p))
        case Returned(orders) => (false, orders)
  }

  /** Whatever the model replies, `get_orders` returns only legal orders. */
  lemma OrdersAlwaysLegal(raw: string, sc: OrderScanner, p: PossibleOrders)
    ensures forall o :: o in OrdersDecision(raw, sc, p).1 ==> IsLegal(p, o)
  {
    FallbackLegal(p);
    var e := ExtractMoves(raw, sc);
    if e.Returned? {
      ValidateLegal(e.value, p);
    }
  }

  /** An error is counted exactly when the fallback was used because extraction or
      validation failed; a reply with no usable match is always counted. */
  lemma NoMatchCounts(raw: string, sc: OrderScanner, p: PossibleOrders)
    requires LocateCapture(raw, sc).None?
    ensures OrdersDecision(raw, sc, p) == (true, Fallback(p))
  {
  }

  /** `get_orders`: extraction, then validation; on an empty extraction or any
      exception, one `order_decoding_errors` count for `statsKey` (the model name)
      and the fallback. */
  method GetOrders(raw: string, sc: OrderScanner, possible: PossibleOrders,
                   stats: ErrorStats.Stats?, statsKey: string)
    returns (orders: seq<string>)
    modifies stats
    ensures orders == OrdersDecision(raw, sc, possible).1
    ensures stats != null && OrdersDecision(raw, sc, possible).0 ==>
      stats.counts == old(stats.counts)[statsKey := ErrorStats.Bumped(old(stats.Get(statsKey)), ErrorStats.OrderDecodingError)]
    ensures stats != null && !OrdersDecision(raw, sc, possible).0 ==> stats.counts == old(stats.counts)
  {
    var moveList := ExtractMoves(raw, sc);
    if moveList.Raised? || !Truthy(moveList.value) {
      if stats != null {
        stats.Bump(statsKey, ErrorStats.OrderDecodingError);
      }
      orders := FallbackOrders(possible);
      return;
    }
    var validated := ValidateOrders(moveList.value, possible);
    if validated.Raised? {
      if stats != null {
        stats.Bump(statsKey, ErrorStats.OrderDecodingError);
      }
      orders := FallbackOrders(possible);
      return;
    }
    orders := validated.value;
  }

  // ---------------------------------------------------------------------
  // get_conversation_reply (parsing half)

  /** A chat message as the client records it. */
  datatype Record = Record(sender: string, recipient: string, content: string)

  /** The searches `get_conversation_reply` relies on (each one `re.findall`). */
  datatype ChatScanner = ChatScanner(
    doubleBraced: string -> seq<string>,    // `\{\{(.*?)\}\}`
    parsableOutput: string -> seq<string>,  // `PARSABLE OUTPUT:\s*\{(.*?)\}`
    fencedJson: string -> seq<string>,      // a ```json fence
    decode: Decoder)                        // `json.loads`

  function Blocks(raw: string, cs: ChatScanner): seq<string>
  {
    if cs.doubleBraced(raw) != [] then cs.doubleBraced(raw)
    else if cs.parsableOutput(raw) != [] then cs.parsableOutput(raw)
    else cs.fencedJson(raw)
  }

  /** One block: skipped (a decode error or `AttributeError`), parsed into a record,
      or the `TypeError` of `recipient not in None` that escapes the call. */
  datatype BlockResult = Skipped | Parsed(rec: Record) | Fails

  /** The text of a block as it is handed to the decoder. */
  function BlockText(block: string): string
  {
    if StartsWith(Strip(block), "{") then Strip(block) else "{" + block + "}"
  }

  function ParseBlock(block: string, sender: string, active: Option<seq<string>>, decode: Decoder): BlockResult
  {
    match decode(BlockText(block))
    case None => Skipped
    case Some(data) => ParseData(data, sender, active)
  }

  /** The record built from one decoded block. */
  function ParseData(data: Value, sender: string, active: Option<seq<string>>): BlockResult
  {
    if !data.Object? then Skipped
    else
      var messageType := GetOr(data.fields, "message_type", Str("global"));
      var content := GetOr(data.fields, "content", Str(""));
      var recipient := GetOr(data.fields, "recipient", Str(GLOBAL));
      if !content.Str? || !recipient.Str? then Skipped
      else
        var isPrivate := messageType == Str("private");
        var upper := Upper(recipient.s);
        if isPrivate && active.None? then Fails
        else
          var resolved := if isPrivate && upper !in active.value then GLOBAL else upper;
          Parsed(Record(sender, resolved, Strip(content.s)))
  }

  lemma UpperIdempotent(s: string)
    ensures Upper(Upper(s)) == Upper(s)
  {
  }

  /** A block that does not decode, or decodes to something other than an object,
      is skipped. */
  lemma ParseBlockSkips(block: string, sender: string, active: Option<seq<string>>, decode: Decoder)
    requires decode(BlockText(block)).None? || !decode(BlockText(block)).value.Object?
    ensures ParseBlock(block, sender, active, decode) == Skipped
  {
  }

  /** A parsed record comes from the replying power, has stripped content and an
      upper-cased recipient; a private message never goes to a recipient outside
      the active powers other than GLOBAL. */
  lemma ParseBlockRecord(block: string, sender: string, active: Option<seq<string>>, decode: Decoder)
    requires ParseBlock(block, sender, active, decode).Parsed?
    ensures var rec := ParseBlock(block, sender, active, decode).rec;
      rec.sender == sender && IsStripped(rec.content) && Upper(rec.recipient) == rec.recipient
    ensures var data := decode(BlockText(block)).value;
      var rec := ParseBlock(block, sender, active, decode).rec;
      GetOr(data.fields, "message_type", Null) == Str("private") ==>
        rec.recipient == GLOBAL || rec.recipient in active.value
  {
    var data := decode(BlockText(block)).value;
    ParseDataShape(data, sender, active);
    ParseDataPrivate(data, sender, active);
  }

  lemma UpperGlobal()
    ensures Upper(GLOBAL) == GLOBAL
  {
  }

  lemma ParseDataShape(data: Value, sender: string, active: Option<seq<string>>)
    requires ParseData(data, sender, active).Parsed?
    ensures var rec := ParseData(data, sender, active).rec;
      rec.sender == sender && IsStripped(rec.content) && Upper(rec.recipient) == rec.recipient
  {
    var recipient := GetOr(data.fields, "recipient", Str(GLOBAL));
    UpperIdempotent(recipient.s);
    UpperGlobal();
  }

  lemma ParseDataPrivate(data: Value, sender: string, active: Option<seq<string>>)
    requires ParseData(data, sender, active).Parsed?
    ensures var rec := ParseData(data, sender, active).rec;
      GetOr(data.fields, "message_type", Null) == Str("private") ==>
        rec.recipient == GLOBAL || rec.recipient in active.value
  {
    var messageType := GetOr(data.fields, "message_type", Str("global"));
    assert GetOr(data.fields, "message_type", Null) == Str("private") ==> messageType == Str("private");
  }

  /** Defaults: without "content" the content is ""; without "recipient" and
      "message_type" the message is public. */
  lemma ParseBlockDefaults(block: string, sender: string, active: Option<seq<string>>, decode: Decoder)
    requires ParseBlock(block, sender, active, decode).Parsed?
    ensures var data := decode(BlockText(block)).value;
      var rec := ParseBlock(block, sender, active, decode).rec;
      (!HasKey(data.fields, "content") ==> rec.content == "")
      && (!HasKey(data.fields, "recipient") && !HasKey(data.fields, "message_type") ==> rec.recipient == GLOBAL)
  {
    assert Upper(GLOBAL) == GLOBAL;
    assert Strip("") == "";
  }

  /** The records of all blocks in order, or `Raised` when some block fails. */
  function ParseAll(blocks: seq<string>, sender: string, active: Option<seq<string>>, decode: Decoder): Outcome<seq<Record>>
  {
    if blocks == [] then Returned([])
    else match ParseAll(blocks[..|blocks| - 1], sender, active, decode)
      case Raised => Raised
      case Returned(init) =>
        match ParseBlock(blocks[|blocks| - 1], sender, active, decode)
        case Skipped => Returned(init)
        case Parsed(rec) => Returned(init + [rec])
        case Fails => Raised
  }

  lemma {:induction false} ParseAllPrefixFails(blocks: seq<string>, i: nat, sender: string, active: Option<seq<string>>, decode: Decoder)
    requires i <= |blocks| && ParseAll(blocks[..i], sender, active, decode).Raised?
    ensures ParseAll(blocks, sender, active, decode).Raised?
    decreases |blocks| - i
  {
    if i < |blocks| {
      assert blocks[..i + 1][..i] == blocks[..i];
      ParseAllPrefixFails(blocks, i + 1, sender, active, decode);
    } else {
      assert blocks[..i] == blocks;
    }
  }

  /** The records before deduplication (the specification of `GetConversationReply`). */
  function ReplyRecords(raw: string, sender: string, active: Option<seq<string>>, cs: ChatScanner): Outcome<seq<Record>>
  {
    if raw == "" then Returned([]) else ParseAll(Blocks(raw, cs), sender, active, cs.decode)
  }

  /** `list(set(json.dumps(m) for m in messages))` read back: the same records,
      each once, in an order the source leaves unspecified. */
  method Deduplicate(messages: seq<Record>) returns (r: seq<Record>)
    ensures NoDuplicates(r)
    ensures forall m :: m in r <==> m in messages
  {
    r := [];
    for i := 0 to |messages|
      invariant NoDuplicates(r)
      invariant forall m :: m in r <==> m in messages[..i]
    {
      assert messages[..i + 1] == messages[..i] + [messages[i]];
      if messages[i] !in r {
        r := r + [messages[i]];
      }
    }
    assert messages[..|messages|] == messages;
  }

  /** The parsing half of `get_conversation_reply`: the deduplicated records of the
      reply's blocks; an empty reply gives none. */
  method GetConversationReply(raw: string, sender: string, active: Option<seq<string>>, cs: ChatScanner)
    returns (r: Outcome<seq<Record>>)
    ensures r.Raised? <==> ReplyRecords(raw, sender, active, cs).Raised?
    ensures r.Returned? ==>
      (NoDuplicates(r.value) && forall m :: m in r.value <==> m in ReplyRecords(raw, sender, active, cs).value)
  {
    var messages: seq<Record> := [];
    if raw != "" {
      var parsed := ParseBlocks(Blocks(raw, cs), sender, active, cs.decode);
      if parsed.Raised? {
        return Raised;
      }
      messages := parsed.value;
    }
    var unique := Deduplicate(messages);
    return Returned(unique);
  }

  /** The loop of `get_conversation_reply` over the blocks. */
  method ParseBlocks(blocks: seq<string>, sender: string, active: Option<seq<string>>, decode: Decoder)
    returns (r: Outcome<seq<Record>>)
    ensures r == ParseAll(blocks, sender, active, decode)
  {
    var messages: seq<Record> := [];
    for i := 0 to |blocks|
      invariant ParseAll(blocks[..i], sender, active, decode) == Returned(messages)
    {
      assert blocks[..i + 1][..i] == blocks[..i];
      var b := ParseBlock(blocks[i], sender, active, decode);
      match b {
        case Skipped =>
        case Parsed(rec) => messages := messages + [rec];
        case Fails =>
          ParseAllPrefixFails(blocks, i + 1, sender, active, decode);
          return Raised;
      }
    }
    assert blocks[..|blocks|] == blocks;
    return Returned(messages);
  }

  // ---------------------------------------------------------------------
  // get_visible_messages_for_power and _truncate_text

  predicate VisibleTo(m: Record, power: string)
  {
    m.recipient == "ALL" || m.recipient == GLOBAL || m.sender == power || m.recipient == power
  }

  /** `get_visible_messages_for_power`: the broadcast messages and those the power
      sent or received, in their original order. */
  function VisibleMessages(messages: seq<Record>, power: string): (r: seq<Record>)
    ensures forall m :: m in r <==> m in messages && VisibleTo(m, power)
  {
    if messages == [] then []
    else
      var init := VisibleMessages(messages[..|messages| - 1], power);
      assert messages[..|messages| - 1] + [messages[|messages| - 1]] == messages;
      if VisibleTo(messages[|messages| - 1], power) then init + [messages[|messages| - 1]] else init
  }

  /** Filtering commutes with appending: later messages only ever add to the view. */
  lemma {:induction false} VisibleAppend(a: seq<Record>, b: seq<Record>, power: string)
    ensures VisibleMessages(a + b, power) == VisibleMessages(a, power) + VisibleMessages(b, power)
    decreases |b|
  {
    if b != [] {
      VisibleAppend(a, b[..|b| - 1], power);
      assert (a + b)[..|a + b| - 1] == a + b[..|b| - 1];
    } else {
      assert a + b == a;
    }
  }

  const TruncateLimit: nat := 500

  /** `_truncate_text`: text within the limit is unchanged; longer text keeps its first
      `maxLength` characters and ends by reporting its full length. */
  function TruncateText(text: string, maxLength: nat): (r: string)
    ensures |text| <= maxLength ==> r == text
    ensures |text| > maxLength ==>
      (StartsWith(r, text[..maxLength]) && |r| > maxLength && r[maxLength] == '.' && EndsWith(r, NatToString(|text|) + " chars]"))
  {
    if text == "" || |text| <= maxLength then text
    else
      var r := text[..maxLength] + "... [truncated, total length: " + NatToString(|text|) + " chars]";
      assert r[..maxLength] == text[..maxLength];
      r
  }
}
