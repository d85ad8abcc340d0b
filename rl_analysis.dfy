/**
 * The order extraction and order-type tally of the reinforcement-learning log analyser
 * (analyze_rl_json.py). A logged model response is turned into a list of order strings,
 * trying a `PARSABLE OUTPUT:` block, then the whole response as JSON, then a line-by-line
 * heuristic; the orders of successful order sets are then counted as convoys or supports
 * per model. The regular expression that finds the `PARSABLE OUTPUT:` block and
 * `json.loads` are parameters: `capture` gives the text of the bracketed list that the
 * pattern captures, if it matches, and `decode` is the JSON decoder.
 */
module RlAnalysis {
  import opened Wrappers
  import opened Text
  import opened ODict
  import opened Json

  /** The capture group of the `PARSABLE OUTPUT:` pattern, if the pattern matches. */
  type Capture = string -> Option<string>

  /** `str(item)` of every item. */
  function Strs(items: seq<Value>): (r: seq<string>)
    ensures |r| == |items| && forall i :: 0 <= i < |items| ==> r[i] == ToStr(items[i])
  {
    seq(|items|, i requires 0 <= i < |items| => ToStr(items[i]))
  }

  /** The text the extractor parses: a list's items joined by line breaks, a string
      itself, and nothing for any other value (lines 21-28). */
  function Processed(content: Value): (r: Option<string>)
    ensures r.None? <==> !content.List? && !content.Str?
    ensures content.Str? ==> r == Some(content.s)
    ensures content.List? ==> r == Some(Join("\n", Strs(content.items)))
  {
    match content
    case List(items) => Some(Join("\n", Strs(items)))
    case Str(s) => Some(s)
    case _ => None
  }

  /** `[x.strip() for x in xs if x.strip()]`. */
  function StrippedNonEmpty(xs: seq<string>): (r: seq<string>)
    ensures |r| <= |xs|
    ensures forall o :: o in r ==> o != [] && IsStripped(o)
  {
    if xs == [] then []
    else
      var o := Strip(xs[|xs| - 1]);
      StrippedNonEmpty(xs[..|xs| - 1]) + (if o != [] then [o] else [])
  }

  /** Every item with some text left after stripping is kept. */
  lemma {:induction false} StrippedKept(xs: seq<string>, i: nat)
    requires i < |xs| && Strip(xs[i]) != []
    ensures Strip(xs[i]) in StrippedNonEmpty(xs)
  {
    var init := xs[..|xs| - 1];
    if i < |xs| - 1 {
      assert xs[i] == init[i];
      StrippedKept(init, i);
    }
  }

  /** Every kept string is the stripped form of some item. */
  lemma {:induction false} StrippedFrom(xs: seq<string>, o: string)
    requires o in StrippedNonEmpty(xs)
    ensures exists i :: 0 <= i < |xs| && o == Strip(xs[i])
  {
    var init := xs[..|xs| - 1];
    if o != Strip(xs[|xs| - 1]) {
      StrippedFrom(init, o);
      var i :| 0 <= i < |init| && o == Strip(init[i]);
      assert init[i] == xs[i];
    }
  }

  /** `[str(o).strip() for o in items if str(o).strip()]`. */
  function Cleaned(items: seq<Value>): (r: seq<string>)
    ensures |r| <= |items|
    ensures forall o :: o in r ==> o != [] && IsStripped(o)
  {
    StrippedNonEmpty(Strs(items))
  }

  /** A JSON list is taken for orders only when every order is shorter than ten words. */
  predicate FewWords(orders: seq<string>)
  {
    forall i :: 0 <= i < |orders| ==> |Words(orders[i])| < 10
  }

  /** The orders of a decoded whole response (lines 43-56): the list under an object's
      "orders" key, or a top-level list when the word heuristic accepts it. */
  function TopLevel(data: Option<Value>): (r: Option<seq<string>>)
    ensures data.Some? && data.value.List? ==>
      (r.Some? <==> Cleaned(data.value.items) != [] && FewWords(Cleaned(data.value.items)))
    ensures data.Some? && data.value.List? && r.Some? ==> r.value == Cleaned(data.value.items)
    ensures data.None? ==> r.None?
  {
    match data
    case Some(Object(fields)) =>
      var orders := Get(fields, "orders");
      if orders.Some? && orders.value.List? then Some(Cleaned(orders.value.items)) else None
    case Some(List(items)) =>
      var p := Cleaned(items);
      if p != [] && FewWords(p) then Some(p) else None
    case _ => None
  }

  /** The line breaks of `str.splitlines`. */
  predicate IsLineBreak(c: char)
  {
    ('\n' <= c <= '\r') || ('\U{1C}' <= c <= '\U{1E}') || c == '\U{85}' || c == '\U{2028}' || c == '\U{2029}'
  }

  function NextBreak(s: string, i: nat): (j: nat)
    requires i <= |s|
    ensures i <= j <= |s|
    ensures j == |s| || IsLineBreak(s[j])
    decreases |s| - i
  {
    if i == |s| || IsLineBreak(s[i]) then i else NextBreak(s, i + 1)
  }

  /** The pieces between line breaks; `str.splitlines` counts `\r\n` as one break, which
      only adds empty pieces here, and those are dropped below. */
  function SplitLines(s: string): (r: seq<string>)
    ensures |r| >= 1
    decreases |s|
  {
    var j := NextBreak(s, 0);
    if j == |s| then [s] else [s[..j]] + SplitLines(s[j + 1..])
  }

  /** The line heuristic (lines 62-73): two to seven words, an army or fleet first, none of
      the markers of reasoning or JSON, not wrapped in brackets or braces. */
  predicate LooksLikeOrder(line: string)
  {
    var parts := Words(line);
    var up := Upper(line);
    && 2 <= |parts| <= 7
    && (Upper(parts[0]) == "A" || Upper(parts[0]) == "F")
    && !Contains(up, "REASONING:")
    && !Contains(up, "PARSABLE OUTPUT:")
    && !Contains(line, "{{}}")
    && !Contains(up, "\"ORDERS\":")
    && !(StartsWith(Strip(line), "[") && EndsWith(Strip(line), "]"))
    && !(StartsWith(Strip(line), "{") && EndsWith(Strip(line), "}"))
  }

  /** The lines the heuristic keeps, in order. */
  function LineOrders(lines: seq<string>): (r: seq<string>)
    ensures forall o :: o in r <==> o in lines && LooksLikeOrder(o)
    ensures |r| <= |lines|
  {
    if lines == [] then []
    else
      var init := lines[..|lines| - 1];
      var l := lines[|lines| - 1];
      assert forall o :: o in lines <==> o in init || o == l;
      LineOrders(init) + (if LooksLikeOrder(l) then [l] else [])
  }

  /** The filtering loop of lines 63-73. */
  method FilterOrderLines(lines: seq<string>) returns (orders: seq<string>)
    ensures orders == LineOrders(lines)
  {
    orders := [];
    for i := 0 to |lines|
      invariant orders == LineOrders(lines[..i])
    {
      assert lines[..i + 1][..i] == lines[..i];
      if LooksLikeOrder(lines[i]) {
        orders := orders + [lines[i]];
      }
    }
    assert lines[..|lines|] == lines;
  }

  /** The orders of the `PARSABLE OUTPUT:` block, when its capture decodes to a list. */
  function BlockOrders(text: string, capture: Capture, decode: Decoder): (r: Option<seq<string>>)
  {
    var g := capture(text);
    if g.Some? then
      var parsed := decode(g.value);
      if parsed.Some? && parsed.value.List? then Some(Cleaned(parsed.value.items)) else None
    else None
  }

  /** The orders of the whole response decoded as JSON, tried only when it starts with a
      brace or a bracket. */
  function WholeOrders(text: string, decode: Decoder): (r: Option<seq<string>>)
  {
    var t := Strip(text);
    if StartsWith(t, "{") || StartsWith(t, "[") then TopLevel(decode(text)) else None
  }

  /** `extract_orders_from_llm_response`. */
  function ExtractOrders(content: Value, capture: Capture, decode: Decoder): (r: seq<string>)
    ensures !content.List? && !content.Str? ==> r == []
    ensures forall o :: o in r ==> o != [] && IsStripped(o)
  {
    match Processed(content)
    case None => []
    case Some(text) =>
      var block := BlockOrders(text, capture, decode);
      if block.Some? then block.value
      else
        var whole := WholeOrders(text, decode);
        if whole.Some? then whole.value
        else LineOrders(StrippedNonEmpty(SplitLines(text)))
  }

  /** A block whose capture decodes to a list decides the result, even an empty one. */
  lemma BlockFirst(content: Value, capture: Capture, decode: Decoder, items: seq<Value>)
    requires Processed(content).Some?
    requires var g := capture(Processed(content).value); g.Some? && decode(g.value) == Some(List(items))
    ensures ExtractOrders(content, capture, decode) == Cleaned(items)
  {
    var text := Processed(content).value;
    assert BlockOrders(text, capture, decode) == Some(Cleaned(items));
  }

  /** A top-level list is taken only when it yields some order and all of them are short;
      otherwise the line heuristic decides. */
  lemma TopLevelListHeuristic(content: Value, capture: Capture, decode: Decoder, items: seq<Value>)
    requires Processed(content).Some?
    requires BlockOrders(Processed(content).value, capture, decode).None?
    requires StartsWith(Strip(Processed(content).value), "[")
    requires decode(Processed(content).value) == Some(List(items))
    ensures var text := Processed(content).value;
      ExtractOrders(content, capture, decode) ==
        if Cleaned(items) != [] && FewWords(Cleaned(items)) then Cleaned(items)
        else LineOrders(StrippedNonEmpty(SplitLines(text)))
  {
    var text := Processed(content).value;
    assert WholeOrders(text, decode) == TopLevel(Some(List(items)));
  }

  /** When no JSON path yields orders, the orders are exactly the response's non-empty
      stripped lines that look like orders. */
  lemma LineFallback(content: Value, capture: Capture, decode: Decoder, o: string)
    requires Processed(content).Some?
    requires BlockOrders(Processed(content).value, capture, decode).None?
    requires WholeOrders(Processed(content).value, decode).None?
    ensures o in ExtractOrders(content, capture, decode) <==>
      o in StrippedNonEmpty(SplitLines(Processed(content).value)) && LooksLikeOrder(o)
  {
  }

  /** The upper-cased words of an order, as the tally reads them. */
  function Parts(order: string): seq<string>
  {
    Words(Upper(order))
  }

  predicate IsUnit(w: string)
  {
    w == "A" || w == "F"
  }

  /** `F ENG C A LVP - BEL` (lines 185-188). */
  predicate IsConvoy(order: string)
  {
    var p := Parts(order);
    |p| == 7 && p[0] == "F" && p[2] == "C" && p[3] == "A" && p[5] == "-"
  }

  /** A support of a hold, written with or without the `H`, or of a move, checked only
      when the order is not a convoy (lines 191-206). */
  predicate IsSupport(order: string)
  {
    var p := Parts(order);
    && !IsConvoy(order)
    && |p| >= 4 && p[2] == "S" && IsUnit(p[0]) && IsUnit(p[3])
    && (|p| == 5 || (|p| == 6 && p[5] == "H") || (|p| == 7 && p[5] == "-" && |p[6]| > 0))
  }

  /** The parts of an order written as upper-case words separated by single spaces. */
  lemma PartsOfSpaced(ws: seq<string>)
    requires forall k :: 0 <= k < |ws| ==> ws[k] != [] && NoSpace(ws[k]) && Upper(ws[k]) == ws[k]
    ensures Parts(Join(" ", ws)) == ws
  {
    UpperJoin(ws);
    WordsOfSpaced(ws);
  }

  lemma {:induction false} UpperJoin(ws: seq<string>)
    requires forall k :: 0 <= k < |ws| ==> Upper(ws[k]) == ws[k]
    ensures Upper(Join(" ", ws)) == Join(" ", ws)
  {
    if |ws| > 1 {
      var init := ws[..|ws| - 1];
      UpperJoin(init);
      var a, b := Join(" ", init), ws[|ws| - 1];
      assert Upper(a + " " + b) == Upper(a) + Upper(" ") + Upper(b);
    }
  }

  /** The examples written beside the checks are classified as they say. */
  lemma ConvoyExample()
    ensures IsConvoy(Join(" ", ["F", "ENG", "C", "A", "LVP", "-", "BEL"]))
  {
    PartsOfSpaced(["F", "ENG", "C", "A", "LVP", "-", "BEL"]);
  }

  lemma SupportExample()
    ensures IsSupport(Join(" ", ["F", "ENG", "S", "F", "NTH"]))
  {
    PartsOfSpaced(["F", "ENG", "S", "F", "NTH"]);
  }

  lemma SupportHoldExample()
    ensures IsSupport(Join(" ", ["F", "ENG", "S", "F", "NTH", "H"]))
  {
    PartsOfSpaced(["F", "ENG", "S", "F", "NTH", "H"]);
  }

  lemma SupportMoveExample()
    ensures IsSupport(Join(" ", ["F", "ENG", "S", "F", "NTH", "-", "BEL"]))
  {
    PartsOfSpaced(["F", "ENG", "S", "F", "NTH", "-", "BEL"]);
  }

  lemma MoveExample()
    ensures !IsConvoy(Join(" ", ["A", "PAR", "-", "BUR"])) && !IsSupport(Join(" ", ["A", "PAR", "-", "BUR"]))
  {
    PartsOfSpaced(["A", "PAR", "-", "BUR"]);
  }

  function CountWhere(orders: seq<string>, convoy: bool): (n: nat)
    ensures n <= |orders|
  {
    if orders == [] then 0
    else
      var o := orders[|orders| - 1];
      var hit := if convoy then IsConvoy(o) else IsSupport(o);
      CountWhere(orders[..|orders| - 1], convoy) + (if hit then 1 else 0)
  }

  /** No order counts twice: convoys and supports together are at most the orders. */
  lemma {:induction false} CountsBounded(orders: seq<string>)
    ensures CountWhere(orders, true) + CountWhere(orders, false) <= |orders|
  {
    if orders != [] {
      CountsBounded(orders[..|orders| - 1]);
    }
  }

  /** The per-model counters of `model_order_stats`. */
  datatype OrderStats = OrderStats(convoys: nat, supports: nat, setsProcessed: nat)

  /** The inner loop of lines 181-210. */
  method CountOrders(orders: seq<string>) returns (convoys: nat, supports: nat)
    ensures convoys == CountWhere(orders, true) && supports == CountWhere(orders, false)
    ensures convoys + supports <= |orders|
  {
    convoys, supports := 0, 0;
    for i := 0 to |orders|
      invariant convoys == CountWhere(orders[..i], true) && supports == CountWhere(orders[..i], false)
    {
      assert orders[..i + 1][..i] == orders[..i];
      if IsConvoy(orders[i]) {
        convoys := convoys + 1;
      } else if IsSupport(orders[i]) {
        supports := supports + 1;
      }
    }
    assert orders[..|orders|] == orders;
    CountsBounded(orders);
  }

  /** One logged entry; a missing `llm_response` is `Null`, as `entry.get` gives `None`. */
  datatype Entry = Entry(responseType: Option<string>, model: Option<string>, success: Option<Value>, response: Value)

  /** `success is True`, or the string "success" in any case. */
  predicate IsSuccessful(success: Option<Value>)
  {
    success.Some? && (success.value == Bool(true) || (success.value.Str? && Lower(success.value.s) == "success"))
  }

  function GetOrUnknown(o: Option<string>, default: string): string
  {
    if o.Some? then o.value else default
  }

  /** The orders an entry contributes: those of a successful order-generation entry. */
  function EntryOrders(e: Entry, capture: Capture, decode: Decoder): (r: seq<string>)
    ensures r != [] ==> GetOrUnknown(e.responseType, "UNKNOWN_RESPONSE_TYPE") == "order_generation"
    ensures r != [] ==> IsSuccessful(e.success) && e.response != Null
  {
    if GetOrUnknown(e.responseType, "UNKNOWN_RESPONSE_TYPE") == "order_generation" && IsSuccessful(e.success) && e.response != Null
    then ExtractOrders(e.response, capture, decode)
    else []
  }

  /** `model_order_stats[model]` of the defaultdict: zeroed counters on first use. */
  function StatsOf(stats: map<string, OrderStats>, model: string): OrderStats
  {
    if model in stats then stats[model] else OrderStats(0, 0, 0)
  }

  /** The counters after one more set of orders. */
  function Counted(prev: OrderStats, convoys: nat, supports: nat): OrderStats
  {
    OrderStats(prev.convoys + convoys, prev.supports + supports, prev.setsProcessed + 1)
  }

  function Bump(stats: map<string, OrderStats>, model: string, orders: seq<string>): map<string, OrderStats>
  {
    stats[model := Counted(StatsOf(stats, model), CountWhere(orders, true), CountWhere(orders, false))]
  }

  /** The counters after a run of entries: an entry with extracted orders creates its
      model's counters on first use and adds to them. */
  function Tally(entries: seq<Entry>, capture: Capture, decode: Decoder): map<string, OrderStats>
  {
    if entries == [] then map[]
    else
      var stats := Tally(entries[..|entries| - 1], capture, decode);
      var e := entries[|entries| - 1];
      var orders := EntryOrders(e, capture, decode);
      if orders != [] then Bump(stats, GetOrUnknown(e.model, "UNKNOWN_MODEL"), orders) else stats
  }

  /** For every model, convoys and supports together never exceed the number of orders of
      the sets counted, and a model has counters only when some set of it was counted. */
  lemma {:induction false} TallyBounded(entries: seq<Entry>, capture: Capture, decode: Decoder, m: string)
    ensures m in Tally(entries, capture, decode) ==>
      var s := Tally(entries, capture, decode)[m];
      s.setsProcessed >= 1 && s.convoys + s.supports <= OrdersOf(entries, capture, decode, m)
  {
    if entries != [] {
      var init := entries[..|entries| - 1];
      TallyBounded(init, capture, decode, m);
      var e := entries[|entries| - 1];
      CountsBounded(EntryOrders(e, capture, decode));
    }
  }

  /** The number of orders extracted from the entries of model `m`. */
  function OrdersOf(entries: seq<Entry>, capture: Capture, decode: Decoder, m: string): nat
  {
    if entries == [] then 0
    else
      var e := entries[|entries| - 1];
      var n := if GetOrUnknown(e.model, "UNKNOWN_MODEL") == m then |EntryOrders(e, capture, decode)| else 0;
      OrdersOf(entries[..|entries| - 1], capture, decode, m) + n
  }

  /** Lines 178-210 for one successful set of orders. */
  method RecordOrderSet(stats: map<string, OrderStats>, model: string, orders: seq<string>) returns (r: map<string, OrderStats>)
    ensures r == Bump(stats, model, orders)
  {
    var before := StatsOf(stats, model);
    var convoys, supports := CountOrders(orders);
    r := stats[model := Counted(before, convoys, supports)];
  }

  /** The entry loop of lines 154-210. */
  method TallyEntries(entries: seq<Entry>, capture: Capture, decode: Decoder) returns (stats: map<string, OrderStats>)
    ensures stats == Tally(entries, capture, decode)
  {
    stats := map[];
    for i := 0 to |entries|
      invariant stats == Tally(entries[..i], capture, decode)
    {
      assert entries[..i + 1][..i] == entries[..i];
      var e := entries[i];
      var orders := EntryOrders(e, capture, decode);
      if orders != [] {
        stats := RecordOrderSet(stats, GetOrUnknown(e.model, "UNKNOWN_MODEL"), orders);
      }
    }
    assert entries[..|entries|] == entries;
  }
}
