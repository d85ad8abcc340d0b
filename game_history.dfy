/**
 * The per-game record of phases, messages and orders
 * (`ai_diplomacy/game_history.py`): `Phase` keeps a phase's messages and the
 * orders and results of each power, `GameHistory` keeps the phases in the
 * order they were first named, and `get_game_history` renders what one
 * power may see of the last few phases.
 *
 * Each class method is specified by a pure function on `PhaseView`, a value
 * snapshot of a phase's fields; the dataclass comparison `phase ==
 * phases_to_report[-1]` is `SamePhase` on two snapshots.
 */
module History {
  import opened Wrappers
  import opened Text
  import opened ODict
  import opened Seqs
  import opened Powers

  datatype Message = Message(sender: string, recipient: string, content: string)

  /** The fields of a `Phase` at one moment. */
  datatype PhaseView = PhaseView(
    name: string,
    messages: seq<Message>,
    orders: Dict<seq<string>>,
    results: Dict<seq<seq<string>>>)

  function EmptyPhase(name: string): PhaseView
  {
    PhaseView(name, [], [], [])
  }

  // ---------------------------------------------------------------------
  // Global messages

  /** The messages addressed to everyone, in insertion order. */
  function GlobalOnly(ms: seq<Message>): (r: seq<Message>)
    ensures forall m :: m in r <==> m in ms && m.recipient == GLOBAL
  {
    if ms == [] then []
    else
      assert ms == ms[..|ms| - 1] + [ms[|ms| - 1]];
      GlobalOnly(ms[..|ms| - 1]) + (if ms[|ms| - 1].recipient == GLOBAL then [ms[|ms| - 1]] else [])
  }

  function GlobalLine(m: Message): string
  {
    " " + m.sender + ": " + m.content + "\n"
  }

  function RenderGlobal(ms: seq<Message>): string
  {
    if ms == [] then "" else RenderGlobal(ms[..|ms| - 1]) + GlobalLine(ms[|ms| - 1])
  }

  /** What `get_global_messages` returns. */
  function GlobalText(ms: seq<Message>): string
  {
    RenderGlobal(GlobalOnly(ms))
  }

  lemma RenderGlobalAppend(ms: seq<Message>, m: Message)
    ensures RenderGlobal(ms + [m]) == RenderGlobal(ms) + GlobalLine(m)
  {
    var mm := ms + [m];
    assert mm[..|mm| - 1] == ms;
  }

  lemma GlobalTextStep(ms: seq<Message>, i: nat)
    requires i < |ms|
    ensures GlobalText(ms[..i + 1]) == GlobalText(ms[..i]) + (if ms[i].recipient == GLOBAL then GlobalLine(ms[i]) else "")
  {
    assert ms[..i + 1][..i] == ms[..i];
    if ms[i].recipient == GLOBAL {
      RenderGlobalAppend(GlobalOnly(ms[..i]), ms[i]);
    } else {
      assert GlobalOnly(ms[..i + 1]) == GlobalOnly(ms[..i]) + [];
      assert GlobalOnly(ms[..i]) + [] == GlobalOnly(ms[..i]);
    }
  }

  /** The global text is empty exactly when no message is addressed to everyone. */
  lemma {:induction false} GlobalTextEmpty(ms: seq<Message>)
    ensures GlobalText(ms) == "" <==> forall i :: 0 <= i < |ms| ==> ms[i].recipient != GLOBAL
  {
    if GlobalText(ms) == "" {
      RenderGlobalEmpty(GlobalOnly(ms));
      forall i | 0 <= i < |ms|
        ensures ms[i].recipient != GLOBAL
      {
        assert ms[i] in ms;
      }
    } else {
      var g := GlobalOnly(ms);
      assert g != [];
      assert g[0] in g;
      var i :| 0 <= i < |ms| && ms[i] == g[0];
    }
  }

  lemma {:induction false} RenderGlobalEmpty(ms: seq<Message>)
    ensures RenderGlobal(ms) == "" <==> ms == []
  {
    if ms != [] {
      assert |GlobalLine(ms[|ms| - 1])| > 0;
    }
  }

  // ---------------------------------------------------------------------
  // Private messages

  /** The other party of a message in the power's private view, if it has one. */
  function Counterpart(m: Message, power: string): Option<string>
  {
    if m.sender == power && m.recipient != GLOBAL then Some(m.recipient)
    else if m.recipient == power then Some(m.sender)
    else None
  }

  /** Both branches of `get_private_messages` write the sender's name first. */
  function PrivateLine(m: Message): string
  {
    "  " + m.sender + ": " + m.content + "\n"
  }

  /** What `get_private_messages` returns: conversation text keyed by counterpart,
      counterparts in order of first appearance. */
  function Private(ms: seq<Message>, power: string): Dict<string>
  {
    if ms == [] then []
    else
      var d := Private(ms[..|ms| - 1], power);
      match Counterpart(ms[|ms| - 1], power)
      case None => d
      case Some(k) => Put(d, k, GetOr(d, k, "") + PrivateLine(ms[|ms| - 1]))
  }

  /** The messages of the conversation with `other`, in insertion order. */
  function ConversationWith(ms: seq<Message>, power: string, other: string): seq<Message>
  {
    if ms == [] then []
    else
      ConversationWith(ms[..|ms| - 1], power, other)
      + (if Counterpart(ms[|ms| - 1], power) == Some(other) then [ms[|ms| - 1]] else [])
  }

  function RenderPrivate(ms: seq<Message>): string
  {
    if ms == [] then "" else RenderPrivate(ms[..|ms| - 1]) + PrivateLine(ms[|ms| - 1])
  }

  lemma RenderPrivateAppend(ms: seq<Message>, m: Message)
    ensures RenderPrivate(ms + [m]) == RenderPrivate(ms) + PrivateLine(m)
  {
    var mm := ms + [m];
    assert mm[..|mm| - 1] == ms;
  }

  /** Grouping: the text under `other` is exactly the lines of the messages whose
      counterpart is `other`, in insertion order; every other key is absent. */
  lemma {:induction false} PrivateGrouping(ms: seq<Message>, power: string, other: string)
    ensures GetOr(Private(ms, power), other, "") == RenderPrivate(ConversationWith(ms, power, other))
    ensures HasKey(Private(ms, power), other) <==> ConversationWith(ms, power, other) != []
  {
    if ms != [] {
      var init, m := ms[..|ms| - 1], ms[|ms| - 1];
      PrivateGrouping(init, power, other);
      var d := Private(init, power);
      var c := ConversationWith(init, power, other);
      match Counterpart(m, power)
      case None =>
        assert Private(ms, power) == d;
        assert ConversationWith(ms, power, other) == c + [];
        assert c + [] == c;
      case Some(k) =>
        var line := GetOr(d, k, "") + PrivateLine(m);
        assert Private(ms, power) == Put(d, k, line);
        GetOrPut(d, k, line, other, "");
        if k == other {
          assert ConversationWith(ms, power, other) == c + [m];
          RenderPrivateAppend(c, m);
        } else {
          assert ConversationWith(ms, power, other) == c + [];
          assert c + [] == c;
        }
    }
  }

  /** A message lies in the conversation with `other` iff it is one of the power's
      messages whose counterpart is `other`. */
  lemma {:induction false} ConversationMembers(ms: seq<Message>, power: string, other: string)
    ensures forall m :: m in ConversationWith(ms, power, other) <==> m in ms && Counterpart(m, power) == Some(other)
  {
    if ms != [] {
      ConversationMembers(ms[..|ms| - 1], power, other);
      assert ms == ms[..|ms| - 1] + [ms[|ms| - 1]];
    }
  }

  /** No conversation at all exactly when no message is sent by the power to a named
      recipient or addressed to the power. */
  lemma {:induction false} PrivateEmpty(ms: seq<Message>, power: string)
    ensures Private(ms, power) == [] <==> forall i :: 0 <= i < |ms| ==> Counterpart(ms[i], power).None?
  {
    if ms != [] {
      var init, m := ms[..|ms| - 1], ms[|ms| - 1];
      PrivateEmpty(init, power);
      match Counterpart(m, power)
      case None =>
        forall i | 0 <= i < |ms| && Counterpart(ms[i], power).Some?
          ensures i < |init|
        {
        }
      case Some(k) =>
        assert Get(Private(ms, power), k).Some?;
    }
  }

  // ---------------------------------------------------------------------
  // Orders

  /** `results` extended with empty lists up to `n` entries; never shortened. */
  function Pad(results: seq<seq<string>>, n: nat): (r: seq<seq<string>>)
    ensures |r| == if |results| < n then n else |results|
    ensures r[..|results|] == results
    ensures forall k :: |results| <= k < |r| ==> r[k] == []
  {
    if |results| < n then results + seq(n - |results|, _ => []) else results
  }

  /** The effect of `Phase.add_orders` on a phase. */
  function PhaseAddOrders(v: PhaseView, power: string, orders: seq<string>, padded: seq<seq<string>>): PhaseView
  {
    v.(orders := Put(v.orders, power, GetOr(v.orders, power, []) + orders),
       results := Put(v.results, power, GetOr(v.results, power, []) + padded))
  }

  function PhaseAddMessage(v: PhaseView, m: Message): PhaseView
  {
    v.(messages := v.messages + [m])
  }

  /** Every power with orders has at least as many results as orders. */
  ghost predicate ResultsCover(v: PhaseView)
  {
    forall k :: HasKey(v.orders, k) ==> |GetOr(v.results, k, [])| >= |GetOr(v.orders, k, [])|
  }

  /** Padding keeps results in step with orders: `add_orders` preserves `ResultsCover`,
      and the power's orders and results grow by exactly what was passed in. */
  lemma AddOrdersCover(v: PhaseView, power: string, orders: seq<string>, results: seq<seq<string>>)
    requires ResultsCover(v)
    ensures var w := PhaseAddOrders(v, power, orders, Pad(results, |orders|));
      ResultsCover(w)
      && GetOr(w.orders, power, []) == GetOr(v.orders, power, []) + orders
      && GetOr(w.results, power, []) == GetOr(v.results, power, []) + Pad(results, |orders|)
  {
    var w := PhaseAddOrders(v, power, orders, Pad(results, |orders|));
    forall k | HasKey(w.orders, k)
      ensures |GetOr(w.results, k, [])| >= |GetOr(w.orders, k, [])|
    {
      if k != power {
        assert Get(w.orders, k) == Get(v.orders, k);
        assert Get(w.results, k) == Get(v.results, k);
      }
    }
  }

  function ResultSuffix(results: seq<seq<string>>, i: nat): string
  {
    if i < |results| && results[i] != [] then " (" + Join(", ", results[i]) + ")" else " (successful)"
  }

  function OrderLines(orders: seq<string>, results: seq<seq<string>>): string
  {
    if orders == [] then ""
    else OrderLines(orders[..|orders| - 1], results) + ("  " + orders[|orders| - 1] + ResultSuffix(results, |orders| - 1) + "\n")
  }

  function PowerBlocks(ob: Dict<seq<string>>, rb: Dict<seq<seq<string>>>): string
  {
    if ob == [] then ""
    else
      PowerBlocks(ob[..|ob| - 1], rb) + (ob[|ob| - 1].0 + ":\n")
      + OrderLines(ob[|ob| - 1].1, GetOr(rb, ob[|ob| - 1].0, [])) + "\n"
  }

  /** What `get_all_orders_formatted` returns. */
  function AllOrdersText(v: PhaseView): string
  {
    if v.orders == [] then "" else "\nOrders for " + v.name + ":\n" + PowerBlocks(v.orders, v.results)
  }

  /** The formatted orders are empty exactly when no power has submitted orders. */
  lemma AllOrdersTextEmpty(v: PhaseView)
    ensures AllOrdersText(v) == "" <==> v.orders == []
  {
    if v.orders != [] {
      var h := "\nOrders for " + v.name + ":\n";
      assert |h| > 0;
      assert |AllOrdersText(v)| >= |h|;
    }
  }

  /** An order whose results were padded in by `add_orders` is reported successful. */
  lemma PaddedOrderSuccessful(results: seq<seq<string>>, n: nat, i: nat)
    requires |results| <= i < n
    ensures ResultSuffix(Pad(results, n), i) == " (successful)"
  {
  }

  // ---------------------------------------------------------------------
  // The phase list

  predicate DistinctNames(vs: seq<PhaseView>)
  {
    forall i, j :: 0 <= i < j < |vs| ==> vs[i].name != vs[j].name
  }

  /** The first phase with that name. */
  function FindView(vs: seq<PhaseView>, name: string): (r: Option<nat>)
    ensures r.Some? ==> r.value < |vs| && vs[r.value].name == name
    ensures r.Some? ==> forall j :: 0 <= j < r.value ==> vs[j].name != name
    ensures r.None? ==> forall j :: 0 <= j < |vs| ==> vs[j].name != name
  {
    if vs == [] then None
    else if vs[0].name == name then Some(0)
    else match FindView(vs[1..], name)
      case None => None
      case Some(i) => Some(i + 1)
  }

  /** The phase list after `add_phase(name)`. */
  function WithPhase(vs: seq<PhaseView>, name: string): (r: seq<PhaseView>)
    ensures FindView(r, name).Some?
  {
    if FindView(vs, name).Some? then vs
    else
      var r := vs + [EmptyPhase(name)];
      assert r[|vs|].name == name;
      r
  }

  /** Find-or-create: a known name leaves the list as it is, an unknown one appends
      exactly one empty phase; either way names stay distinct. */
  lemma WithPhaseFindOrCreate(vs: seq<PhaseView>, name: string)
    ensures DistinctNames(vs) ==> DistinctNames(WithPhase(vs, name))
    ensures FindView(vs, name).Some? ==> WithPhase(vs, name) == vs
    ensures FindView(vs, name).None? ==> WithPhase(vs, name) == vs + [EmptyPhase(name)]
    ensures WithPhase(vs, name)[FindView(WithPhase(vs, name), name).value].name == name
  {
  }

  /** The phase list after `GameHistory.add_message`. */
  function AppendMessage(vs: seq<PhaseView>, name: string, m: Message): seq<PhaseView>
  {
    var ws := WithPhase(vs, name);
    var i := FindView(ws, name).value;
    ws[i := PhaseAddMessage(ws[i], m)]
  }

  /** The phase list after `GameHistory.add_orders`. */
  function AppendOrders(vs: seq<PhaseView>, name: string, power: string, orders: seq<string>, padded: seq<seq<string>>): seq<PhaseView>
  {
    var ws := WithPhase(vs, name);
    var i := FindView(ws, name).value;
    ws[i := PhaseAddOrders(ws[i], power, orders, padded)]
  }

  /** Updating the located phase without renaming it keeps names distinct. */
  lemma AppendKeepsNames(vs: seq<PhaseView>, name: string, before: PhaseView, after: PhaseView)
    requires DistinctNames(vs)
    requires before == WithPhase(vs, name)[FindView(WithPhase(vs, name), name).value]
    requires after.name == before.name
    ensures var ws := WithPhase(vs, name);
      DistinctNames(ws[FindView(ws, name).value := after])
  {
    WithPhaseFindOrCreate(vs, name);
  }

  /** `add_message` appends exactly one message to the phase of that name (created
      empty when new) and changes no other phase. */
  lemma AppendMessageExactlyOne(vs: seq<PhaseView>, name: string, m: Message)
    requires DistinctNames(vs)
    ensures var r := AppendMessage(vs, name, m);
      DistinctNames(r)
      && |r| == |vs| + (if FindView(vs, name).Some? then 0 else 1)
      && (forall j :: 0 <= j < |vs| && vs[j].name != name ==> r[j] == vs[j])
      && match FindView(vs, name)
         case Some(i) => r[i] == vs[i].(messages := vs[i].messages + [m])
         case None => r[|vs|] == EmptyPhase(name).(messages := [m])
  {
    WithPhaseFindOrCreate(vs, name);
  }

  // ---------------------------------------------------------------------
  // get_game_history

  /** The dataclass `==` of two phases: the same name and messages, and dicts with
      the same key/value pairs (insertion order does not matter). */
  predicate SameDict<V(==)>(a: Dict<V>, b: Dict<V>)
  {
    (forall i | 0 <= i < |a| :: Get(b, a[i].0) == Get(a, a[i].0))
    && (forall i | 0 <= i < |b| :: Get(a, b[i].0) == Get(b, b[i].0))
  }

  predicate SamePhase(a: PhaseView, b: PhaseView)
  {
    a.name == b.name && a.messages == b.messages && SameDict(a.orders, b.orders) && SameDict(a.results, b.results)
  }

  /** With distinct names, the only phase equal to the last one is the last one. */
  lemma LatestOnlyLast(vs: seq<PhaseView>, i: nat)
    requires DistinctNames(vs) && i < |vs|
    ensures SamePhase(vs[i], vs[|vs| - 1]) <==> i == |vs| - 1
  {
  }

  /** The phase has something for the power to read. */
  predicate HasMessages(v: PhaseView, power: string)
  {
    GlobalText(v.messages) != "" || Private(v.messages, power) != []
  }

  /** The number of phases with something for the power to read. */
  function ActiveCount(vs: seq<PhaseView>, power: string): (r: nat)
    ensures r <= |vs|
  {
    if vs == [] then 0
    else ActiveCount(vs[..|vs| - 1], power) + (if HasMessages(vs[|vs| - 1], power) then 1 else 0)
  }

  /** A phase is silent for a power exactly when it has no global message and no
      message to or from the power. */
  lemma SilentPhase(v: PhaseView, power: string)
    ensures !HasMessages(v, power) <==>
      forall i :: 0 <= i < |v.messages| ==> v.messages[i].recipient != GLOBAL && Counterpart(v.messages[i], power).None?
  {
    GlobalTextEmpty(v.messages);
    PrivateEmpty(v.messages, power);
  }

  /** No phase counts exactly when none has something for the power. */
  lemma {:induction false} ActiveCountZero(vs: seq<PhaseView>, power: string)
    ensures ActiveCount(vs, power) == 0 <==> forall i :: 0 <= i < |vs| ==> !HasMessages(vs[i], power)
  {
    if vs != [] {
      ActiveCountZero(vs[..|vs| - 1], power);
    }
  }

  const Separator: string := "--------------------------------------------------"

  function PrivateSectionText(pr: Dict<string>): string
  {
    if pr == [] then ""
    else PrivateSectionText(pr[..|pr| - 1]) + (" " + pr[|pr| - 1].0 + ":\n\n") + (pr[|pr| - 1].1 + "\n")
  }

  /** `all(r == "" for r in rs)`. */
  predicate AllBlank(rs: seq<string>)
  {
    forall k | 0 <= k < |rs| :: rs[k] == ""
  }

  /** The history's test for a reported result: non-empty and not all blank. */
  function HistorySuffix(results: seq<seq<string>>, i: nat): string
  {
    if i < |results| && results[i] != [] && !AllBlank(results[i])
    then " (" + Join(", ", results[i]) + ")"
    else " (successful)"
  }

  function HistoryOrderLines(orders: seq<string>, results: seq<seq<string>>): string
  {
    if orders == [] then ""
    else HistoryOrderLines(orders[..|orders| - 1], results) + ("  " + orders[|orders| - 1] + HistorySuffix(results, |orders| - 1) + "\n")
  }

  function PowerOrdersText(power: string, orders: seq<string>, rb: Dict<seq<seq<string>>>): string
  {
    if orders == [] then power + ":\n" + "  (No orders)\n\n"
    else power + ":\n" + HistoryOrderLines(orders, GetOr(rb, power, [])) + "\n"
  }

  function OrdersSectionText(ob: Dict<seq<string>>, rb: Dict<seq<seq<string>>>): string
  {
    if ob == [] then ""
    else OrdersSectionText(ob[..|ob| - 1], rb) + PowerOrdersText(ob[|ob| - 1].0, ob[|ob| - 1].1, rb)
  }

  function GlobalSection(g: string): string
  {
    if g != "" then "\nGLOBAL:\n" + g else ""
  }

  function PrivateSection(pr: Dict<string>): string
  {
    if pr != [] then "\nPRIVATE:\n" + PrivateSectionText(pr) else ""
  }

  function OrdersSection(v: PhaseView): string
  {
    if v.orders != [] then "\nORDERS:\n" + OrdersSectionText(v.orders, v.results) else ""
  }

  /** A phase's part of the history text; phases without content are left out unless
      they are the latest reported one. */
  function PhaseText(v: PhaseView, power: string, isLatest: bool): string
  {
    var g := GlobalText(v.messages);
    var pr := Private(v.messages, power);
    if g != "" || pr != [] || isLatest then
      "\n" + v.name + ":\n" + GlobalSection(g) + PrivateSection(pr) + OrdersSection(v) + (Separator + "\n")
    else ""
  }

  function PhasesText(vs: seq<PhaseView>, power: string, latest: PhaseView): string
  {
    if vs == [] then ""
    else PhasesText(vs[..|vs| - 1], power, latest) + PhaseText(vs[|vs| - 1], power, SamePhase(vs[|vs| - 1], latest))
  }

  /** The reported phases, the last of them counting as the latest. */
  function ReportText(rep: seq<PhaseView>, power: string): string
  {
    if rep == [] then "" else PhasesText(rep, power, rep[|rep| - 1])
  }

  const Header: string := "COMMUNICATION HISTORY:\n"

  /** What `get_game_history(power, n)` returns. */
  function HistoryText(vs: seq<PhaseView>, power: string, n: int): string
  {
    if vs == [] then "COMMUNICATION HISTORY:\n\n(No game phases recorded yet)"
    else if ActiveCount(vs, power) == 0 then
      Header + ("\n" + power + " has not engaged in any diplomatic exchanges yet.\n")
    else
      var rep := PyTail(vs, n);
      var quiet := ActiveCount(rep, power) == 0;
      Header + EarlierNotice(power, rep, quiet) + ReportText(rep, power) + NoContentNote(power, quiet)
  }

  function EarlierNotice(power: string, rep: seq<PhaseView>, quiet: bool): string
  {
    if quiet then "\n" + power + " has messages in earlier phases, but none in the last " + NatToString(|rep|) + " phases.\n" else ""
  }

  function NoContentNote(power: string, quiet: bool): string
  {
    if quiet then "\nNote: No diplomatic communications to display for " + power + " in recent phases.\n" else ""
  }

  lemma HistoryTextActive(vs: seq<PhaseView>, power: string, n: int)
    requires vs != [] && ActiveCount(vs, power) != 0
    ensures var rep := PyTail(vs, n);
      var quiet := ActiveCount(rep, power) == 0;
      HistoryText(vs, power, n) == Header + EarlierNotice(power, rep, quiet) + ReportText(rep, power) + NoContentNote(power, quiet)
  {
  }

  /** When some reported phase has something for the power, the text is the header
      followed by the report of the window, with neither notice. */
  lemma HistoryTextRecent(vs: seq<PhaseView>, power: string, n: int, j: nat)
    requires j < |PyTail(vs, n)| && HasMessages(PyTail(vs, n)[j], power)
    ensures HistoryText(vs, power, n) == Header + ReportText(PyTail(vs, n), power)
  {
    var rep := PyTail(vs, n);
    ActivePositive(rep, power, j);
    assert rep[j] == vs[|vs| - |rep| + j];
    ActivePositive(vs, power, |vs| - |rep| + j);
    HistoryTextActive(vs, power, n);
    assert EarlierNotice(power, rep, false) == [] && NoContentNote(power, false) == [];
    DropEmpty(Header, ReportText(rep, power));
  }

  lemma DropEmpty(a: string, b: string)
    ensures a + [] + b + [] == a + b
  {
  }

  lemma ActivePositive(vs: seq<PhaseView>, power: string, i: nat)
    requires i < |vs| && HasMessages(vs[i], power)
    ensures ActiveCount(vs, power) > 0
  {
    ActiveCountZero(vs, power);
  }

  /** When the power has messages only before the window, the report of the window
      is framed by the earlier-phases notice, naming the window's size, and the
      no-content note. */
  lemma HistoryTextQuiet(vs: seq<PhaseView>, power: string, n: int, i: nat)
    requires i < |vs| && HasMessages(vs[i], power)
    requires forall j :: 0 <= j < |PyTail(vs, n)| ==> !HasMessages(PyTail(vs, n)[j], power)
    ensures var rep := PyTail(vs, n);
      HistoryText(vs, power, n) ==
        Header + ("\n" + power + " has messages in earlier phases, but none in the last " + NatToString(|rep|) + " phases.\n")
        + ReportText(rep, power)
        + ("\nNote: No diplomatic communications to display for " + power + " in recent phases.\n")
  {
    ActivePositive(vs, power, i);
    ActiveCountZero(PyTail(vs, n), power);
    HistoryTextActive(vs, power, n);
  }

  /** With no phase recorded the history is the fixed notice. */
  lemma HistoryTextNoPhases(power: string, n: int)
    ensures HistoryText([], power, n) == "COMMUNICATION HISTORY:\n\n(No game phases recorded yet)"
  {
  }

  /** When no phase has anything for the power, the history says only that it has not
      engaged, whatever the window. */
  lemma HistoryTextSilent(vs: seq<PhaseView>, power: string, n: int)
    requires vs != [] && forall i :: 0 <= i < |vs| ==> !HasMessages(vs[i], power)
    ensures HistoryText(vs, power, n) == Header + ("\n" + power + " has not engaged in any diplomatic exchanges yet.\n")
  {
    ActiveCountZero(vs, power);
  }

  /** Earlier phases matter only through whether the power has any messages at all:
      two histories with the same reported phases render the same text. */
  lemma ReportsOnlyRecent(vs1: seq<PhaseView>, vs2: seq<PhaseView>, power: string, n: int)
    requires vs1 != [] && vs2 != [] && PyTail(vs1, n) == PyTail(vs2, n)
    requires ActiveCount(vs1, power) == 0 <==> ActiveCount(vs2, power) == 0
    ensures HistoryText(vs1, power, n) == HistoryText(vs2, power, n)
  {
  }

  lemma ContainsMiddle(a: string, b: string, c: string)
    ensures Contains(a + b + c, b)
  {
    assert (a + b + c)[|a|..|a| + |b|] == b;
    assert OccursAt(a + b + c, b, |a|);
  }

  lemma ContainsStart(a: string, b: string, c: string, t: string)
    requires StartsWith(b, t)
    ensures Contains(a + b + c, t)
  {
    assert (a + b + c)[|a|..|a| + |t|] == b[..|t|];
    assert OccursAt(a + b + c, t, |a|);
  }

  /** A shown phase's text opens with its name. */
  lemma PhaseTextTitle(v: PhaseView, power: string, isLatest: bool)
    requires GlobalText(v.messages) != "" || Private(v.messages, power) != [] || isLatest
    ensures StartsWith(PhaseText(v, power, isLatest), "\n" + v.name + ":\n")
  {
    var title := "\n" + v.name + ":\n";
    var g := GlobalSection(GlobalText(v.messages));
    var p := PrivateSection(Private(v.messages, power));
    assert StartsWith(title, title);
    StartsWithAppend(title, g, title);
    StartsWithAppend(title + g, p, title);
    StartsWithAppend(title + g + p, OrdersSection(v), title);
    StartsWithAppend(title + g + p + OrdersSection(v), Separator + "\n", title);
  }

  /** The reported phases end with the latest one, shown in full. */
  lemma ReportEndsWithLatest(rep: seq<PhaseView>, power: string)
    requires rep != []
    ensures var last := rep[|rep| - 1];
      ReportText(rep, power) == PhasesText(rep[..|rep| - 1], power, last) + PhaseText(last, power, true)
  {
    var last := rep[|rep| - 1];
    assert SamePhase(last, last);
  }

  /** The latest reported phase is always shown under its name once the power has any
      messages at all. */
  lemma LatestPhaseShown(vs: seq<PhaseView>, power: string, n: int)
    requires ActiveCount(vs, power) > 0 && PyTail(vs, n) != []
    ensures var rep := PyTail(vs, n);
      Contains(HistoryText(vs, power, n), "\n" + rep[|rep| - 1].name + ":\n")
  {
    var rep := PyTail(vs, n);
    var last := rep[|rep| - 1];
    var quiet := ActiveCount(rep, power) == 0;
    HistoryTextActive(vs, power, n);
    ReportEndsWithLatest(rep, power);
    PhaseTextTitle(last, power, true);
    var pre := Header + EarlierNotice(power, rep, quiet);
    var front := PhasesText(rep[..|rep| - 1], power, last);
    var shown := PhaseText(last, power, true);
    var post := NoContentNote(power, quiet);
    assert HistoryText(vs, power, n) == pre + (front + shown) + post;
    assert pre + (front + shown) == (pre + front) + shown;
    ContainsStart(pre + front, shown, post, "\n" + last.name + ":\n");
  }

  // ---------------------------------------------------------------------
  // Classes

  class Phase {
    var name: string
    var messages: seq<Message>
    var ordersByPower: Dict<seq<string>>
    var resultsByPower: Dict<seq<seq<string>>>

    constructor(name: string)
      ensures View() == EmptyPhase(name)
    {
      this.name := name;
      messages := [];
      ordersByPower := [];
      resultsByPower := [];
    }

    function View(): PhaseView
      reads this
    {
      PhaseView(name, messages, ordersByPower, resultsByPower)
    }

    /** `add_message`: one message appended, nothing else changes. */
    method AddMessage(sender: string, recipient: string, content: string)
      modifies this
      ensures View() == PhaseAddMessage(old(View()), Message(sender, recipient, content))
    {
      messages := messages + [Message(sender, recipient, content)];
    }

    /** `add_orders`: the orders are appended to the power's list and the caller's
        results, padded with empty lists to the number of orders, to its results;
        the padded list is returned since the source extends the caller's list. */
    method AddOrders(power: string, orders: seq<string>, results: seq<seq<string>>) returns (padded: seq<seq<string>>)
      modifies this
      ensures padded == Pad(results, |orders|)
      ensures View() == PhaseAddOrders(old(View()), power, orders, padded)
    {
      ordersByPower := Put(ordersByPower, power, GetOr(ordersByPower, power, []) + orders);
      padded := results;
      if |results| < |orders| {
        padded := results + seq(|orders| - |results|, _ => []);
      }
      resultsByPower := Put(resultsByPower, power, GetOr(resultsByPower, power, []) + padded);
    }

    /** `get_global_messages`. */
    method GetGlobalMessages() returns (result: string)
      ensures result == GlobalText(messages)
    {
      result := "";
      for i := 0 to |messages|
        invariant result == GlobalText(messages[..i])
      {
        var msg := messages[i];
        GlobalTextStep(messages, i);
        if msg.recipient == GLOBAL {
          result := result + (" " + msg.sender + ": " + msg.content + "\n");
        }
      }
      assert messages[..|messages|] == messages;
    }

    /** `get_private_messages`. */
    method GetPrivateMessages(power: string) returns (conversations: Dict<string>)
      ensures conversations == Private(messages, power)
    {
      conversations := [];
      for i := 0 to |messages|
        invariant conversations == Private(messages[..i], power)
      {
        var msg := messages[i];
        assert messages[..i + 1][..i] == messages[..i];
        if msg.sender == power && msg.recipient != GLOBAL {
          conversations := Put(conversations, msg.recipient,
            GetOr(conversations, msg.recipient, "") + ("  " + power + ": " + msg.content + "\n"));
        } else if msg.recipient == power {
          conversations := Put(conversations, msg.sender,
            GetOr(conversations, msg.sender, "") + ("  " + msg.sender + ": " + msg.content + "\n"));
        }
      }
      assert messages[..|messages|] == messages;
    }

    /** `get_all_orders_formatted`. */
    method GetAllOrdersFormatted() returns (result: string)
      ensures result == AllOrdersText(View())
    {
      if ordersByPower == [] {
        return "";
      }
      var header := "\nOrders for " + name + ":\n";
      var body := "";
      for j := 0 to |ordersByPower|
        invariant body == PowerBlocks(ordersByPower[..j], resultsByPower)
      {
        var power := ordersByPower[j].0;
        var orders := ordersByPower[j].1;
        var results := GetOr(resultsByPower, power, []);
        var lines := FormatOrders(orders, results);
        assert ordersByPower[..j + 1][..j] == ordersByPower[..j];
        body := body + (power + ":\n") + lines + "\n";
      }
      assert ordersByPower[..|ordersByPower|] == ordersByPower;
      result := header + body;
    }
  }

  /** The inner loop of `get_all_orders_formatted`. */
  method FormatOrders(orders: seq<string>, results: seq<seq<string>>) returns (lines: string)
    ensures lines == OrderLines(orders, results)
  {
    lines := "";
    for i := 0 to |orders|
      invariant lines == OrderLines(orders[..i], results)
    {
      var resultStr := " (successful)";
      if i < |results| && results[i] != [] {
        resultStr := " (" + Join(", ", results[i]) + ")";
      }
      assert orders[..i + 1][..i] == orders[..i];
      lines := lines + ("  " + orders[i] + resultStr + "\n");
    }
    assert orders[..|orders|] == orders;
  }

  /** The snapshots of a list of phases. */
  function Views(ps: seq<Phase>): (r: seq<PhaseView>)
    reads ps
    ensures |r| == |ps| && forall i :: 0 <= i < |ps| ==> r[i] == ps[i].View()
  {
    seq(|ps|, i reads ps requires 0 <= i < |ps| => ps[i].View())
  }

  /** Snapshots depend only on the phases' own fields. */
  twostate lemma ViewsUnchanged(ps: seq<Phase>)
    requires forall p | p in ps :: unchanged(p)
    ensures Views(ps) == old(Views(ps))
  {
    assert forall i :: 0 <= i < |ps| ==> Views(ps)[i] == old(Views(ps))[i] by {
      forall i | 0 <= i < |ps|
        ensures Views(ps)[i] == old(Views(ps))[i]
      {
        assert ps[i] in ps;
      }
    }
  }

  lemma ViewsAppend(ps: seq<Phase>, p: Phase)
    ensures Views(ps + [p]) == Views(ps) + [p.View()]
  {
    assert forall i :: 0 <= i < |ps| ==> (ps + [p])[i] == ps[i];
  }

  lemma ViewsTail(ps: seq<Phase>, n: int)
    ensures Views(PyTail(ps, n)) == PyTail(Views(ps), n)
  {
  }

  class GameHistory {
    var phases: seq<Phase>
    /** The phase objects this history owns. */
    ghost var Repr: set<Phase>

    /** Every listed phase is owned, no phase object is listed twice, and no two phases
        share a name (`add_phase` only appends a phase whose name is new). */
    ghost predicate Valid()
      reads this, Repr
    {
      && (forall p | p in phases :: p in Repr)
      && (forall i, j | 0 <= i < j < |phases| :: phases[i] != phases[j])
      && DistinctNames(Views(phases))
    }

    constructor()
      ensures Valid() && phases == [] && fresh(Repr)
    {
      phases := [];
      Repr := {};
    }

    /** `add_phase`: the first phase of that name, or a new empty one appended. */
    method AddPhase(phaseName: string) returns (phase: Phase)
      requires Valid()
      modifies this
      ensures Valid()
      ensures Views(phases) == WithPhase(old(Views(phases)), phaseName)
      ensures FindView(Views(phases), phaseName).Some?
      ensures phase == phases[FindView(Views(phases), phaseName).value]
      ensures old(FindView(Views(phases), phaseName)).Some? ==> phases == old(phases)
      ensures old(FindView(Views(phases), phaseName)).None? ==> fresh(phase) && phases == old(phases) + [phase]
      ensures fresh(Repr - old(Repr))
    {
      ghost var vs := Views(phases);
      WithPhaseFindOrCreate(vs, phaseName);
      var found := Find(phaseName);
      if found.Some? {
        return phases[found.value];
      }
      phase := AppendPhase(phaseName);
    }

    /** The new empty phase of `add_phase`, appended. */
    method AppendPhase(phaseName: string) returns (phase: Phase)
      requires Valid() && FindView(Views(phases), phaseName).None?
      modifies this
      ensures Valid() && fresh(phase)
      ensures phases == old(phases) + [phase] && Repr == old(Repr) + {phase}
      ensures Views(phases) == old(Views(phases)) + [EmptyPhase(phaseName)]
    {
      ghost var ps := phases;
      phase := new Phase(phaseName);
      ViewsUnchanged(ps);
      phases := phases + [phase];
      Repr := Repr + {phase};
      ViewsAppend(ps, phase);
      WithPhaseFindOrCreate(old(Views(phases)), phaseName);
    }

    /** The search loop of `add_phase`: the position of the first phase of that name. */
    method Find(phaseName: string) returns (found: Option<nat>)
      ensures found == FindView(Views(phases), phaseName)
    {
      ghost var vs := Views(phases);
      for i := 0 to |phases|
        invariant forall j :: 0 <= j < i ==> vs[j].name != phaseName
      {
        if phases[i].name == phaseName {
          return Some(i);
        }
      }
      return None;
    }

    /** `add_message`: exactly one message appended to the named phase. */
    method AddMessage(phaseName: string, sender: string, recipient: string, content: string)
      requires Valid()
      modifies this, Repr
      ensures Valid()
      ensures Views(phases) == AppendMessage(old(Views(phases)), phaseName, Message(sender, recipient, content))
      ensures fresh(Repr - old(Repr))
    {
      ghost var vs := Views(phases);
      WithPhaseFindOrCreate(vs, phaseName);
      var phase := AddPhase(phaseName);
      ghost var ws := Views(phases);
      ghost var i := FindView(ws, phaseName).value;
      MessageInto(phase, i, sender, recipient, content);
      AppendKeepsNames(vs, phaseName, ws[i], Views(phases)[i]);
    }

    /** The message of `add_message` given to `phase`, the `i`-th phase. */
    method MessageInto(phase: Phase, ghost i: nat, sender: string, recipient: string, content: string)
      requires i < |phases| && phases[i] == phase
      requires forall j | 0 <= j < |phases| && j != i :: phases[j] != phase
      modifies phase
      ensures Views(phases) == old(Views(phases))[i := PhaseAddMessage(old(Views(phases))[i], Message(sender, recipient, content))]
    {
      phase.AddMessage(sender, recipient, content);
      forall j | 0 <= j < |phases| && j != i
        ensures Views(phases)[j] == old(Views(phases))[j]
      {
        assert phases[j] != phase;
      }
    }

    /** `add_orders`: the named phase's `add_orders`; the padded results are returned. */
    method AddOrders(phaseName: string, power: string, orders: seq<string>, results: seq<seq<string>>)
      returns (padded: seq<seq<string>>)
      requires Valid()
      modifies this, Repr
      ensures Valid()
      ensures padded == Pad(results, |orders|)
      ensures fresh(Repr - old(Repr))
      ensures Views(phases) == AppendOrders(old(Views(phases)), phaseName, power, orders, padded)
    {
      ghost var vs := Views(phases);
      WithPhaseFindOrCreate(vs, phaseName);
      var phase := AddPhase(phaseName);
      ghost var ws := Views(phases);
      ghost var i := FindView(ws, phaseName).value;
      padded := OrdersInto(phase, i, power, orders, results);
      AppendKeepsNames(vs, phaseName, ws[i], Views(phases)[i]);
    }

    /** The orders of `add_orders` given to `phase`, the `i`-th phase. */
    method OrdersInto(phase: Phase, ghost i: nat, power: string, orders: seq<string>, results: seq<seq<string>>)
      returns (padded: seq<seq<string>>)
      requires i < |phases| && phases[i] == phase
      requires forall j | 0 <= j < |phases| && j != i :: phases[j] != phase
      modifies phase
      ensures padded == Pad(results, |orders|)
      ensures Views(phases) == old(Views(phases))[i := PhaseAddOrders(old(Views(phases))[i], power, orders, padded)]
    {
      padded := phase.AddOrders(power, orders, results);
      forall j | 0 <= j < |phases| && j != i
        ensures Views(phases)[j] == old(Views(phases))[j]
      {
        assert phases[j] != phase;
      }
    }

    /** `get_game_history(power_name, num_prev_phases)`. */
    method GetGameHistory(powerName: string, numPrevPhases: int) returns (text: string)
      ensures text == HistoryText(Views(phases), powerName, numPrevPhases)
    {
      if phases == [] {
        return "COMMUNICATION HISTORY:\n\n(No game phases recorded yet)";
      }
      var toReport := PyTail(phases, numPrevPhases);
      ghost var vs := Views(phases);
      ghost var rep := Views(toReport);
      ViewsTail(phases, numPrevPhases);
      var total := CountActive(phases, powerName);
      ViewsUnchanged(phases);
      var recent := CountActive(toReport, powerName);
      ViewsUnchanged(phases);
      ViewsUnchanged(toReport);
      if total == 0 {
        return Header + ("\n" + powerName + " has not engaged in any diplomatic exchanges yet.\n");
      }
      var earlier := "";
      if recent == 0 {
        earlier := "\n" + powerName + " has messages in earlier phases, but none in the last " + NatToString(|toReport|) + " phases.\n";
      }
      text := Header + earlier;
      var body := RenderPhases(toReport, powerName);
      ViewsUnchanged(phases);
      ViewsUnchanged(toReport);
      text := text + body;
      var note := "";
      if recent == 0 {
        note := "\nNote: No diplomatic communications to display for " + powerName + " in recent phases.\n";
      }
      text := text + note;
      assert earlier == EarlierNotice(powerName, rep, recent == 0);
      assert note == NoContentNote(powerName, recent == 0);
      HistoryTextActive(vs, powerName, numPrevPhases);
    }
  }

  /** The counting loops of `get_game_history`. */
  method CountActive(ps: seq<Phase>, power: string) returns (count: nat)
    ensures count == ActiveCount(Views(ps), power)
  {
    count := 0;
    ghost var vs := Views(ps);
    for i := 0 to |ps|
      invariant count == ActiveCount(vs[..i], power)
    {
      var globalMsgs := ps[i].GetGlobalMessages();
      var privateMsgs := ps[i].GetPrivateMessages(power);
      assert vs[..i + 1][..i] == vs[..i];
      assert HasMessages(vs[i], power) == (globalMsgs != "" || privateMsgs != []);
      if globalMsgs != "" || privateMsgs != [] {
        count := count + 1;
      }
    }
    assert vs[..|ps|] == vs;
  }

  /** The rendering loop of `get_game_history` over the reported phases. */
  method RenderPhases(ps: seq<Phase>, power: string) returns (text: string)
    ensures text == ReportText(Views(ps), power)
  {
    text := "";
    if ps == [] {
      return;
    }
    var latest := ps[|ps| - 1];
    ghost var vs := Views(ps);
    ghost var last := vs[|ps| - 1];
    assert last == latest.View();
    for i := 0 to |ps|
      invariant text == PhasesText(vs[..i], power, last)
    {
      assert vs[i] == ps[i].View();
      var isLatest := SamePhaseOf(ps[i], latest);
      var phaseStr := RenderPhase(ps[i], power, isLatest);
      PhasesTextStep(vs, i, power, last);
      text := text + phaseStr;
    }
    assert vs[..|ps|] == vs;
  }

  lemma PhasesTextStep(vs: seq<PhaseView>, i: nat, power: string, latest: PhaseView)
    requires i < |vs|
    ensures PhasesText(vs[..i + 1], power, latest)
      == PhasesText(vs[..i], power, latest) + PhaseText(vs[i], power, SamePhase(vs[i], latest))
  {
    assert vs[..i + 1][..i] == vs[..i];
  }

  /** `phase == phases_to_report[-1]`. */
  method SamePhaseOf(a: Phase, b: Phase) returns (same: bool)
    ensures same == SamePhase(a.View(), b.View())
  {
    same := a.name == b.name && a.messages == b.messages
      && SameDict(a.ordersByPower, b.ordersByPower) && SameDict(a.resultsByPower, b.resultsByPower);
  }

  /** One phase of `get_game_history`. */
  method RenderPhase(phase: Phase, power: string, isLatest: bool) returns (phaseStr: string)
    ensures phaseStr == PhaseText(phase.View(), power, isLatest)
  {
    var globalMsgs := phase.GetGlobalMessages();
    var privateMsgs := phase.GetPrivateMessages(power);
    if !(globalMsgs != "" || privateMsgs != [] || isLatest) {
      return "";
    }
    phaseStr := "\n" + phase.name + ":\n";
    var globalPart := "";
    if globalMsgs != "" {
      globalPart := "\nGLOBAL:\n" + globalMsgs;
    }
    phaseStr := phaseStr + globalPart;
    var privatePart := "";
    if privateMsgs != [] {
      var section := RenderPrivateSection(privateMsgs);
      privatePart := "\nPRIVATE:\n" + section;
    }
    phaseStr := phaseStr + privatePart;
    var ordersPart := "";
    if phase.ordersByPower != [] {
      var orders := RenderOrdersSection(phase.ordersByPower, phase.resultsByPower);
      ordersPart := "\nORDERS:\n" + orders;
    }
    phaseStr := phaseStr + ordersPart;
    phaseStr := phaseStr + (Separator + "\n");
  }

  method RenderPrivateSection(pr: Dict<string>) returns (text: string)
    ensures text == PrivateSectionText(pr)
  {
    text := "";
    for j := 0 to |pr|
      invariant text == PrivateSectionText(pr[..j])
    {
      assert pr[..j + 1][..j] == pr[..j];
      text := text + (" " + pr[j].0 + ":\n\n");
      text := text + (pr[j].1 + "\n");
    }
    assert pr[..|pr|] == pr;
  }

  method RenderOrdersSection(ob: Dict<seq<string>>, rb: Dict<seq<seq<string>>>) returns (text: string)
    ensures text == OrdersSectionText(ob, rb)
  {
    text := "";
    for j := 0 to |ob|
      invariant text == OrdersSectionText(ob[..j], rb)
    {
      assert ob[..j + 1][..j] == ob[..j];
      var power := ob[j].0;
      var orders := ob[j].1;
      if orders == [] {
        text := text + (power + ":\n" + "  (No orders)\n\n");
      } else {
        var results := GetOr(rb, power, []);
        var lines := HistoryOrders(orders, results);
        text := text + (power + ":\n" + lines + "\n");
      }
    }
    assert ob[..|ob|] == ob;
  }

  method HistoryOrders(orders: seq<string>, results: seq<seq<string>>) returns (lines: string)
    ensures lines == HistoryOrderLines(orders, results)
  {
    lines := "";
    for i := 0 to |orders|
      invariant lines == HistoryOrderLines(orders[..i], results)
    {
      var resultStr := " (successful)";
      if i < |results| && results[i] != [] && !AllBlank(results[i]) {
        resultStr := " (" + Join(", ", results[i]) + ")";
      }
      assert orders[..i + 1][..i] == orders[..i];
      lines := lines + ("  " + orders[i] + resultStr + "\n");
    }
    assert orders[..|orders|] == orders;
  }
}
