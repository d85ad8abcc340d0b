/**
 * The conversation log of `ai_diplomacy/conversation_history.py`: the phases in
 * the order they were first mentioned, the public lines of each phase, and for
 * every power the lines it exchanged with each counterpart in each phase.
 *
 * The class keeps the three tables the source keeps; a ghost log of the
 * `add_message` calls made so far, replayed by `Replay`, is what they must
 * always equal, and the lemmas relate the replayed tables to the log directly.
 */
module Conversations {
  import opened Text
  import opened ODict
  import opened Seqs
  import opened Powers

  /** One call of `add_message(year_phase, power_name, message)`. */
  datatype Entry = Entry(phase: string, sender: string, recipient: string, content: string)

  /** The line `add_message` appends in each of the places it writes to. */
  function Line(sender: string, content: string): (r: string)
    ensures |r| > 0
  {
    "    " + sender + ": " + content + "\n"
  }

  /** One power's table: phase, then counterpart (in insertion order), then text. */
  type PowerLog = map<string, Dict<string>>

  /** `phases`, `global_history["GLOBAL"]` and `history_by_power`. */
  datatype Tables = Tables(phases: seq<string>, global: map<string, string>, byPower: map<string, PowerLog>)

  /** A `defaultdict` read: a missing key reads as the default. */
  function MapGetOr<K, V>(m: map<K, V>, k: K, default: V): V
  {
    if k in m then m[k] else default
  }

  /** `history_by_power[a][phase][b] += line`, creating the missing levels. */
  function AppendPair(h: map<string, PowerLog>, a: string, phase: string, b: string, line: string): map<string, PowerLog>
  {
    var ph := MapGetOr(h, a, map[]);
    var d := MapGetOr(ph, phase, []);
    h[a := ph[phase := Put(d, b, GetOr(d, b, "") + line)]]
  }

  /** What one `add_message` does to the tables. */
  function Step(t: Tables, e: Entry): Tables
  {
    var line := Line(e.sender, e.content);
    Tables(
      if e.phase in t.phases then t.phases else t.phases + [e.phase],
      if e.recipient == GLOBAL then t.global[e.phase := MapGetOr(t.global, e.phase, "") + line] else t.global,
      AppendPair(AppendPair(t.byPower, e.sender, e.phase, e.recipient, line), e.recipient, e.phase, e.sender, line))
  }

  /** The tables after the calls of `log`, from a fresh `ConversationHistory()`. */
  function Replay(log: seq<Entry>): Tables
  {
    if log == [] then Tables([], map[], map[])
    else Step(Replay(log[..|log| - 1]), log[|log| - 1])
  }

  lemma ReplayStep(log: seq<Entry>, e: Entry)
    ensures Replay(log + [e]) == Step(Replay(log), e)
  {
    assert (log + [e])[..|log|] == log;
  }

  // ---------------------------------------------------------------------
  // Reference definitions over the log

  ghost predicate Mentions(log: seq<Entry>, p: string)
  {
    exists i | 0 <= i < |log| :: log[i].phase == p
  }

  ghost predicate Involves(log: seq<Entry>, a: string)
  {
    exists i | 0 <= i < |log| :: log[i].sender == a || log[i].recipient == a
  }

  ghost predicate AnyGlobal(log: seq<Entry>)
  {
    exists i | 0 <= i < |log| :: log[i].recipient == GLOBAL
  }

  /** The public lines of phase `p`, in call order. */
  function GlobalLines(log: seq<Entry>, p: string): string
  {
    if log == [] then ""
    else
      var e := log[|log| - 1];
      GlobalLines(log[..|log| - 1], p) + (if e.phase == p && e.recipient == GLOBAL then Line(e.sender, e.content) else "")
  }

  /** The lines `a` exchanged with `b` in phase `p`, in call order: those `a` sent
      to `b` and those `b` sent to `a` (a message to oneself counts twice). */
  function PairLines(log: seq<Entry>, a: string, p: string, b: string): string
  {
    if log == [] then ""
    else
      var e := log[|log| - 1];
      PairLines(log[..|log| - 1], a, p, b)
      + (if e.phase == p && e.sender == a && e.recipient == b then Line(e.sender, e.content) else "")
      + (if e.phase == p && e.recipient == a && e.sender == b then Line(e.sender, e.content) else "")
  }

  /** `history_by_power[a][p][b]` read without creating entries. */
  function PairText(h: map<string, PowerLog>, a: string, p: string, b: string): string
  {
    if a in h && p in h[a] then GetOr(h[a][p], b, "") else ""
  }

  predicate HasPair(h: map<string, PowerLog>, a: string, p: string, b: string)
  {
    a in h && p in h[a] && HasKey(h[a][p], b)
  }

  // ---------------------------------------------------------------------
  // The log facts

  lemma LastOfLog(log: seq<Entry>)
    requires log != []
    ensures log == log[..|log| - 1] + [log[|log| - 1]]
  {
  }

  lemma MentionsStep(log: seq<Entry>, p: string)
    requires log != []
    ensures Mentions(log, p) <==> Mentions(log[..|log| - 1], p) || log[|log| - 1].phase == p
  {
    var init := log[..|log| - 1];
    if Mentions(log, p) && log[|log| - 1].phase != p {
      var i :| 0 <= i < |log| && log[i].phase == p;
      assert init[i].phase == p;
    }
    if Mentions(init, p) {
      var i :| 0 <= i < |init| && init[i].phase == p;
      assert log[i].phase == p;
    }
  }

  lemma InvolvesStep(log: seq<Entry>, a: string)
    requires log != []
    ensures Involves(log, a) <==> Involves(log[..|log| - 1], a) || log[|log| - 1].sender == a || log[|log| - 1].recipient == a
  {
    var init := log[..|log| - 1];
    var e := log[|log| - 1];
    if Involves(log, a) && e.sender != a && e.recipient != a {
      var i :| 0 <= i < |log| && (log[i].sender == a || log[i].recipient == a);
      assert init[i] == log[i];
    }
    if Involves(init, a) {
      var i :| 0 <= i < |init| && (init[i].sender == a || init[i].recipient == a);
      assert log[i] == init[i];
    }
  }

  lemma AnyGlobalStep(log: seq<Entry>)
    requires log != []
    ensures AnyGlobal(log) <==> AnyGlobal(log[..|log| - 1]) || log[|log| - 1].recipient == GLOBAL
  {
    var init := log[..|log| - 1];
    if AnyGlobal(log) && log[|log| - 1].recipient != GLOBAL {
      var i :| 0 <= i < |log| && log[i].recipient == GLOBAL;
      assert init[i] == log[i];
    }
    if AnyGlobal(init) {
      var i :| 0 <= i < |init| && init[i].recipient == GLOBAL;
      assert log[i] == init[i];
    }
  }

  /** `phases` holds every phase mentioned so far, each once, in order of first mention. */
  lemma {:induction false} ReplayPhases(log: seq<Entry>)
    ensures NoDuplicates(Replay(log).phases)
    ensures forall p :: p in Replay(log).phases <==> Mentions(log, p)
  {
    if log != [] {
      var init, e := log[..|log| - 1], log[|log| - 1];
      ReplayPhases(init);
      var ps := Replay(init).phases;
      forall p
        ensures p in Replay(log).phases <==> Mentions(log, p)
      {
        MentionsStep(log, p);
      }
      if e.phase !in ps {
        var qs := ps + [e.phase];
        forall i, j | 0 <= i < j < |qs|
          ensures qs[i] != qs[j]
        {
          if j < |ps| {
            assert qs[i] == ps[i] && qs[j] == ps[j];
          } else {
            assert qs[i] == ps[i] && qs[j] == e.phase;
          }
        }
      }
    }
  }

  /** `global_history["GLOBAL"][p]` is exactly the public lines of phase `p`, and
      a phase has an entry only if some public message was sent in it. */
  lemma {:induction false} ReplayGlobal(log: seq<Entry>, p: string)
    ensures MapGetOr(Replay(log).global, p, "") == GlobalLines(log, p)
    ensures p in Replay(log).global <==> GlobalLines(log, p) != ""
  {
    if log != [] {
      ReplayGlobal(log[..|log| - 1], p);
    }
  }

  /** The public table is non-empty exactly when some message went to `GLOBAL`. */
  lemma {:induction false} ReplayGlobalAny(log: seq<Entry>)
    ensures Replay(log).global != map[] <==> AnyGlobal(log)
  {
    if log != [] {
      var init, e := log[..|log| - 1], log[|log| - 1];
      ReplayGlobalAny(init);
      AnyGlobalStep(log);
      var g := Replay(init).global;
      if e.recipient == GLOBAL {
        assert e.phase in Replay(log).global;
      } else {
        assert Replay(log).global == g;
      }
    }
  }

  /** One `+=` on the nested table changes one cell, by appending. */
  lemma AppendPairCell(h: map<string, PowerLog>, a: string, q: string, b: string, line: string, x: string, p: string, y: string)
    ensures PairText(AppendPair(h, a, q, b, line), x, p, y)
      == PairText(h, x, p, y) + (if x == a && p == q && y == b then line else "")
    ensures HasPair(AppendPair(h, a, q, b, line), x, p, y) <==> HasPair(h, x, p, y) || (x == a && p == q && y == b)
  {
    var ph := MapGetOr(h, a, map[]);
    var d := MapGetOr(ph, q, []);
    var v := GetOr(d, b, "") + line;
    var h' := AppendPair(h, a, q, b, line);
    if x == a && p == q {
      assert h'[x][p] == Put(d, b, v);
      GetOrPut(d, b, v, y, "");
      if y != b {
        assert PairText(h', x, p, y) == GetOr(d, y, "");
        assert PairText(h, x, p, y) == GetOr(d, y, "");
      }
    } else if x == a {
      assert h'[x] == ph[q := Put(d, b, v)];
      assert p in h'[x] <==> p in ph;
    } else {
      assert x in h' <==> x in h;
    }
  }

  /** `history_by_power[a][p][b]` is exactly the lines `a` and `b` exchanged in
      phase `p`; the cell exists only if they exchanged some. */
  lemma {:induction false} ReplayPairs(log: seq<Entry>, a: string, p: string, b: string)
    ensures PairText(Replay(log).byPower, a, p, b) == PairLines(log, a, p, b)
    ensures HasPair(Replay(log).byPower, a, p, b) <==> PairLines(log, a, p, b) != ""
  {
    if log != [] {
      var init, e := log[..|log| - 1], log[|log| - 1];
      ReplayPairs(init, a, p, b);
      var line := Line(e.sender, e.content);
      var h := Replay(init).byPower;
      var h1 := AppendPair(h, e.sender, e.phase, e.recipient, line);
      AppendPairCell(h, e.sender, e.phase, e.recipient, line, a, p, b);
      AppendPairCell(h1, e.recipient, e.phase, e.sender, line, a, p, b);
    }
  }

  lemma {:induction false} PairLinesSymmetric(log: seq<Entry>, a: string, p: string, b: string)
    ensures PairLines(log, a, p, b) == PairLines(log, b, p, a)
  {
    if log != [] {
      PairLinesSymmetric(log[..|log| - 1], a, p, b);
    }
  }

  /** Both directions: whatever `a` has on file with `b` for a phase, `b` has the
      same text on file with `a`. */
  lemma PairsSymmetric(log: seq<Entry>, a: string, p: string, b: string)
    ensures PairText(Replay(log).byPower, a, p, b) == PairText(Replay(log).byPower, b, p, a)
    ensures HasPair(Replay(log).byPower, a, p, b) <==> HasPair(Replay(log).byPower, b, p, a)
  {
    ReplayPairs(log, a, p, b);
    ReplayPairs(log, b, p, a);
    PairLinesSymmetric(log, a, p, b);
  }

  /** The tables that exist after one `+=`: the writer's, which is never empty, and
      the others unchanged. */
  lemma AppendPairKeys(h: map<string, PowerLog>, a: string, q: string, b: string, line: string, x: string)
    ensures var h' := AppendPair(h, a, q, b, line);
      (x in h' <==> x in h || x == a) && (x in h && x != a ==> h'[x] == h[x]) && (x == a ==> h'[x] != map[])
  {
    var h' := AppendPair(h, a, q, b, line);
    if x == a {
      assert q in h'[x];
    }
  }

  /** A power has a table exactly when it sent or received something, and a table
      that exists is never empty. */
  lemma {:induction false} ReplayInvolved(log: seq<Entry>, a: string)
    ensures a in Replay(log).byPower <==> Involves(log, a)
    ensures a in Replay(log).byPower ==> Replay(log).byPower[a] != map[]
  {
    if log != [] {
      var init, e := log[..|log| - 1], log[|log| - 1];
      ReplayInvolved(init, a);
      InvolvesStep(log, a);
      var line := Line(e.sender, e.content);
      var h := Replay(init).byPower;
      var h1 := AppendPair(h, e.sender, e.phase, e.recipient, line);
      AppendPairKeys(h, e.sender, e.phase, e.recipient, line, a);
      AppendPairKeys(h1, e.recipient, e.phase, e.sender, line, a);
      assert Replay(log).byPower == AppendPair(h1, e.recipient, e.phase, e.sender, line);
    }
  }

  // ---------------------------------------------------------------------
  // get_conversation_history

  /** The public section's per-phase blocks for the reported phases. */
  function GlobalSection(g: map<string, string>, rep: seq<string>): string
  {
    if rep == [] then ""
    else
      var p := rep[|rep| - 1];
      GlobalSection(g, rep[..|rep| - 1]) + (if p in g then "\n" + p + ":\n\n" + g[p] else "")
  }

  /** One phase's conversations, counterparts in insertion order. */
  function CounterpartsText(d: Dict<string>): string
  {
    if d == [] then ""
    else CounterpartsText(d[..|d| - 1]) + ("\n  " + d[|d| - 1].0 + ":\n\n") + d[|d| - 1].1
  }

  /** The private section's per-phase blocks for the reported phases. */
  function PrivateSection(ph: PowerLog, rep: seq<string>): string
  {
    if rep == [] then ""
    else
      var p := rep[|rep| - 1];
      PrivateSection(ph, rep[..|rep| - 1]) + (if p in ph then "\n" + p + ":\n" + CounterpartsText(ph[p]) else "")
  }

  function GlobalPart(t: Tables, rep: seq<string>): string
  {
    if t.global != map[] then "GLOBAL:\n" + GlobalSection(t.global, rep) + "\n" else ""
  }

  function PrivatePart(t: Tables, power: string, rep: seq<string>): string
  {
    if power in t.byPower && t.byPower[power] != map[] then "PRIVATE:\n" + PrivateSection(t.byPower[power], rep) else ""
  }

  /** What `get_conversation_history(power, n)` returns: the public section when any
      public message exists, then the power's private section when it has one,
      both limited to the phases `phases[-n:]`. */
  function ConversationText(t: Tables, power: string, n: int): string
  {
    var rep := PyTail(t.phases, n);
    GlobalPart(t, rep) + PrivatePart(t, power, rep)
  }

  /** The text is empty exactly when no message was public and none involved the power. */
  lemma ConversationEmpty(log: seq<Entry>, power: string, n: int)
    ensures ConversationText(Replay(log), power, n) == "" <==> !AnyGlobal(log) && !Involves(log, power)
  {
    ReplayGlobalAny(log);
    ReplayInvolved(log, power);
    var t := Replay(log);
    var rep := PyTail(t.phases, n);
    if AnyGlobal(log) {
      assert |GlobalPart(t, rep)| > 0;
    } else if Involves(log, power) {
      assert |PrivatePart(t, power, rep)| > 0;
    }
  }

  /** The public section comes first: with any public message the text opens with
      "GLOBAL:", and otherwise a power with private messages sees "PRIVATE:" first. */
  lemma GlobalBeforePrivate(log: seq<Entry>, power: string, n: int)
    ensures AnyGlobal(log) ==> StartsWith(ConversationText(Replay(log), power, n), "GLOBAL:\n")
    ensures !AnyGlobal(log) && Involves(log, power) ==> StartsWith(ConversationText(Replay(log), power, n), "PRIVATE:\n")
  {
    ReplayGlobalAny(log);
    ReplayInvolved(log, power);
    var t := Replay(log);
    if t.global != map[] {
      GlobalOpens(t, power, n);
    } else if power in t.byPower {
      PrivateOpens(t, power, n);
    }
  }

  lemma GlobalOpens(t: Tables, power: string, n: int)
    requires t.global != map[]
    ensures StartsWith(ConversationText(t, power, n), "GLOBAL:\n")
  {
    var rep := PyTail(t.phases, n);
    var sec := GlobalSection(t.global, rep);
    StartsWithPrefix("GLOBAL:\n", sec);
    StartsWithAppend("GLOBAL:\n" + sec, "\n", "GLOBAL:\n");
    assert GlobalPart(t, rep) == "GLOBAL:\n" + sec + "\n";
    StartsWithAppend(GlobalPart(t, rep), PrivatePart(t, power, rep), "GLOBAL:\n");
  }

  lemma PrivateOpens(t: Tables, power: string, n: int)
    requires t.global == map[] && power in t.byPower && t.byPower[power] != map[]
    ensures StartsWith(ConversationText(t, power, n), "PRIVATE:\n")
  {
    var rep := PyTail(t.phases, n);
    StartsWithPrefix("PRIVATE:\n", PrivateSection(t.byPower[power], rep));
    assert GlobalPart(t, rep) + PrivatePart(t, power, rep) == PrivatePart(t, power, rep);
  }

  lemma {:induction false} GlobalSectionFrame(g: map<string, string>, q: string, v: string, rep: seq<string>)
    requires q !in rep
    ensures GlobalSection(g[q := v], rep) == GlobalSection(g, rep)
  {
    if rep != [] {
      GlobalSectionFrame(g, q, v, rep[..|rep| - 1]);
    }
  }

  lemma {:induction false} PrivateSectionFrame(ph: PowerLog, q: string, d: Dict<string>, rep: seq<string>)
    requires q !in rep
    ensures PrivateSection(ph[q := d], rep) == PrivateSection(ph, rep)
  {
    if rep != [] {
      PrivateSectionFrame(ph, q, d, rep[..|rep| - 1]);
    }
  }

  /** `m'` is `m` with at most the entry under `q` replaced or added. */
  predicate ChangedAt<V(==)>(m: map<string, V>, m': map<string, V>, q: string)
  {
    m' == m || (q in m' && m' == m[q := m'[q]])
  }

  lemma ChangedAtTrans<V>(m: map<string, V>, m': map<string, V>, m'': map<string, V>, q: string)
    requires ChangedAt(m, m', q) && ChangedAt(m', m'', q)
    ensures ChangedAt(m, m'', q)
  {
    if m' != m && m'' != m' {
      assert m'' == m[q := m''[q]];
    }
  }

  /** The power's table after one `+=` differs from before at most in phase `q`. */
  lemma AppendPairOwnTable(h: map<string, PowerLog>, a: string, q: string, b: string, line: string, power: string)
    requires power in h
    ensures var h' := AppendPair(h, a, q, b, line);
      power in h' && ChangedAt(h[power], h'[power], q)
  {
  }

  lemma PrivatePartFrame(t: Tables, t': Tables, power: string, q: string, rep: seq<string>)
    requires q !in rep
    requires power in t.byPower && t.byPower[power] != map[] && power in t'.byPower
    requires ChangedAt(t.byPower[power], t'.byPower[power], q)
    ensures PrivatePart(t', power, rep) == PrivatePart(t, power, rep)
  {
    if t'.byPower[power] != t.byPower[power] {
      PrivateSectionFrame(t.byPower[power], q, t'.byPower[power][q], rep);
      var k :| k in t.byPower[power];
      assert k in t'.byPower[power];
    }
  }

  /** Only the last `n` phases are reported: a message added to an earlier phase
      changes nothing the power sees once both sections exist. */
  lemma OutsideWindowInvisible(log: seq<Entry>, e: Entry, power: string, n: int)
    requires e.phase in Replay(log).phases && e.phase !in PyTail(Replay(log).phases, n)
    requires e.recipient == GLOBAL ==> AnyGlobal(log)
    requires e.sender == power || e.recipient == power ==> Involves(log, power)
    ensures ConversationText(Replay(log + [e]), power, n) == ConversationText(Replay(log), power, n)
  {
    var log' := log + [e];
    assert log'[..|log'| - 1] == log;
    var t := Replay(log);
    var t' := Replay(log');
    assert t' == Step(t, e);
    assert t'.phases == t.phases;
    var rep := PyTail(t.phases, n);
    ReplayGlobalAny(log);
    if e.recipient == GLOBAL {
      GlobalSectionFrame(t.global, e.phase, MapGetOr(t.global, e.phase, "") + Line(e.sender, e.content), rep);
      assert e.phase in t'.global;
    }
    assert GlobalPart(t', rep) == GlobalPart(t, rep);
    ReplayInvolved(log, power);
    ReplayInvolved(log', power);
    if power in t.byPower {
      var line := Line(e.sender, e.content);
      var h1 := AppendPair(t.byPower, e.sender, e.phase, e.recipient, line);
      AppendPairOwnTable(t.byPower, e.sender, e.phase, e.recipient, line, power);
      AppendPairOwnTable(h1, e.recipient, e.phase, e.sender, line, power);
      assert t'.byPower == AppendPair(h1, e.recipient, e.phase, e.sender, line);
      ChangedAtTrans(t.byPower[power], h1[power], t'.byPower[power], e.phase);
      PrivatePartFrame(t, t', power, e.phase, rep);
    } else {
      InvolvesStep(log', power);
      assert power !in t'.byPower;
    }
  }

  // ---------------------------------------------------------------------
  // The class

  class ConversationHistory {
    var phases: seq<string>
    var globalHistory: map<string, string>
    var historyByPower: map<string, PowerLog>
    /** The `add_message` calls made so far. */
    ghost var log: seq<Entry>

    ghost predicate Valid()
      reads this
    {
      Tables(phases, globalHistory, historyByPower) == Replay(log)
    }

    constructor()
      ensures Valid() && log == []
    {
      phases := [];
      globalHistory := map[];
      historyByPower := map[];
      log := [];
    }

    /** `add_message(year_phase, power_name, message)` for a message with the given
        recipient and content. */
    method AddMessage(yearPhase: string, powerName: string, recipient: string, content: string)
      requires Valid()
      modifies this
      ensures Valid()
      ensures log == old(log) + [Entry(yearPhase, powerName, recipient, content)]
      ensures phases == if yearPhase in old(phases) then old(phases) else old(phases) + [yearPhase]
    {
      ghost var e := Entry(yearPhase, powerName, recipient, content);
      ghost var before := Tables(phases, globalHistory, historyByPower);
      Record(yearPhase, powerName, recipient, content);
      ReplayStep(log, e);
      log := log + [e];
    }

    /** The three table updates of `add_message`. */
    method Record(yearPhase: string, powerName: string, recipient: string, content: string)
      modifies this
      ensures Tables(phases, globalHistory, historyByPower)
        == Step(old(Tables(phases, globalHistory, historyByPower)), Entry(yearPhase, powerName, recipient, content))
      ensures log == old(log)
    {
      if yearPhase !in phases {
        phases := phases + [yearPhase];
      }
      var line := "    " + powerName + ": " + content + "\n";
      if recipient == GLOBAL {
        globalHistory := globalHistory[yearPhase := MapGetOr(globalHistory, yearPhase, "") + line];
      }
      historyByPower := AppendPair(historyByPower, powerName, yearPhase, recipient, line);
      historyByPower := AppendPair(historyByPower, recipient, yearPhase, powerName, line);
    }

    /** `get_conversation_history(power_name, num_prev_phases)`. */
    method GetConversationHistory(powerName: string, numPrevPhases: int) returns (text: string)
      ensures text == ConversationText(Tables(phases, globalHistory, historyByPower), powerName, numPrevPhases)
    {
      var toReport := PyTail(phases, numPrevPhases);
      var globalPart := "";
      if globalHistory != map[] {
        var section := "";
        for i := 0 to |toReport|
          invariant section == GlobalSection(globalHistory, toReport[..i])
        {
          var phase := toReport[i];
          assert toReport[..i + 1][..i] == toReport[..i];
          if phase in globalHistory {
            section := section + ("\n" + phase + ":\n\n" + globalHistory[phase]);
          }
        }
        assert toReport[..|toReport|] == toReport;
        globalPart := "GLOBAL:\n" + section + "\n";
      }
      var privatePart := "";
      if powerName in historyByPower && historyByPower[powerName] != map[] {
        var ph := historyByPower[powerName];
        var section := "";
        for i := 0 to |toReport|
          invariant section == PrivateSection(ph, toReport[..i])
        {
          var phase := toReport[i];
          assert toReport[..i + 1][..i] == toReport[..i];
          if phase in ph {
            var convos := RenderCounterparts(ph[phase]);
            section := section + ("\n" + phase + ":\n" + convos);
          }
        }
        assert toReport[..|toReport|] == toReport;
        privatePart := "PRIVATE:\n" + section;
      }
      text := globalPart + privatePart;
    }
  }

  /** The inner loop of `get_conversation_history` over one phase's counterparts. */
  method RenderCounterparts(d: Dict<string>) returns (text: string)
    ensures text == CounterpartsText(d)
  {
    text := "";
    for i := 0 to |d|
      invariant text == CounterpartsText(d[..i])
    {
      assert d[..i + 1][..i] == d[..i];
      text := text + ("\n  " + d[i].0 + ":\n\n") + d[i].1;
    }
    assert d[..|d|] == d;
  }
}
