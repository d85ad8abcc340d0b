/**
 * `DiplomacyAgent` (ai_diplomacy/agent.py): a power's goals, its view of the
 * other powers and its private journal. The two LLM-driven updates are
 * specified by pure transitions on `AgentView`; the LLM reply is an input and
 * `json.loads` a `Decoder`.
 */
module Agent {
  import opened Wrappers
  import opened Text
  import opened ODict
  import opened Json
  import opened Powers

  /** The relationship every other power starts with. */
  const NEUTRAL: string := "Neutral"

  // ---------------------------------------------------------------------
  // Relationship tables

  /** A power the relationship tables may name: one of the seven, never the agent itself. */
  predicate Relatable(p: string, self: string)
  {
    p in ALL_POWERS && p != self
  }

  /** The default table: every other power, each `"Neutral"`, in the (unspecified)
      iteration order of the frozenset. */
  ghost predicate NeutralToOthers(rels: Dict<Value>, self: string)
  {
    && DistinctKeys(rels)
    && (forall k :: HasKey(rels, k) <==> Relatable(k, self))
    && forall i | 0 <= i < |rels| :: rels[i].1 == Str(NEUTRAL)
  }

  /** `{p: r for p, r in d.items() if p in ALL_POWERS and p != self}`: the pairs of
      the relatable powers, in the order of `d`. */
  function FilterRelationships(d: Dict<Value>, self: string): (r: Dict<Value>)
    ensures forall x :: x in r <==> x in d && Relatable(x.0, self)
    decreases |d|
  {
    if d == [] then []
    else
      var rest := FilterRelationships(d[1..], self);
      if Relatable(d[0].0, self) then [d[0]] + rest else rest
  }

  /** The filtered dict answers for relatable powers as `d` does and knows no other key. */
  lemma {:induction false} FilterGet(d: Dict<Value>, self: string, k: string)
    ensures Get(FilterRelationships(d, self), k) == if Relatable(k, self) then Get(d, k) else None
    decreases |d|
  {
    if d != [] {
      FilterGet(d[1..], self, k);
    }
  }

  /** Filtering keeps the keys of a dict distinct. */
  lemma {:induction false} FilterDistinct(d: Dict<Value>, self: string)
    requires DistinctKeys(d)
    ensures DistinctKeys(FilterRelationships(d, self))
    decreases |d|
  {
    if d != [] {
      var t := d[1..];
      var rest := FilterRelationships(t, self);
      assert Keys(d) == [d[0].0] + Keys(t);
      assert DistinctKeys(t) by {
        forall i, j | 0 <= i < j < |Keys(t)|
          ensures Keys(t)[i] != Keys(t)[j]
        {
          assert Keys(t)[i] == Keys(d)[i + 1] && Keys(t)[j] == Keys(d)[j + 1];
        }
      }
      FilterDistinct(t, self);
      if Relatable(d[0].0, self) {
        var k := d[0].0;
        assert !HasKey(t, k) by {
          forall i | 0 <= i < |Keys(t)|
            ensures Keys(t)[i] != k
          {
            assert Keys(t)[i] == Keys(d)[i + 1] && Keys(d)[0] == k;
          }
        }
        FilterGet(t, self, k);
        assert Keys([d[0]] + rest) == [k] + Keys(rest);
        forall i, j | 0 <= i < j < |[k] + Keys(rest)|
          ensures ([k] + Keys(rest))[i] != ([k] + Keys(rest))[j]
        {
          if i > 0 {
            assert ([k] + Keys(rest))[i] == Keys(rest)[i - 1];
          }
          assert ([k] + Keys(rest))[j] == Keys(rest)[j - 1];
        }
      }
    }
  }

  /** `d.update(u)`: the pairs of `u` assigned one after another. */
  function Update<V>(d: Dict<V>, u: Dict<V>): Dict<V>
    decreases |u|
  {
    if u == [] then d else Update(Put(d, u[0].0, u[0].1), u[1..])
  }

  /** After `d.update(u)` a key of `u` reads `u`'s value and every other key reads as before. */
  lemma {:induction false} UpdateGet<V>(d: Dict<V>, u: Dict<V>, k: string)
    requires DistinctKeys(u)
    ensures Get(Update(d, u), k) == if HasKey(u, k) then Get(u, k) else Get(d, k)
    decreases |u|
  {
    if u != [] {
      var t := u[1..];
      assert Keys(u) == [u[0].0] + Keys(t);
      assert DistinctKeys(t) by {
        forall i, j | 0 <= i < j < |Keys(t)|
          ensures Keys(t)[i] != Keys(t)[j]
        {
          assert Keys(t)[i] == Keys(u)[i + 1] && Keys(t)[j] == Keys(u)[j + 1];
        }
      }
      UpdateGet(Put(d, u[0].0, u[0].1), t, k);
      if k == u[0].0 {
        assert !HasKey(t, k) by {
          forall i | 0 <= i < |Keys(t)|
            ensures Keys(t)[i] != k
          {
            assert Keys(t)[i] == Keys(u)[i + 1] && Keys(u)[0] == k;
          }
        }
      }
    }
  }

  /** `d.update(u)` only adds keys of `u`. */
  lemma {:induction false} UpdateHasKey<V>(d: Dict<V>, u: Dict<V>, k: string)
    ensures HasKey(Update(d, u), k) ==> HasKey(d, k) || HasKey(u, k)
    decreases |u|
  {
    if u != [] {
      assert Keys(u) == [u[0].0] + Keys(u[1..]);
      UpdateHasKey(Put(d, u[0].0, u[0].1), u[1..], k);
      GetOrPut(d, u[0].0, u[0].1, k, u[0].1);
    }
  }

  /** `d.update(u)` keeps the dict's keys distinct. */
  lemma {:induction false} UpdateDistinct<V>(d: Dict<V>, u: Dict<V>)
    requires DistinctKeys(d)
    ensures DistinctKeys(Update(d, u))
    decreases |u|
  {
    if u != [] {
      PutDistinct(d, u[0].0, u[0].1);
      UpdateDistinct(Put(d, u[0].0, u[0].1), u[1..]);
    }
  }

  /** `d.update(u)` never moves a key already present: the old keys stay in front, in order. */
  lemma {:induction false} UpdateKeepsOrder<V>(d: Dict<V>, u: Dict<V>)
    ensures Keys(d) <= Keys(Update(d, u))
    decreases |u|
  {
    if u != [] {
      var d' := Put(d, u[0].0, u[0].1);
      PutKeys(d, u[0].0, u[0].1);
      assert Keys(d) <= Keys(d');
      UpdateKeepsOrder(d', u[1..]);
      PrefixTransitive(Keys(d), Keys(d'), Keys(Update(d', u[1..])));
    }
  }

  lemma PrefixTransitive(a: seq<string>, b: seq<string>, c: seq<string>)
    requires a <= b && b <= c
    ensures a <= c
  {
    assert c[..|b|] == b;
    assert c[..|a|] == c[..|b|][..|a|];
  }

  /** The default relationships of the constructor. */
  method NeutralDefaults(self: string) returns (rels: Dict<Value>)
    ensures NeutralToOthers(rels, self)
  {
    rels := [];
    var rest := ALL_POWERS;
    while rest != {}
      invariant rest <= ALL_POWERS
      invariant DistinctKeys(rels)
      invariant forall k :: HasKey(rels, k) <==> Relatable(k, self) && k !in rest
      invariant forall i | 0 <= i < |rels| :: rels[i].1 == Str(NEUTRAL)
      decreases rest
    {
      var p :| p in rest;
      rest := rest - {p};
      if p != self {
        assert !HasKey(rels, p);
        AppendDistinct(Keys(rels), p);
        assert Keys(rels + [(p, Str(NEUTRAL))]) == Keys(rels) + [p];
        rels := rels + [(p, Str(NEUTRAL))];
      }
    }
  }

  // ---------------------------------------------------------------------
  // Choosing the JSON text of a reply

  const FENCE_OPEN: string := "```json\n"
  const FENCE_CLOSE: string := "\n```"

  /** A closing fence after an opening one frames the text between them. */
  lemma FenceSpan(response: string, p: nat, q: nat)
    requires OccursAt(response, FENCE_OPEN, p) && OccursAt(response, FENCE_CLOSE, q) && p + |FENCE_OPEN| <= q
    ensures Contains(response, FENCE_OPEN + response[p + |FENCE_OPEN|..q] + FENCE_CLOSE)
  {
    var body := response[p + |FENCE_OPEN|..q];
    assert response[p..q + |FENCE_CLOSE|]
      == response[p..p + |FENCE_OPEN|] + response[p + |FENCE_OPEN|..q] + response[q..q + |FENCE_CLOSE|];
    assert OccursAt(response, FENCE_OPEN + body + FENCE_CLOSE, p);
  }

  /** `re.search(r"```json\n(.*?)\n```", response, re.DOTALL).group(1)`: the text after the
      first opening fence up to the first closing fence after it. */
  function FencedJson(response: string): (r: Option<string>)
    ensures r.Some? ==> Contains(response, FENCE_OPEN + r.value + FENCE_CLOSE)
    ensures r.None? ==>
      forall p, q :: OccursAt(response, FENCE_OPEN, p) && OccursAt(response, FENCE_CLOSE, q) ==> q < p + |FENCE_OPEN|
  {
    match Find(response, FENCE_OPEN)
    case None => None
    case Some(p) =>
      match FindFrom(response, FENCE_CLOSE, p + |FENCE_OPEN|)
      case None => None
      case Some(q) =>
        FenceSpan(response, p, q);
        Some(response[p + |FENCE_OPEN|..q])
  }

  /** `s.find(c)` for one character. */
  function FirstIndexOf(s: string, c: char): (r: Option<nat>)
    ensures r.Some? ==> r.value < |s| && s[r.value] == c && c !in s[..r.value]
    ensures r.None? ==> c !in s
  {
    if s == [] then None
    else if s[0] == c then Some(0)
    else
      var r := FirstIndexOf(s[1..], c);
      if r.None? then None
      else
        assert s[..r.value + 1] == [s[0]] + s[1..][..r.value];
        Some(r.value + 1)
  }

  /** `s.rfind(c)` for one character. */
  function LastIndexOf(s: string, c: char): (r: Option<nat>)
    ensures r.Some? ==> r.value < |s| && s[r.value] == c && c !in s[r.value + 1..]
    ensures r.None? ==> c !in s
  {
    if s == [] then None
    else if s[|s| - 1] == c then Some(|s| - 1)
    else
      var init := s[..|s| - 1];
      assert s == init + [s[|s| - 1]];
      var r := LastIndexOf(init, c);
      if r.Some? then
        assert s[r.value + 1..] == init[r.value + 1..] + [s[|s| - 1]];
        r
      else None
  }

  /** The text handed to `json.loads`: a fenced block, else the span from the first `{`
      to the last `}` (empty when the last `}` comes first), else the whole reply. */
  function JsonCandidate(response: string): string
  {
    match FencedJson(response)
    case Some(body) => body
    case None =>
      match (FirstIndexOf(response, '{'), LastIndexOf(response, '}'))
      case (Some(i), Some(j)) => if i <= j then response[i..j + 1] else ""
      case _ => response
  }

  /** The three choices, in the order the source tries them. */
  lemma JsonCandidateChoices(response: string)
    ensures FencedJson(response).Some? ==>
      Contains(response, FENCE_OPEN + JsonCandidate(response) + FENCE_CLOSE)
    ensures FencedJson(response).None? && '{' in response && '}' in response ==>
      JsonCandidate(response) == [] ||
      exists i, j :: 0 <= i <= j < |response| && JsonCandidate(response) == response[i..j + 1]
        && response[i] == '{' && '{' !in response[..i] && response[j] == '}' && '}' !in response[j + 1..]
    ensures FencedJson(response).None? && ('{' !in response || '}' !in response) ==> JsonCandidate(response) == response
  {
    if FencedJson(response).None? && '{' in response && '}' in response {
      var i, j := FirstIndexOf(response, '{').value, LastIndexOf(response, '}').value;
      if i <= j {
        assert JsonCandidate(response) == response[i..j + 1];
      }
    }
  }

  // ---------------------------------------------------------------------
  // The state updates

  /** The three fields the agent's methods change. */
  datatype AgentView = AgentView(goals: seq<Value>, relationships: Dict<Value>, journal: seq<string>)

  /** `f"{self.goals}"`. */
  function GoalsText(goals: seq<Value>): string
  {
    Repr(List(goals))
  }

  function InitEntry(goals: seq<Value>): string
  {
    "Agent initialized. Initial Goals: " + GoalsText(goals)
  }

  function InitialGoalsEntry(phase: string, goals: seq<Value>): string
  {
    "[" + phase + "] Initial Goals Set: " + GoalsText(goals)
  }

  function InitialRelationshipsEntry(phase: string, rels: Dict<Value>): string
  {
    "[" + phase + "] Initial Relationships Set: " + Repr(Object(rels))
  }

  function GoalsUpdatedEntry(phase: string, prevPhase: string, goals: seq<Value>): string
  {
    "[" + phase + "] Goals updated based on " + prevPhase + ": " + GoalsText(goals)
  }

  function RelationshipsUpdatedEntry(phase: string, prevPhase: string, valid: Dict<Value>): string
  {
    "[" + phase + "] Relationships updated based on " + prevPhase + ": " + Repr(Object(valid))
  }

  /** One journalled change: new goals. */
  function SetGoals(v: AgentView, goals: seq<Value>, entry: string): (w: AgentView)
    ensures w.relationships == v.relationships && w.journal == v.journal + [entry]
  {
    v.(goals := goals, journal := v.journal + [entry])
  }

  /** One journalled change: a new relationship table. */
  function SetRelationships(v: AgentView, rels: Dict<Value>, entry: string): (w: AgentView)
    ensures w.goals == v.goals && w.journal == v.journal + [entry]
  {
    v.(relationships := rels, journal := v.journal + [entry])
  }

  /** The list under `key` of a decoded object, if it is one. */
  function ListAt(fields: Dict<Value>, key: string): Option<seq<Value>>
  {
    var g := Get(fields, key);
    if g.Some? && g.value.List? then Some(g.value.items) else None
  }

  /** The dict under `key` of a decoded object, if it is one. */
  function ObjectAt(fields: Dict<Value>, key: string): Option<Dict<Value>>
  {
    var g := Get(fields, key);
    if g.Some? && g.value.Object? then Some(g.value.fields) else None
  }

  /** The goals half of both updates: a list replaces the goals, with its journal entry. */
  function GoalsFrom(v: AgentView, goals: Option<seq<Value>>, entry: seq<Value> -> string): (w: AgentView)
    ensures w.relationships == v.relationships
  {
    if goals.Some? then SetGoals(v, goals.value, entry(goals.value)) else v
  }

  /** The effect of `initialize_agent_state` given the decoded reply (`None` when
      `json.loads` raised): a goals list replaces the goals, a relationships dict is
      filtered and replaces the table, each with its journal entry. A reply that is
      not a JSON object makes `.get` raise, which is caught: nothing changes. */
  function Initialized(v: AgentView, self: string, data: Option<Value>, phase: string): AgentView
  {
    if data.None? || !data.value.Object? then v
    else
      var fields := data.value.fields;
      var v1 := GoalsFrom(v, ListAt(fields, "initial_goals"), gs => InitialGoalsEntry(phase, gs));
      var d := ObjectAt(fields, "initial_relationships");
      if d.Some? then
        var rels := FilterRelationships(d.value, self);
        SetRelationships(v1, rels, InitialRelationshipsEntry(phase, rels))
      else v1
  }

  /** The effect of `analyze_phase_and_update_state`. It stops early without a prompt
      template, a previous phase or a summary of it (`""` stands for each one missing).
      A goals list replaces the goals; the valid part of a relationships dict, when
      not empty, is merged into the table with `update`. */
  function Analysed(v: AgentView, self: string, template: string, prevPhase: string, summary: string,
                    data: Option<Value>, phase: string): AgentView
  {
    if template == "" || prevPhase == "" || summary == "" then v
    else if data.None? || !data.value.Object? then v
    else
      var fields := data.value.fields;
      var v1 := GoalsFrom(v, ListAt(fields, "updated_goals"), gs => GoalsUpdatedEntry(phase, prevPhase, gs));
      var d := ObjectAt(fields, "updated_relationships");
      if d.Some? then
        var valid := FilterRelationships(d.value, self);
        if valid == [] then v1
        else SetRelationships(v1, Update(v1.relationships, valid), RelationshipsUpdatedEntry(phase, prevPhase, valid))
      else v1
  }

  /** The journal only grows, by at most `n` entries. */
  predicate AppendedAtMost(before: seq<string>, after: seq<string>, n: nat)
  {
    |before| <= |after| <= |before| + n && after[..|before|] == before
  }

  lemma GoalsFromAppends(v: AgentView, goals: Option<seq<Value>>, entry: seq<Value> -> string)
    ensures AppendedAtMost(v.journal, GoalsFrom(v, goals, entry).journal, 1)
  {
  }

  /** `initialize_agent_state` only appends to the journal, one entry per field it sets. */
  lemma InitializeAppends(v: AgentView, self: string, data: Option<Value>, phase: string)
    ensures AppendedAtMost(v.journal, Initialized(v, self, data, phase).journal, 2)
  {
    if data.Some? && data.value.Object? {
      var fields := data.value.fields;
      var v1 := GoalsFrom(v, ListAt(fields, "initial_goals"), gs => InitialGoalsEntry(phase, gs));
      GoalsFromAppends(v, ListAt(fields, "initial_goals"), gs => InitialGoalsEntry(phase, gs));
      var w := Initialized(v, self, data, phase);
      assert w.journal == v1.journal || w.journal[..|v1.journal|] == v1.journal;
    }
  }

  /** `analyze_phase_and_update_state` only appends to the journal, one entry per field it changes. */
  lemma AnalyseAppends(v: AgentView, self: string, template: string, prevPhase: string, summary: string,
                       data: Option<Value>, phase: string)
    ensures AppendedAtMost(v.journal, Analysed(v, self, template, prevPhase, summary, data, phase).journal, 2)
  {
    if template != "" && prevPhase != "" && summary != "" && data.Some? && data.value.Object? {
      var fields := data.value.fields;
      var v1 := GoalsFrom(v, ListAt(fields, "updated_goals"), gs => GoalsUpdatedEntry(phase, prevPhase, gs));
      GoalsFromAppends(v, ListAt(fields, "updated_goals"), gs => GoalsUpdatedEntry(phase, prevPhase, gs));
      var w := Analysed(v, self, template, prevPhase, summary, data, phase);
      assert w.journal == v1.journal || w.journal[..|v1.journal|] == v1.journal;
    }
  }

  /** Initialisation replaces the table wholesale by the valid entries of the reply. */
  lemma InitializeReplaces(v: AgentView, self: string, fields: Dict<Value>, d: Dict<Value>, phase: string)
    requires Get(fields, "initial_relationships") == Some(Object(d))
    ensures var w := Initialized(v, self, Some(Object(fields)), phase);
      w.relationships == FilterRelationships(d, self)
      && forall k :: Get(w.relationships, k) == if Relatable(k, self) then Get(d, k) else None
  {
    assert ObjectAt(fields, "initial_relationships") == Some(d);
    var w := Initialized(v, self, Some(Object(fields)), phase);
    assert w.relationships == FilterRelationships(d, self);
    forall k
      ensures Get(w.relationships, k) == if Relatable(k, self) then Get(d, k) else None
    {
      FilterGet(d, self, k);
    }
  }

  /** The phase analysis merges only valid keys: a key of the filtered reply gets the
      reply's value, every other key (the agent itself, unknown powers, powers the reply
      leaves out) keeps its old value. */
  lemma AnalyseMerges(v: AgentView, self: string, template: string, prevPhase: string, summary: string,
                      fields: Dict<Value>, d: Dict<Value>, phase: string, k: string)
    requires template != "" && prevPhase != "" && summary != ""
    requires Get(fields, "updated_relationships") == Some(Object(d)) && DistinctKeys(d)
    ensures var w := Analysed(v, self, template, prevPhase, summary, Some(Object(fields)), phase);
      Get(w.relationships, k) == if Relatable(k, self) && HasKey(d, k) then Get(d, k) else Get(v.relationships, k)
  {
    assert ObjectAt(fields, "updated_relationships") == Some(d);
    var v1 := GoalsFrom(v, ListAt(fields, "updated_goals"), gs => GoalsUpdatedEntry(phase, prevPhase, gs));
    var valid := FilterRelationships(d, self);
    FilterDistinct(d, self);
    UpdateGet(v1.relationships, valid, k);
    FilterGet(d, self, k);
  }

  /** A table without the agent's own name keeps that property under both updates. */
  lemma NeverSelf(v: AgentView, self: string, template: string, prevPhase: string, summary: string,
                  data: Option<Value>, phase: string)
    requires !HasKey(v.relationships, self)
    ensures !HasKey(Initialized(v, self, data, phase).relationships, self)
    ensures !HasKey(Analysed(v, self, template, prevPhase, summary, data, phase).relationships, self)
  {
    if data.Some? && data.value.Object? {
      var fields := data.value.fields;
      var d := ObjectAt(fields, "initial_relationships");
      if d.Some? {
        FilterGet(d.value, self, self);
      }
      var e := ObjectAt(fields, "updated_relationships");
      if e.Some? {
        var valid := FilterRelationships(e.value, self);
        FilterGet(e.value, self, self);
        var v1 := GoalsFrom(v, ListAt(fields, "updated_goals"), gs => GoalsUpdatedEntry(phase, prevPhase, gs));
        UpdateHasKey(v1.relationships, valid, self);
      }
    }
  }

  // ---------------------------------------------------------------------
  // The agent

  class DiplomacyAgent {
    const powerName: string
    var goals: seq<Value>
    var relationships: Dict<Value>
    var privateJournal: seq<string>

    function View(): AgentView
      reads this
    {
      AgentView(goals, relationships, privateJournal)
    }

    /** `__init__` for a valid power name (see `NewAgent` for the check). Without a
        relationships dict every other power starts `"Neutral"`; the first journal entry
        records the goals. */
    constructor (powerName: string, initialGoals: Option<seq<Value>>, initialRelationships: Option<Dict<Value>>)
      requires powerName in ALL_POWERS
      ensures this.powerName == powerName
      ensures goals == if initialGoals.Some? then initialGoals.value else []
      ensures initialRelationships.Some? ==> relationships == initialRelationships.value
      ensures initialRelationships.None? ==> NeutralToOthers(relationships, powerName)
      ensures privateJournal == [InitEntry(goals)]
    {
      var rels: Dict<Value>;
      if initialRelationships.None? {
        rels := NeutralDefaults(powerName);
      } else {
        rels := initialRelationships.value;
      }
      this.powerName := powerName;
      goals := if initialGoals.Some? then initialGoals.value else [];
      relationships := rels;
      privateJournal := [];
      new;
      AddJournalEntry(Str(InitEntry(goals)));
    }

    /** `add_journal_entry`: exactly one entry appended, `str(entry)` for a non-string. */
    method AddJournalEntry(entry: Value)
      modifies this
      ensures privateJournal == old(privateJournal) + [ToStr(entry)]
      ensures goals == old(goals) && relationships == old(relationships)
    {
      var text := ToStr(entry);
      privateJournal := privateJournal + [text];
    }

    /** `update_goals`: the goals replaced and the change journalled. */
    method UpdateGoals(newGoals: seq<Value>)
      modifies this
      ensures goals == newGoals && relationships == old(relationships)
      ensures privateJournal == old(privateJournal) + ["Goals updated: " + GoalsText(newGoals)]
    {
      goals := newGoals;
      AddJournalEntry(Str("Goals updated: " + GoalsText(goals)));
    }

    /** `update_relationship`: the agent's own name leaves everything as it was; any other
        name gets the status and one journal entry. */
    method UpdateRelationship(other: string, status: string)
      modifies this
      ensures other == powerName ==> View() == old(View())
      ensures other != powerName ==>
        relationships == Put(old(relationships), other, Str(status)) && goals == old(goals)
        && privateJournal == old(privateJournal) + ["Relationship with " + other + " updated to " + status + "."]
    {
      if other != powerName {
        relationships := Put(relationships, other, Str(status));
        AddJournalEntry(Str("Relationship with " + other + " updated to " + status + "."));
      }
    }

    /** `initialize_agent_state` once the LLM has answered `response`. */
    method InitializeAgentState(response: string, decode: Decoder, phase: string)
      modifies this
      ensures View() == Initialized(old(View()), powerName, decode(JsonCandidate(response)), phase)
    {
      var data := decode(JsonCandidate(response));
      if data.None? || !data.value.Object? {
        return;
      }
      var fields := data.value.fields;
      var initialGoals := Get(fields, "initial_goals");
      if initialGoals.Some? && initialGoals.value.List? {
        goals := initialGoals.value.items;
        AddJournalEntry(Str(InitialGoalsEntry(phase, goals)));
      }
      assert View() == GoalsFrom(old(View()), ListAt(fields, "initial_goals"), gs => InitialGoalsEntry(phase, gs));
      var initialRelationships := Get(fields, "initial_relationships");
      if initialRelationships.Some? && initialRelationships.value.Object? {
        relationships := FilterRelationships(initialRelationships.value.fields, powerName);
        AddJournalEntry(Str(InitialRelationshipsEntry(phase, relationships)));
      }
    }

    /** `analyze_phase_and_update_state` with the prompt template, the previous phase and
        its summary as inputs and the LLM having answered `response`. */
    method AnalyzePhaseAndUpdateState(template: string, prevPhase: string, summary: string,
                                      response: string, decode: Decoder, phase: string)
      modifies this
      ensures View() == Analysed(old(View()), powerName, template, prevPhase, summary, decode(JsonCandidate(response)), phase)
    {
      if template == "" || prevPhase == "" || summary == "" {
        return;
      }
      var data := decode(JsonCandidate(response));
      if data.None? || !data.value.Object? {
        return;
      }
      var fields := data.value.fields;
      var updatedGoals := Get(fields, "updated_goals");
      if updatedGoals.Some? && updatedGoals.value.List? {
        goals := updatedGoals.value.items;
        AddJournalEntry(Str(GoalsUpdatedEntry(phase, prevPhase, goals)));
      }
      assert View() == GoalsFrom(old(View()), ListAt(fields, "updated_goals"), gs => GoalsUpdatedEntry(phase, prevPhase, gs));
      var updatedRelationships := Get(fields, "updated_relationships");
      if updatedRelationships.Some? && updatedRelationships.value.Object? {
        var valid := FilterRelationships(updatedRelationships.value.fields, powerName);
        if valid != [] {
          relationships := Update(relationships, valid);
          AddJournalEntry(Str(RelationshipsUpdatedEntry(phase, prevPhase, valid)));
        }
      }
    }
  }

  /** `DiplomacyAgent(power_name, client, initial_goals, initial_relationships)`:
      `ValueError` for a name outside the seven powers, otherwise a new agent. */
  method NewAgent(powerName: string, initialGoals: Option<seq<Value>>, initialRelationships: Option<Dict<Value>>)
    returns (r: Outcome<DiplomacyAgent>)
    ensures r.Raised? <==> powerName !in ALL_POWERS
    ensures r.Returned? ==>
      fresh(r.value) && r.value.powerName == powerName
      && r.value.privateJournal == [InitEntry(r.value.goals)]
      && (initialRelationships.None? ==> NeutralToOthers(r.value.relationships, powerName))
  {
    if powerName !in ALL_POWERS {
      return Raised;
    }
    var agent := new DiplomacyAgent(powerName, initialGoals, initialRelationships);
    return Returned(agent);
  }
}
