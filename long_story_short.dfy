/**
 * The context manager (ai_diplomacy/long_story_short.py): per-power and shared summary
 * bookkeeping, the decisions whether phase or message history is due for summarising,
 * the split of phase history into phases kept verbatim and phases folded into a
 * `SUMMARY_UNTIL_<phase>` entry, and the split points of message history. The summary
 * text itself comes from a language model and is a parameter here, as is the clock.
 */
module LongStoryShort {
  import opened Wrappers
  import opened Text
  import opened ODict
  import opened Seqs
  import opened PhaseOrder

  /** `count_tokens` without tiktoken: a quarter of the length, rounded down. */
  function CountTokens(text: string): (n: nat)
    ensures 4 * n <= |text| < 4 * n + 4
  {
    |text| / 4
  }

  const SUMMARY_COOLDOWN: real := 30.0
  const SUMMARY_PREFIX: string := "SUMMARY_UNTIL_"
  const NO_HISTORY: string := "(No history yet)"

  /** One power's message-summary record. */
  datatype PowerState = PowerState(lastMessageSummary: Option<string>, summarizedMessages: set<string>, lastSummaryTime: real)

  const FRESH_POWER_STATE: PowerState := PowerState(None, {}, 0.0)

  /** The shared phase-summary record. */
  datatype PhaseState = PhaseState(lastSummary: Option<string>, summarizedPhases: seq<string>, lastSummaryTime: real)

  const FRESH_PHASE_STATE: PhaseState := PhaseState(None, [], 0.0)

  /** Python truthiness of an optional string. */
  predicate Truthy(s: Option<string>)
  {
    s.Some? && s.value != ""
  }

  /** The tokens of a previous summary, counted only when there is a non-empty one. */
  function BaseTokens(s: Option<string>): (n: nat)
    ensures !Truthy(s) ==> n == 0
  {
    if Truthy(s) then CountTokens(s.value) else 0
  }

  /** The per-power records after `get_power_state(p)`: a zeroed record on first use,
      and nothing changed on every later use. */
  function WithPowerState(states: map<string, PowerState>, p: string): (r: map<string, PowerState>)
    ensures r.Keys == states.Keys + {p}
    ensures p in states ==> r == states
    ensures p !in states ==> r[p] == FRESH_POWER_STATE
    ensures forall q :: q in states ==> r[q] == states[q]
  {
    if p in states then states else states[p := FRESH_POWER_STATE]
  }

  /** A second lookup of the same power returns the record of the first. */
  lemma PowerStateStable(states: map<string, PowerState>, p: string)
    ensures WithPowerState(WithPowerState(states, p), p) == WithPowerState(states, p)
    ensures WithPowerState(states, p)[p] == if p in states then states[p] else FRESH_POWER_STATE
  {
  }

  /** The phases not yet summarised, leaving out the summary entries themselves. */
  function Unsummarized(phases: seq<string>, summarized: seq<string>): (r: seq<string>)
    ensures forall p :: p in r <==> p in phases && p !in summarized && !StartsWith(p, SUMMARY_PREFIX)
  {
    if phases == [] then []
    else
      var p := phases[|phases| - 1];
      var r := Unsummarized(phases[..|phases| - 1], summarized);
      assert forall x :: x in phases ==> x in phases[..|phases| - 1] || x == p;
      if p !in summarized && !StartsWith(p, SUMMARY_PREFIX) then r + [p] else r
  }

  /** Filtering a sorted list keeps it sorted. */
  lemma {:induction false} UnsummarizedSorted(o: Order, phases: seq<string>, summarized: seq<string>)
    requires SortedBy(o, phases)
    ensures SortedBy(o, Unsummarized(phases, summarized))
  {
    if phases != [] {
      var init := phases[..|phases| - 1];
      var p := phases[|phases| - 1];
      var r := Unsummarized(init, summarized);
      UnsummarizedSorted(o, init, summarized);
      if p !in summarized && !StartsWith(p, SUMMARY_PREFIX) {
        var s := r + [p];
        forall i, j | 0 <= i < j < |s| ensures !Before(o, s[j], s[i]) {
          if j == |s| - 1 {
            assert s[i] == r[i] && r[i] in r;
            var k :| 0 <= k < |init| && init[k] == s[i];
            assert phases[k] == s[i] && phases[|phases| - 1] == p;
          } else {
            assert s[i] == r[i] && s[j] == r[j];
          }
        }
      }
    }
  }

  lemma {:induction false} UnsummarizedEmpty(phases: seq<string>, summarized: seq<string>)
    requires forall i :: 0 <= i < |phases| ==> phases[i] in summarized || StartsWith(phases[i], SUMMARY_PREFIX)
    ensures Unsummarized(phases, summarized) == []
  {
    if phases != [] {
      UnsummarizedEmpty(phases[..|phases| - 1], summarized);
    }
  }

  /** `phase_summaries[p]`; every phase looked up is a key of the dict. */
  function Lookup(d: Dict<string>, k: string): string
  {
    GetOr(d, k, "")
  }

  function Texts(d: Dict<string>, ps: seq<string>): (r: seq<string>)
    ensures |r| == |ps|
  {
    seq(|ps|, i requires 0 <= i < |ps| => Lookup(d, ps[i]))
  }

  /** `should_summarize_phases`: not within the cooldown, not without new phases, and
      otherwise exactly when the previous summary and the new phases exceed the threshold. */
  function ShouldSummarizePhases(st: PhaseState, threshold: int, d: Dict<string>, now: real): (b: bool)
    ensures now - st.lastSummaryTime < SUMMARY_COOLDOWN ==> !b
    ensures Unsummarized(Keys(d), st.summarizedPhases) == [] ==> !b
    ensures now - st.lastSummaryTime >= SUMMARY_COOLDOWN && Unsummarized(Keys(d), st.summarizedPhases) != [] ==>
      (b <==> BaseTokens(st.lastSummary) + CountTokens(Join("\n\n", Texts(d, Unsummarized(Keys(d), st.summarizedPhases)))) > threshold)
  {
    if now - st.lastSummaryTime < SUMMARY_COOLDOWN then false
    else
      var u := Unsummarized(Keys(d), st.summarizedPhases);
      if u == [] then false
      else BaseTokens(st.lastSummary) + CountTokens(Join("\n\n", Texts(d, u))) > threshold
  }

  /** A dict whose regular phases have all been summarised is never due, however long. */
  lemma NothingNewNothingDue(st: PhaseState, threshold: int, d: Dict<string>, now: real)
    requires forall i :: 0 <= i < |d| ==> d[i].0 in st.summarizedPhases || StartsWith(d[i].0, SUMMARY_PREFIX)
    ensures !ShouldSummarizePhases(st, threshold, d, now)
  {
    UnsummarizedEmpty(Keys(d), st.summarizedPhases);
  }

  /** The lines that count as content in a "COMMUNICATION HISTORY:" template. */
  function ContentLines(lines: seq<string>): (r: seq<string>)
    ensures |r| <= |lines|
  {
    if lines == [] then []
    else
      var line := lines[|lines| - 1];
      var keep := Strip(line) != "" && !EndsWith(Strip(line), ":") && !Contains(line, "has not engaged");
      ContentLines(lines[..|lines| - 1]) + (if keep then [line] else [])
  }

  /** `should_summarize_messages` once the power's record is at hand. */
  function ShouldSummarizeMessages(st: PowerState, threshold: int, history: string, now: real): (b: bool)
    ensures now - st.lastSummaryTime < SUMMARY_COOLDOWN ==> !b
    ensures history == "" || history == NO_HISTORY || Strip(history) == "" ==> !b
    ensures (Contains(history, "COMMUNICATION HISTORY:") && CountTokens(history) < 200
             && |ContentLines(SplitOn(history, "\n"))| <= 2) ==> !b
    ensures b ==> BaseTokens(st.lastMessageSummary) + CountTokens(history) > threshold
  {
    if now - st.lastSummaryTime < SUMMARY_COOLDOWN then false
    else if history == "" || history == NO_HISTORY || Strip(history) == "" then false
    else
      var base := BaseTokens(st.lastMessageSummary);
      var added := CountTokens(history);
      if Contains(history, "COMMUNICATION HISTORY:") && added < 200 && |ContentLines(SplitOn(history, "\n"))| <= 2 then false
      else base + added > threshold
  }

  /** A history of white space only is never summarised. */
  lemma BlankNotDue(st: PowerState, threshold: int, history: string, now: real)
    requires forall i :: 0 <= i < |history| ==> IsSpace(history[i])
    ensures !ShouldSummarizeMessages(st, threshold, history, now)
  {
    TrimStartBlank(history);
  }

  /** Without the template marker, the decision is the threshold test outside the cooldown
      for a history with some text in it. */
  lemma MessagesDueWithoutTemplate(st: PowerState, threshold: int, history: string, now: real)
    requires !Contains(history, "COMMUNICATION HISTORY:")
    ensures ShouldSummarizeMessages(st, threshold, history, now) <==>
      now - st.lastSummaryTime >= SUMMARY_COOLDOWN && history != NO_HISTORY && Strip(history) != ""
      && BaseTokens(st.lastMessageSummary) + CountTokens(history) > threshold
  {
    if Strip(history) != "" {
      assert history != "";
    }
  }

  /** `[p for p in xs if p not in ys]`. */
  function Without(xs: seq<string>, ys: seq<string>): (r: seq<string>)
    ensures forall x :: x in r <==> x in xs && x !in ys
    ensures (forall x :: x in xs ==> x in ys) ==> r == []
  {
    if xs == [] then []
    else
      var x := xs[|xs| - 1];
      var r := Without(xs[..|xs| - 1], ys);
      assert forall z :: z in xs ==> z in xs[..|xs| - 1] || z == x;
      if x !in ys then r + [x] else r
  }

  /** The phases of one summarisation: the sorted unsummarised phases, those kept intact and
      those folded into the summary. */
  datatype Plan = Plan(unsummarized: seq<string>, recent: seq<string>, toSummarize: seq<string>)

  /** Lines 333-353: with more than two unsummarised phases the last three stay intact,
      otherwise all of them do; the others are summarised. */
  function PlanFor(o: Order, phases: seq<string>, summarized: seq<string>): (p: Plan)
    ensures p.unsummarized == Unsummarized(SortBy(o, phases), summarized)
    ensures forall x :: x in p.unsummarized <==> x in phases && x !in summarized && !StartsWith(x, SUMMARY_PREFIX)
    ensures |p.unsummarized| > 2 ==> p.recent == p.unsummarized[|p.unsummarized| - 3..]
    ensures |p.unsummarized| <= 2 ==> p.recent == p.unsummarized && p.toSummarize == []
    ensures forall x :: x in p.toSummarize <==> x in p.unsummarized && x !in p.recent
    ensures forall x :: x in p.recent ==> x in p.unsummarized
  {
    var sorted := SortBy(o, phases);
    var u := Unsummarized(sorted, summarized);
    SortByMembers(o, phases);
    var recent := if |u| > 2 then u[|u| - 3..] else u;
    assert forall i :: 0 <= i < |recent| ==> recent[i] == u[|u| - |recent| + i];
    Plan(u, recent, Without(u, recent))
  }

  /** The greatest unsummarised phase, in the order the phases were sorted by, is always
      among those kept intact. */
  lemma PlanKeepsLatest(o: Order, phases: seq<string>, summarized: seq<string>)
    requires PlanFor(o, phases, summarized).unsummarized != []
    ensures MaxBy(o, PlanFor(o, phases, summarized).unsummarized) in PlanFor(o, phases, summarized).recent
    ensures MaxBy(o, PlanFor(o, phases, summarized).unsummarized) !in PlanFor(o, phases, summarized).toSummarize
  {
    var p := PlanFor(o, phases, summarized);
    var u := p.unsummarized;
    UnsummarizedSorted(o, SortBy(o, phases), summarized);
    MaxOfSorted(o, u);
    if |u| > 2 {
      assert u[|u| - 1] == p.recent[2];
    } else {
      assert u[|u| - 1] in u;
    }
  }

  /** The summary entries of the input kept in the result: those that name none of the
      phases being summarised (lines 413-417). */
  function KeptSummaries(d: Dict<string>, toSum: seq<string>): Dict<string>
  {
    if d == [] then []
    else
      var r := KeptSummaries(d[..|d| - 1], toSum);
      var (k, v) := d[|d| - 1];
      if StartsWith(k, SUMMARY_PREFIX) && !HasKey(r, k) && !ContainsAny(k, toSum) then Put(r, k, v) else r
  }

  lemma {:induction false} KeptSummariesGet(d: Dict<string>, toSum: seq<string>, k: string)
    ensures Get(KeptSummaries(d, toSum), k) == if StartsWith(k, SUMMARY_PREFIX) && !ContainsAny(k, toSum) then Get(d, k) else None
  {
    if d != [] {
      var init := d[..|d| - 1];
      var (k', v) := d[|d| - 1];
      assert d == init + [(k', v)];
      KeptSummariesGet(init, toSum, k);
      KeptSummariesGet(init, toSum, k');
      GetSnoc(init, k', v, k);
      GetSnoc(init, k', v, k');
    }
  }

  /** The intact phases written over the result (lines 429-430). */
  function PutRecent(r: Dict<string>, d: Dict<string>, recent: seq<string>): Dict<string>
  {
    if recent == [] then r
    else
      var p := recent[|recent| - 1];
      Put(PutRecent(r, d, recent[..|recent| - 1]), p, Lookup(d, p))
  }

  lemma {:induction false} PutRecentGet(r: Dict<string>, d: Dict<string>, recent: seq<string>, k: string)
    ensures Get(PutRecent(r, d, recent), k) == if k in recent then Some(Lookup(d, k)) else Get(r, k)
  {
    if recent != [] {
      var init := recent[..|recent| - 1];
      PutRecentGet(r, d, init, k);
      assert forall x :: x in recent <==> x in init || x == recent[|recent| - 1];
    }
  }

  /** The remaining regular phases of the input (lines 434-439). */
  function KeptOthers(r: Dict<string>, d: Dict<string>, toSum: seq<string>, recent: seq<string>): Dict<string>
  {
    if d == [] then r
    else
      var acc := KeptOthers(r, d[..|d| - 1], toSum, recent);
      var (k, v) := d[|d| - 1];
      if !StartsWith(k, SUMMARY_PREFIX) && k !in toSum && k !in recent && !HasKey(acc, k) then Put(acc, k, v) else acc
  }

  lemma {:induction false} KeptOthersGet(r: Dict<string>, d: Dict<string>, toSum: seq<string>, recent: seq<string>, k: string)
    ensures Get(KeptOthers(r, d, toSum, recent), k) ==
      if !StartsWith(k, SUMMARY_PREFIX) && k !in toSum && k !in recent && !HasKey(r, k) then Get(d, k) else Get(r, k)
  {
    if d != [] {
      var init := d[..|d| - 1];
      var (k', v) := d[|d| - 1];
      assert d == init + [(k', v)];
      KeptOthersGet(r, init, toSum, recent, k);
      KeptOthersGet(r, init, toSum, recent, k');
      GetSnoc(init, k', v, k);
    }
  }

  /** `SUMMARY_UNTIL_<max(phases_to_summarize)>`. */
  function SummaryKey(o: Order, toSum: seq<string>): (k: string)
    requires toSum != []
    ensures StartsWith(k, SUMMARY_PREFIX)
  {
    StartsWithPrefix(SUMMARY_PREFIX, MaxBy(o, toSum));
    SUMMARY_PREFIX + MaxBy(o, toSum)
  }

  /** Lines 410-454: the dict `summarize_phase_history` returns once it has a summary. */
  function Rebuilt(o: Order, d: Dict<string>, plan: Plan, summary: string): Dict<string>
    requires plan.toSummarize != [] && plan.unsummarized != []
  {
    var r1 := KeptSummaries(d, plan.toSummarize);
    var r2 := Put(r1, SummaryKey(o, plan.toSummarize), summary);
    var r3 := PutRecent(r2, d, plan.recent);
    var r4 := KeptOthers(r3, d, plan.toSummarize, plan.recent);
    var latest := MaxBy(o, plan.unsummarized);
    if !HasKey(r4, latest) then Put(r4, latest, Lookup(d, latest)) else r4
  }

  /** The result before the latest phase is checked for, read at any key. */
  lemma StagesGet(d: Dict<string>, ts: seq<string>, rs: seq<string>, key: string, summary: string, x: string)
    requires StartsWith(key, SUMMARY_PREFIX)
    requires forall y :: y in rs ==> !StartsWith(y, SUMMARY_PREFIX)
    ensures Get(KeptOthers(PutRecent(Put(KeptSummaries(d, ts), key, summary), d, rs), d, ts, rs), x) ==
      if x in rs then Some(Lookup(d, x))
      else if x == key then Some(summary)
      else if !StartsWith(x, SUMMARY_PREFIX) then (if x !in ts then Get(d, x) else None)
      else if !ContainsAny(x, ts) then Get(d, x) else None
  {
    var r2 := Put(KeptSummaries(d, ts), key, summary);
    var r3 := PutRecent(r2, d, rs);
    KeptSummariesGet(d, ts, x);
    PutRecentGet(r2, d, rs, x);
    KeptOthersGet(r3, d, ts, rs, x);
  }

  /** The returned dict read at any key, when the latest phase is among the intact ones. */
  lemma RebuiltGet(o: Order, d: Dict<string>, plan: Plan, summary: string, x: string)
    requires plan.toSummarize != [] && plan.unsummarized != []
    requires MaxBy(o, plan.unsummarized) in plan.recent
    requires forall y :: y in plan.recent ==> !StartsWith(y, SUMMARY_PREFIX)
    ensures Get(Rebuilt(o, d, plan, summary), x) ==
      if x in plan.recent then Some(Lookup(d, x))
      else if x == SummaryKey(o, plan.toSummarize) then Some(summary)
      else if !StartsWith(x, SUMMARY_PREFIX) then (if x !in plan.toSummarize then Get(d, x) else None)
      else if !ContainsAny(x, plan.toSummarize) then Get(d, x) else None
  {
    var key := SummaryKey(o, plan.toSummarize);
    StagesGet(d, plan.toSummarize, plan.recent, key, summary, x);
    StagesGet(d, plan.toSummarize, plan.recent, key, summary, MaxBy(o, plan.unsummarized));
  }

  /** What the returned dict holds: the new summary under its key, every intact phase
      unchanged, no phase that was summarised, every other regular phase unchanged, and
      the earlier summaries that name no summarised phase. */
  lemma RebuiltFacts(o: Order, d: Dict<string>, summarized: seq<string>, summary: string, k: string)
    requires PlanFor(o, Keys(d), summarized).toSummarize != []
    ensures var plan := PlanFor(o, Keys(d), summarized);
      var r := Rebuilt(o, d, plan, summary);
      && Get(r, SummaryKey(o, plan.toSummarize)) == Some(summary)
      && (k in plan.recent ==> HasKey(d, k) && Get(r, k) == Get(d, k))
      && (k in plan.toSummarize ==> !HasKey(r, k))
      && (!StartsWith(k, SUMMARY_PREFIX) && k !in plan.toSummarize && k !in plan.recent ==> Get(r, k) == Get(d, k))
      && (StartsWith(k, SUMMARY_PREFIX) && k != SummaryKey(o, plan.toSummarize) ==>
            Get(r, k) == if ContainsAny(k, plan.toSummarize) then None else Get(d, k))
  {
    var plan := PlanFor(o, Keys(d), summarized);
    assert plan.toSummarize[0] in plan.toSummarize;
    PlanKeepsLatest(o, Keys(d), summarized);
    RebuiltGet(o, d, plan, summary, k);
    RebuiltGet(o, d, plan, summary, SummaryKey(o, plan.toSummarize));
    if k in plan.recent {
      var i :| 0 <= i < |d| && Keys(d)[i] == k;
      assert d[i].0 == k;
    }
  }

  /** `summarized_phases` after lines 402-404: each new phase appended once. */
  function AppendNew(xs: seq<string>, ys: seq<string>): (r: seq<string>)
    ensures forall z :: z in r <==> z in xs || z in ys
    ensures NoDuplicates(xs) ==> NoDuplicates(r)
    ensures |xs| <= |r| && r[..|xs|] == xs
  {
    if ys == [] then xs
    else
      var init := ys[..|ys| - 1];
      var y := ys[|ys| - 1];
      var r := AppendNew(xs, init);
      assert forall z :: z in ys <==> z in init || z == y;
      if y in r then r
      else
        var s := r + [y];
        assert s[..|xs|] == r[..|xs|];
        s
  }

  /** What one call of `summarize_phase_history` returns and leaves in the shared record. */
  function PhaseSummaryOutcome(o: Order, st: PhaseState, threshold: int, d: Dict<string>, now: real, summary: string): (Dict<string>, PhaseState)
  {
    if !ShouldSummarizePhases(st, threshold, d, now) then (d, st)
    else
      var plan := PlanFor(o, Keys(d), st.summarizedPhases);
      if plan.toSummarize == [] then (d, st.(lastSummaryTime := now))
      else
        assert plan.unsummarized != [] by { assert plan.toSummarize[0] in plan.toSummarize; }
        (Rebuilt(o, d, plan, summary),
         PhaseState(Some(summary), AppendNew(st.summarizedPhases, plan.toSummarize), now))
  }

  /** A call that summarises leaves the record with the new summary, the summarised
      phases added without duplicates, and the cooldown restarted. */
  lemma OutcomeState(o: Order, st: PhaseState, threshold: int, d: Dict<string>, now: real, summary: string)
    requires NoDuplicates(st.summarizedPhases)
    ensures var (r, st') := PhaseSummaryOutcome(o, st, threshold, d, now, summary);
      && NoDuplicates(st'.summarizedPhases)
      && (st' != st ==> st'.lastSummaryTime == now)
      && (r != d ==> st'.lastSummary == Some(summary))
      && forall p :: p in st.summarizedPhases ==> p in st'.summarizedPhases
  {
  }

  /** Lines 413-417: the earlier summaries kept. */
  method KeepSummaries(d: Dict<string>, ts: seq<string>) returns (result: Dict<string>)
    ensures result == KeptSummaries(d, ts)
  {
    result := [];
    for i := 0 to |d|
      invariant result == KeptSummaries(d[..i], ts)
    {
      assert d[..i + 1][..i] == d[..i];
      var (key, v) := d[i];
      if StartsWith(key, SUMMARY_PREFIX) && !HasKey(result, key) && !ContainsAny(key, ts) {
        result := Put(result, key, v);
      }
    }
    assert d[..|d|] == d;
  }

  /** Lines 429-430: the intact phases written. */
  method WriteRecent(r: Dict<string>, d: Dict<string>, rs: seq<string>) returns (result: Dict<string>)
    ensures result == PutRecent(r, d, rs)
  {
    result := r;
    for i := 0 to |rs|
      invariant result == PutRecent(r, d, rs[..i])
    {
      assert rs[..i + 1][..i] == rs[..i];
      result := Put(result, rs[i], Lookup(d, rs[i]));
    }
    assert rs[..|rs|] == rs;
  }

  /** Lines 434-439: the other regular phases kept. */
  method KeepOthers(r: Dict<string>, d: Dict<string>, ts: seq<string>, rs: seq<string>) returns (result: Dict<string>)
    ensures result == KeptOthers(r, d, ts, rs)
  {
    result := r;
    for i := 0 to |d|
      invariant result == KeptOthers(r, d[..i], ts, rs)
    {
      assert d[..i + 1][..i] == d[..i];
      var (phase, v) := d[i];
      if !StartsWith(phase, SUMMARY_PREFIX) && phase !in ts && phase !in rs && !HasKey(result, phase) {
        result := Put(result, phase, v);
      }
    }
    assert d[..|d|] == d;
  }

  /** The dict a summarising call returns, built stage by stage as the source builds it. */
  method RebuildResult(o: Order, d: Dict<string>, plan: Plan, summary: string) returns (result: Dict<string>)
    requires plan.toSummarize != [] && plan.unsummarized != []
    ensures result == Rebuilt(o, d, plan, summary)
  {
    result := KeepSummaries(d, plan.toSummarize);
    result := Put(result, SummaryKey(o, plan.toSummarize), summary);
    result := WriteRecent(result, d, plan.recent);
    result := KeepOthers(result, d, plan.toSummarize, plan.recent);
    var latest := MaxBy(o, plan.unsummarized);
    if !HasKey(result, latest) {
      result := Put(result, latest, Lookup(d, latest));
    }
  }

  /** Lines 402-404 as a loop. */
  method MarkSummarized(xs: seq<string>, ys: seq<string>) returns (r: seq<string>)
    ensures r == AppendNew(xs, ys)
  {
    r := xs;
    for i := 0 to |ys|
      invariant r == AppendNew(xs, ys[..i])
    {
      assert ys[..i + 1][..i] == ys[..i];
      if ys[i] !in r {
        r := r + [ys[i]];
      }
    }
    assert ys[..|ys|] == ys;
  }

  /** The body of `summarize_phase_history` on the shared record `st`: the dict it
      returns and the record it leaves. */
  method SummarizePhases(o: Order, st: PhaseState, threshold: int, d: Dict<string>, now: real, summary: string)
    returns (result: Dict<string>, st': PhaseState)
    ensures (result, st') == PhaseSummaryOutcome(o, st, threshold, d, now, summary)
  {
    if !ShouldSummarizePhases(st, threshold, d, now) {
      return d, st;
    }
    st' := st.(lastSummaryTime := now);
    var plan := PlanFor(o, Keys(d), st.summarizedPhases);
    if plan.toSummarize == [] {
      return d, st';
    }
    assert plan.toSummarize[0] in plan.toSummarize;
    var marked := MarkSummarized(st.summarizedPhases, plan.toSummarize);
    st' := PhaseState(Some(summary), marked, now);
    result := RebuildResult(o, d, plan, summary);
  }

  /** `max(1, int(n * 0.75))`: three quarters, rounded down, at least one. */
  function SplitPoint(n: nat): (sp: nat)
    ensures 1 <= sp && 4 * sp <= 3 * n + 4 * (if n == 0 then 1 else 0) + 3 * (if n == 1 then 1 else 0)
    ensures n >= 1 ==> sp <= n
    ensures n >= 2 ==> sp < n
    ensures 3 * n < 4 * sp + 4
  {
    var q := (3 * n) / 4;
    if q < 1 then 1 else q
  }

  /** The line fallback (lines 585-589): the first three quarters of the lines are
      summarised, the rest kept. */
  function LineSplit(history: string): (string, string)
  {
    var lines := SplitOn(history, "\n");
    var sp := SplitPoint(|lines|);
    (Join("\n", lines[..sp]), Join("\n", lines[sp..]))
  }

  /** The character default (lines 598-600). */
  function CharSplit(history: string): (string, string)
  {
    var sp := if SplitPoint(|history|) <= |history| then SplitPoint(|history|) else |history|;
    (history[..sp], history[sp..])
  }

  /** The older part and the preserved recent part of a message history (lines 515-604):
      the timestamp sections when they yielded something, else the line fallback for
      relationship-organised history, and the character default when still empty. */
  function MessageSplit(history: string, organized: bool, stamped: Option<(string, string)>): (string, string)
  {
    var first := if organized && stamped.Some? then stamped.value else (history, "");
    var second := if organized && first.1 == "" then LineSplit(history) else first;
    if second.1 == "" then CharSplit(history) else second
  }

  /** The line fallback cuts the history at a line break, or keeps it whole when it has a
      single line. */
  lemma LineSplitReassembles(history: string)
    ensures var (older, recent) := LineSplit(history);
      if |SplitOn(history, "\n")| >= 2 then older + "\n" + recent == history
      else older == history && recent == ""
  {
    var lines := SplitOn(history, "\n");
    var sp := SplitPoint(|lines|);
    JoinSplitOn(history, "\n");
    if |lines| >= 2 {
      JoinSplitAt("\n", lines, sp);
    } else {
      assert lines[..sp] == lines;
    }
  }

  /** The character default cuts the history in two, keeping a non-empty recent part
      whenever the history has at least two characters. */
  lemma CharSplitReassembles(history: string)
    ensures var (older, recent) := CharSplit(history);
      older + recent == history && (|history| >= 2 ==> recent != "" && |older| >= 1)
  {
    var sp := if SplitPoint(|history|) <= |history| then SplitPoint(|history|) else |history|;
    assert history[..sp] + history[sp..] == history;
  }

  /** Without timestamp sections the two parts always reassemble the history, with a line
      break between them when the line fallback made the cut. */
  lemma MessageSplitReassembles(history: string, organized: bool)
    ensures var (older, recent) := MessageSplit(history, organized, None);
      older + "\n" + recent == history || older + recent == history
    ensures |history| >= 2 ==> MessageSplit(history, organized, None).1 != ""
  {
    LineSplitReassembles(history);
    CharSplitReassembles(history);
  }

  lemma {:induction false} UnsummarizedAll(phases: seq<string>, summarized: seq<string>)
    requires forall i :: 0 <= i < |phases| ==> phases[i] !in summarized && !StartsWith(phases[i], SUMMARY_PREFIX)
    ensures Unsummarized(phases, summarized) == phases
  {
    if phases != [] {
      var init := phases[..|phases| - 1];
      UnsummarizedAll(init, summarized);
      assert phases == init + [phases[|phases| - 1]];
    }
  }

  /** The phases of two game years `y` and `z` up to the second fall, in game order. */
  function TwoYears(y: string, z: string): (ps: seq<string>)
    ensures |ps| == 5
  {
    ["S" + y + "M", "F" + y + "M", "W" + y + "A", "S" + z + "M", "F" + z + "M"]
  }

  /** Two four-digit years, `y` the earlier. */
  predicate YearPair(y: string, z: string)
  {
    |y| == 4 && IsDigits(y) && |z| == 4 && IsDigits(z) && ParseNat(y) < ParseNat(z) && LexLess(y, z)
  }

  /** 1901 and 1902, the first two years of a game, are such a pair. */
  lemma FirstTwoYears()
    ensures YearPair("1901", "1902")
    ensures TwoYears("1901", "1902") == ["S1901M", "F1901M", "W1901A", "S1902M", "F1902M"]
  {
    assert "1901"[..3] == "190" && "1902"[..3] == "190";
    assert ParseNat("1901") == 10 * ParseNat("190") + 1;
    assert ParseNat("1902") == 10 * ParseNat("190") + 2;
    assert LexLess("1901"[3..], "1902"[3..]);
    assert "S" + "1901" + "M" == "S1901M" && "F" + "1901" + "M" == "F1901M" && "W" + "1901" + "A" == "W1901A";
    assert "S" + "1902" + "M" == "S1902M" && "F" + "1902" + "M" == "F1902M";
  }

  /** The second fall is the chronologically latest of the phases. */
  lemma ChronologyOfTwoYears(y: string, z: string)
    requires YearPair(y, z)
    ensures forall p :: p in TwoYears(y, z) && p != "F" + z + "M" ==> Before(Chronological, p, "F" + z + "M")
    ensures forall p :: p in TwoYears(y, z) && !Before(Chronological, p, "F" + z + "M") ==> p == "F" + z + "M"
  {
    SeasonsInOrder(z);
    YearsInOrder(y, z, 'S', 'F', "M", "M");
    YearsInOrder(y, z, 'F', 'F', "M", "M");
    YearsInOrder(y, z, 'W', 'F', "A", "M");
  }

  /** The phases in string order: season letter first, then year. */
  function LexTwoYears(y: string, z: string): seq<string>
  {
    ["F" + y + "M", "F" + z + "M", "S" + y + "M", "S" + z + "M", "W" + y + "A"]
  }

  lemma LexTwoYearsSorted(y: string, z: string)
    requires YearPair(y, z)
    ensures SortedBy(Lexicographic, LexTwoYears(y, z))
  {
    var sorted := LexTwoYears(y, z);
    LexLessExtend(y, z, "M", "M");
    assert sorted[0][1..] == y + "M" && sorted[1][1..] == z + "M";
    assert sorted[2][1..] == y + "M" && sorted[3][1..] == z + "M";
    assert forall i :: 0 <= i < 5 ==> |sorted[i]| == 6;
    assert sorted[0][0] == 'F' && sorted[1][0] == 'F' && sorted[2][0] == 'S' && sorted[3][0] == 'S' && sorted[4][0] == 'W';
    forall i, j | 0 <= i < j < 5 ensures !Before(Lexicographic, sorted[j], sorted[i]) {
      assert LexLess(sorted[i], sorted[j]);
      LexLessAsymmetric(sorted[i], sorted[j]);
    }
  }

  lemma Rearranged(t: seq<string>)
    requires |t| == 5
    ensures multiset([t[1], t[4], t[0], t[3], t[2]]) == multiset(t)
  {
    var a, b, c, d, e := t[0], t[1], t[2], t[3], t[4];
    assert t == [a] + [b] + [c] + [d] + [e];
    assert [b, e, a, d, c] == [b] + [e] + [a] + [d] + [c];
    assert multiset(t) == multiset{a} + multiset{b} + multiset{c} + multiset{d} + multiset{e};
    assert multiset([b, e, a, d, c]) == multiset{b} + multiset{e} + multiset{a} + multiset{d} + multiset{c};
  }

  /** Sorting the phases as strings gives the string order above. */
  lemma LexicographicSortOfTwoYears(y: string, z: string)
    requires YearPair(y, z)
    ensures SortBy(Lexicographic, TwoYears(y, z)) == LexTwoYears(y, z)
  {
    LexTwoYearsSorted(y, z);
    Rearranged(TwoYears(y, z));
    SortedUnique(Lexicographic, SortBy(Lexicographic, TwoYears(y, z)), LexTwoYears(y, z));
  }

  /** No phase of the two years looks like a summary entry. */
  lemma NoSummaryNames(y: string, z: string)
    requires |y| == 4 && |z| == 4
    ensures forall i :: 0 <= i < 5 ==> !StartsWith(LexTwoYears(y, z)[i], SUMMARY_PREFIX)
  {
    var sorted := LexTwoYears(y, z);
    assert forall i :: 0 <= i < 5 ==> |sorted[i]| == 6;
  }

  /** The lexicographic plan for the phases: the last three in string order stay intact. */
  lemma LexicographicPlanOfTwoYears(y: string, z: string)
    requires YearPair(y, z)
    ensures PlanFor(Lexicographic, TwoYears(y, z), []).unsummarized == LexTwoYears(y, z)
    ensures PlanFor(Lexicographic, TwoYears(y, z), []).recent == LexTwoYears(y, z)[2..]
  {
    LexicographicSortOfTwoYears(y, z);
    NoSummaryNames(y, z);
    UnsummarizedAll(LexTwoYears(y, z), []);
  }

  /** Sorting phase names as strings groups them by season letter: the second fall, the
      chronologically latest of the phases, is among those summarised, and the first
      winter is taken for the most recent phase. */
  lemma LexicographicPlanSummarizesLatest(y: string, z: string)
    requires YearPair(y, z)
    ensures "F" + z + "M" in PlanFor(Lexicographic, TwoYears(y, z), []).toSummarize
    ensures MaxBy(Lexicographic, PlanFor(Lexicographic, TwoYears(y, z), []).unsummarized) == "W" + y + "A"
  {
    var sorted := LexTwoYears(y, z);
    LexicographicPlanOfTwoYears(y, z);
    assert sorted[1] in sorted;
    assert sorted[1][0] == 'F' && sorted[2][0] == 'S' && sorted[3][0] == 'S' && sorted[4][0] == 'W';
    assert sorted[1] !in sorted[2..];
    LexTwoYearsSorted(y, z);
    MaxOfSorted(Lexicographic, sorted);
  }

  /** In chronological order the second fall stays intact. */
  lemma ChronologicalPlanKeepsLatest(y: string, z: string)
    requires YearPair(y, z)
    ensures "F" + z + "M" in PlanFor(Chronological, TwoYears(y, z), []).recent
    ensures MaxBy(Chronological, PlanFor(Chronological, TwoYears(y, z), []).unsummarized) == "F" + z + "M"
  {
    var plan := PlanFor(Chronological, TwoYears(y, z), []);
    assert |"F" + z + "M"| == 6 && "F" + z + "M" in TwoYears(y, z);
    ChronologyOfTwoYears(y, z);
    PlanKeepsLatest(Chronological, TwoYears(y, z), []);
  }

  /** The summary bookkeeping of one game. */
  class ContextManager {
    var phaseTokenThreshold: int
    var messageTokenThreshold: int
    var summaryModel: string
    var powerStates: map<string, PowerState>
    var phaseState: PhaseState

    constructor(phaseTokenThreshold: int, messageTokenThreshold: int, summaryModel: string)
      ensures this.phaseTokenThreshold == phaseTokenThreshold && this.messageTokenThreshold == messageTokenThreshold
      ensures this.summaryModel == summaryModel
      ensures powerStates == map[] && phaseState == FRESH_PHASE_STATE
    {
      this.phaseTokenThreshold := phaseTokenThreshold;
      this.messageTokenThreshold := messageTokenThreshold;
      this.summaryModel := summaryModel;
      powerStates := map[];
      phaseState := FRESH_PHASE_STATE;
    }

    /** `get_power_state`. */
    method GetPowerState(powerName: string) returns (st: PowerState)
      modifies this
      ensures powerStates == WithPowerState(old(powerStates), powerName)
      ensures st == powerStates[powerName]
      ensures phaseState == old(phaseState)
      ensures phaseTokenThreshold == old(phaseTokenThreshold) && messageTokenThreshold == old(messageTokenThreshold)
      ensures summaryModel == old(summaryModel)
    {
      if powerName !in powerStates {
        powerStates := powerStates[powerName := FRESH_POWER_STATE];
      }
      st := powerStates[powerName];
    }

    /** `should_summarize_messages`, which looks the power's record up first. */
    method ShouldSummarizeMessagesFor(history: string, powerName: string, now: real) returns (b: bool)
      modifies this
      ensures powerStates == WithPowerState(old(powerStates), powerName)
      ensures b == ShouldSummarizeMessages(powerStates[powerName], messageTokenThreshold, history, now)
      ensures phaseState == old(phaseState)
      ensures phaseTokenThreshold == old(phaseTokenThreshold) && messageTokenThreshold == old(messageTokenThreshold)
      ensures summaryModel == old(summaryModel)
    {
      var st := GetPowerState(powerName);
      b := ShouldSummarizeMessages(st, messageTokenThreshold, history, now);
    }

    /** `summarize_phase_history`, with `summary` the model's reply. The phases are put
        in chronological order. */
    method SummarizePhaseHistory(d: Dict<string>, now: real, summary: string) returns (result: Dict<string>)
      modifies this
      ensures (result, phaseState) == PhaseSummaryOutcome(Chronological, old(phaseState), phaseTokenThreshold, d, now, summary)
      ensures powerStates == old(powerStates)
      ensures phaseTokenThreshold == old(phaseTokenThreshold) && messageTokenThreshold == old(messageTokenThreshold)
      ensures summaryModel == old(summaryModel)
    {
      var st;
      result, st := SummarizePhases(Chronological, phaseState, phaseTokenThreshold, d, now, summary);
      phaseState := st;
    }
  }
}
