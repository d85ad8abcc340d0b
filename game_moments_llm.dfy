/**
 * The second game analyser (analyze_game_moments_llm_new.py): the cheap scan that picks
 * the phases worth a deep analysis, the cap of key moments per category, the cap on the
 * lies reported and the winner read from the final phase summary. The language model
 * that finds moments and lies is left out: what it finds is an input here.
 */
module GameMomentsLlm {
  import opened Wrappers
  import opened Text
  import opened Seqs
  import opened Sorting
  import PhaseOrder
  import GameMoments
  import Powers

  /** `GameMoment`, without the raw messages, orders and diary context it carries along. */
  datatype Moment = Moment(
    phase: string, category: string, powersInvolved: seq<string>, promiseAgreement: string,
    actualAction: string, impact: string, interestScore: real)

  /** The categories `filter_top_moments` keeps, in the order it visits them. */
  const CATEGORIES: seq<string> :=
    ["BETRAYAL", "COLLABORATION", "PLAYING_BOTH_SIDES", "BRILLIANT_STRATEGY", "STRATEGIC_BLUNDER"]

  /** `m.category == c`. */
  function InCategory(c: string): Moment -> bool
  {
    (m: Moment) => m.category == c
  }

  // ---------------------------------------------------------------------------------
  // Top moments per category
  // ---------------------------------------------------------------------------------

  /** `a` sorts first under `key=(interest_score, phase_sort_key(phase)), reverse=True`:
      its key is the greater one. */
  predicate ScoreThenPhase(a: Moment, b: Moment)
  {
    a.interestScore > b.interestScore
    || (a.interestScore == b.interestScore
        && PhaseOrder.KeyLess(PhaseOrder.PhaseSortKey(b.phase), PhaseOrder.PhaseSortKey(a.phase)))
  }

  /** `a` sorts first under `key=interest_score, reverse=True`. */
  predicate ByScore(a: Moment, b: Moment)
  {
    a.interestScore > b.interestScore
  }

  lemma ScoreThenPhaseStrict()
    ensures StrictOrder(ScoreThenPhase)
  {
    forall a: Moment ensures !ScoreThenPhase(a, a) {
      PhaseOrder.KeyLessIrreflexive(PhaseOrder.PhaseSortKey(a.phase));
    }
    forall a: Moment, b: Moment, c: Moment | ScoreThenPhase(a, b) && ScoreThenPhase(b, c)
      ensures ScoreThenPhase(a, c)
    {
      var ka, kb, kc := PhaseOrder.PhaseSortKey(a.phase), PhaseOrder.PhaseSortKey(b.phase), PhaseOrder.PhaseSortKey(c.phase);
      if a.interestScore == b.interestScore == c.interestScore {
        PhaseOrder.KeyLessTransitive(kc, kb, ka);
      }
    }
  }

  lemma ByScoreStrict()
    ensures StrictOrder(ByScore)
  {
  }

  /** `sorted(category_moments, key=..., reverse=True)[:max_per_category]`. */
  function CategoryTop(moments: seq<Moment>, maxPerCategory: int, c: string): seq<Moment>
  {
    PyPrefix(SortBy(ScoreThenPhase, Filter(moments, InCategory(c))), maxPerCategory)
  }

  /** `filtered_moments` after the categories `cats`, visited in order. */
  function Kept(moments: seq<Moment>, maxPerCategory: int, cats: seq<string>): seq<Moment>
  {
    if cats == [] then []
    else Kept(moments, maxPerCategory, cats[..|cats| - 1]) + CategoryTop(moments, maxPerCategory, cats[|cats| - 1])
  }

  /** What `filter_top_moments` returns. */
  function TopMoments(moments: seq<Moment>, maxPerCategory: int): seq<Moment>
  {
    SortBy(ByScore, Kept(moments, maxPerCategory, CATEGORIES))
  }

  /** The first loop of `filter_top_moments`: the moments of each known category, in
      input order. */
  method GroupByCategory(moments: seq<Moment>) returns (byCategory: map<string, seq<Moment>>)
    ensures forall c :: c in byCategory <==> c in CATEGORIES
    ensures forall c :: c in byCategory ==> byCategory[c] == Filter(moments, InCategory(c))
  {
    byCategory := map[
      "BETRAYAL" := [], "COLLABORATION" := [], "PLAYING_BOTH_SIDES" := [],
      "BRILLIANT_STRATEGY" := [], "STRATEGIC_BLUNDER" := []];
    for i := 0 to |moments|
      invariant forall c :: c in byCategory <==> c in CATEGORIES
      invariant forall c :: c in byCategory ==> byCategory[c] == Filter(moments[..i], InCategory(c))
    {
      assert moments[..i + 1][..i] == moments[..i];
      var moment := moments[i];
      if moment.category in byCategory {
        byCategory := byCategory[moment.category := byCategory[moment.category] + [moment]];
      }
    }
    assert moments[..|moments|] == moments;
  }

  /** `filter_top_moments`: group the moments by category, keep the best of each, and
      order the survivors by score. */
  method FilterTopMoments(moments: seq<Moment>, maxPerCategory: int) returns (r: seq<Moment>)
    ensures r == TopMoments(moments, maxPerCategory)
  {
    var byCategory := GroupByCategory(moments);
    var filtered: seq<Moment> := [];
    for k := 0 to |CATEGORIES|
      invariant filtered == Kept(moments, maxPerCategory, CATEGORIES[..k])
    {
      assert CATEGORIES[..k + 1][..k] == CATEGORIES[..k];
      var sortedMoments := SortBy(ScoreThenPhase, byCategory[CATEGORIES[k]]);
      filtered := filtered + PyPrefix(sortedMoments, maxPerCategory);
    }
    assert CATEGORIES[..|CATEGORIES|] == CATEGORIES;
    r := SortBy(ByScore, filtered);
  }

  /** The moments kept for a category are moments of that category. */
  lemma CategoryTopMembers(moments: seq<Moment>, maxPerCategory: int, c: string)
    ensures forall m :: m in CategoryTop(moments, maxPerCategory, c) ==> m in moments && m.category == c
  {
    var f := Filter(moments, InCategory(c));
    var s := SortBy(ScoreThenPhase, f);
    var t := CategoryTop(moments, maxPerCategory, c);
    FilterMembers(moments, InCategory(c));
    SortByMembers(ScoreThenPhase, f);
    assert t == s[..|t|];
    forall m | m in t ensures m in moments && m.category == c {
      assert m in s;
    }
  }

  /** Everything kept comes from the input and from one of the categories visited. */
  lemma {:induction false} KeptMembers(moments: seq<Moment>, maxPerCategory: int, cats: seq<string>)
    ensures forall m :: m in Kept(moments, maxPerCategory, cats) ==> m in moments && m.category in cats
  {
    if cats != [] {
      var init, d := cats[..|cats| - 1], cats[|cats| - 1];
      KeptMembers(moments, maxPerCategory, init);
      CategoryTopMembers(moments, maxPerCategory, d);
      assert cats == init + [d];
    }
  }

  /** The five categories are distinct. */
  lemma CategoriesDistinct()
    ensures NoDuplicates(CATEGORIES)
  {
    assert |CATEGORIES[0]| == 8 && |CATEGORIES[1]| == 13 && |CATEGORIES[4]| == 17;
    assert |CATEGORIES[2]| == 18 && |CATEGORIES[3]| == 18 && CATEGORIES[2][0] != CATEGORIES[3][0];
  }

  /** A category's survivors, filtered by category `c`. */
  lemma CategoryTopOfCategory(moments: seq<Moment>, maxPerCategory: int, d: string, c: string)
    ensures Filter(CategoryTop(moments, maxPerCategory, d), InCategory(c))
      == if c == d then CategoryTop(moments, maxPerCategory, d) else []
  {
    CategoryTopMembers(moments, maxPerCategory, d);
    if c == d {
      FilterAll(CategoryTop(moments, maxPerCategory, d), InCategory(c));
    } else {
      FilterNone(CategoryTop(moments, maxPerCategory, d), InCategory(c));
    }
  }

  /** Visiting distinct categories, the survivors of category `c` are the ones its own
      visit kept, or none when it is not visited. */
  lemma {:induction false} KeptOfCategory(moments: seq<Moment>, maxPerCategory: int, cats: seq<string>, c: string)
    requires NoDuplicates(cats)
    ensures Filter(Kept(moments, maxPerCategory, cats), InCategory(c))
      == if c in cats then CategoryTop(moments, maxPerCategory, c) else []
  {
    if cats != [] {
      var init, d := cats[..|cats| - 1], cats[|cats| - 1];
      var before, t := Kept(moments, maxPerCategory, init), CategoryTop(moments, maxPerCategory, d);
      assert cats == init + [d];
      assert NoDuplicates(init) by {
        forall i, j | 0 <= i < j < |init| ensures init[i] != init[j] {
          assert init[i] == cats[i] && init[j] == cats[j];
        }
      }
      assert c == d ==> c !in init by {
        forall i | 0 <= i < |init| ensures init[i] != d {
          assert init[i] == cats[i];
        }
      }
      KeptOfCategory(moments, maxPerCategory, init, c);
      FilterAppend(before, t, InCategory(c));
      CategoryTopOfCategory(moments, maxPerCategory, d, c);
    }
  }

  /** `filter_top_moments` returns moments of the input, of known categories only,
      highest score first. */
  lemma TopMomentsFromInput(moments: seq<Moment>, maxPerCategory: int)
    ensures var r := TopMoments(moments, maxPerCategory);
      && (forall m :: m in r ==> m in moments && m.category in CATEGORIES)
      && (forall i, j :: 0 <= i < j < |r| ==> r[i].interestScore >= r[j].interestScore)
  {
    var kept := Kept(moments, maxPerCategory, CATEGORIES);
    KeptMembers(moments, maxPerCategory, CATEGORIES);
    SortByMembers(ByScore, kept);
    ByScoreStrict();
    SortBySorted(ByScore, kept);
  }

  /** For each known category, the result holds exactly that category's best
      `max_per_category` moments; it holds nothing of any other category. */
  lemma TopMomentsPerCategory(moments: seq<Moment>, maxPerCategory: int, c: string)
    ensures c in CATEGORIES ==>
      multiset(Filter(TopMoments(moments, maxPerCategory), InCategory(c))) == multiset(CategoryTop(moments, maxPerCategory, c))
    ensures c !in CATEGORIES ==> Filter(TopMoments(moments, maxPerCategory), InCategory(c)) == []
  {
    var kept := Kept(moments, maxPerCategory, CATEGORIES);
    CategoriesDistinct();
    KeptOfCategory(moments, maxPerCategory, CATEGORIES, c);
    FilterPermutation(TopMoments(moments, maxPerCategory), kept, InCategory(c));
    if c !in CATEGORIES {
      var f := Filter(TopMoments(moments, maxPerCategory), InCategory(c));
      assert |f| == |multiset(f)| == 0;
    }
  }

  /** A category contributes `min(max_per_category, n)` moments, `n` being how many of the
      input are of that category. */
  lemma TopMomentsCap(moments: seq<Moment>, maxPerCategory: nat, c: string)
    requires c in CATEGORIES
    ensures |Filter(TopMoments(moments, maxPerCategory), InCategory(c))|
      == Min(maxPerCategory, |Filter(moments, InCategory(c))|)
  {
    TopMomentsPerCategory(moments, maxPerCategory, c);
    var r := Filter(TopMoments(moments, maxPerCategory), InCategory(c));
    var t := CategoryTop(moments, maxPerCategory, c);
    assert |r| == |multiset(r)| == |multiset(t)| == |t|;
  }

  /** The moments a category keeps are its best: in the category sorted by score (then
      phase), none kept scores below one dropped. */
  lemma CategoryTopIsBest(moments: seq<Moment>, maxPerCategory: int, c: string)
    ensures var s := SortBy(ScoreThenPhase, Filter(moments, InCategory(c)));
      var t := CategoryTop(moments, maxPerCategory, c);
      && t == s[..|t|]
      && forall i, j :: 0 <= i < |t| <= j < |s| ==> s[i].interestScore >= s[j].interestScore
  {
    ScoreThenPhaseStrict();
    SortBySorted(ScoreThenPhase, Filter(moments, InCategory(c)));
  }

  // ---------------------------------------------------------------------------------
  // The quick scan
  // ---------------------------------------------------------------------------------

  /** What `quick_scan_phase` reads of a phase: its name, how many messages were sent,
      how many powers gave orders, and its summary. */
  datatype PhaseData = PhaseData(name: string, messageCount: nat, orderCount: nat, summary: string)

  const HIGH_IMPACT_KEYWORDS: seq<string> := [
    "eliminated", "solo", "victory", "betrayed", "collapsed",
    "captured", "breakthrough", "disaster", "brilliant"]

  /** Scores are counted in half points: 0.5 is 1 and the cap of 10 is 20. */
  const SCORE_CAP: nat := 20

  /** Two points, four half points, per keyword the text contains. */
  function KeywordPoints(keywords: seq<string>, text: string): nat
  {
    if keywords == [] then 0
    else KeywordPoints(keywords[..|keywords| - 1], text) + (if Contains(text, keywords[|keywords| - 1]) then 4 else 0)
  }

  /** Half a point past ten messages, one point past twenty. */
  function VolumePoints(messageCount: nat): nat
  {
    if messageCount > 20 then 2 else if messageCount > 10 then 1 else 0
  }

  /** One point for the opening years, two for any year after 1920. */
  function YearPoints(name: string): nat
  {
    if |name| >= 5 then
      var year := name[1..5];
      if year == "1901" || year == "1902" then 2
      else if IsDigits(year) && ParseNat(year) > 1920 then 4
      else 0
    else 0
  }

  /** The points the summary earns. */
  function SummaryPoints(summary: string): nat
  {
    var s := Lower(summary);
    KeywordPoints(HIGH_IMPACT_KEYWORDS, s) + (if Contains(s, "supply center") || Contains(s, "builds") then 2 else 0)
  }

  /** The score before the cap. */
  function ScanPoints(p: PhaseData): nat
  {
    SummaryPoints(p.summary) + VolumePoints(p.messageCount) + YearPoints(p.name)
  }

  /** `quick_scan_phase`, in half points. */
  function QuickScan(p: PhaseData): (r: nat)
    ensures r <= SCORE_CAP
    ensures p.messageCount == 0 && p.orderCount == 0 ==> r == 0
    ensures (p.messageCount > 0 || p.orderCount > 0) && ScanPoints(p) <= SCORE_CAP ==> r == ScanPoints(p)
  {
    if p.messageCount == 0 && p.orderCount == 0 then 0 else Min(ScanPoints(p), SCORE_CAP)
  }

  /** `quick_scan_phase`, as the loop over the keywords it is. */
  method QuickScanPhase(p: PhaseData) returns (score: nat)
    ensures score == QuickScan(p)
  {
    if p.messageCount == 0 && p.orderCount == 0 {
      return 0;
    }
    var summaryLower := Lower(p.summary);
    score := 0;
    for k := 0 to |HIGH_IMPACT_KEYWORDS|
      invariant score == KeywordPoints(HIGH_IMPACT_KEYWORDS[..k], summaryLower)
    {
      assert HIGH_IMPACT_KEYWORDS[..k + 1][..k] == HIGH_IMPACT_KEYWORDS[..k];
      if Contains(summaryLower, HIGH_IMPACT_KEYWORDS[k]) {
        score := score + 4;
      }
    }
    assert HIGH_IMPACT_KEYWORDS[..|HIGH_IMPACT_KEYWORDS|] == HIGH_IMPACT_KEYWORDS;
    if Contains(summaryLower, "supply center") || Contains(summaryLower, "builds") {
      score := score + 2;
    }
    if p.messageCount > 20 {
      score := score + 2;
    } else if p.messageCount > 10 {
      score := score + 1;
    }
    if |p.name| >= 5 {
      var year := p.name[1..5];
      if year == "1901" || year == "1902" {
        score := score + 2;
      } else if IsDigits(year) && ParseNat(year) > 1920 {
        score := score + 4;
      }
    }
    score := Min(score, SCORE_CAP);
  }

  /** The keywords present in `text`. */
  function Present(keywords: seq<string>, text: string): set<string>
  {
    set k | k in keywords && Contains(text, k)
  }

  lemma PresentSnoc(init: seq<string>, last: string, text: string)
    ensures Present(init + [last], text) == Present(init, text) + (if Contains(text, last) then {last} else {})
  {
    assert forall k :: k in init + [last] <==> k in init || k == last;
  }

  /** Each distinct keyword the text contains is worth two points. */
  lemma {:induction false} KeywordPointsCount(keywords: seq<string>, text: string)
    requires NoDuplicates(keywords)
    ensures KeywordPoints(keywords, text) == 4 * |Present(keywords, text)|
  {
    if keywords != [] {
      var init, last := keywords[..|keywords| - 1], keywords[|keywords| - 1];
      assert keywords == init + [last];
      assert NoDuplicates(init) && last !in init by {
        forall i, j | 0 <= i < j < |init| ensures init[i] != init[j] {
          assert init[i] == keywords[i] && init[j] == keywords[j];
        }
        forall i | 0 <= i < |init| ensures init[i] != last {
          assert init[i] == keywords[i];
        }
      }
      KeywordPointsCount(init, text);
      PresentSnoc(init, last, text);
      assert last !in Present(init, text);
    }
  }

  /** The nine keywords are distinct, so each one the summary names adds two points. */
  lemma SummaryKeywords(summary: string)
    ensures KeywordPoints(HIGH_IMPACT_KEYWORDS, Lower(summary)) == 4 * |Present(HIGH_IMPACT_KEYWORDS, Lower(summary))|
  {
    assert NoDuplicates(HIGH_IMPACT_KEYWORDS) by {
      assert |HIGH_IMPACT_KEYWORDS[0]| == 10 && |HIGH_IMPACT_KEYWORDS[1]| == 4 && |HIGH_IMPACT_KEYWORDS[2]| == 7;
      assert |HIGH_IMPACT_KEYWORDS[3]| == 8 && |HIGH_IMPACT_KEYWORDS[4]| == 9 && |HIGH_IMPACT_KEYWORDS[5]| == 8;
      assert |HIGH_IMPACT_KEYWORDS[6]| == 12 && |HIGH_IMPACT_KEYWORDS[7]| == 8 && |HIGH_IMPACT_KEYWORDS[8]| == 9;
      assert HIGH_IMPACT_KEYWORDS[3][0] != HIGH_IMPACT_KEYWORDS[5][0] && HIGH_IMPACT_KEYWORDS[3][0] != HIGH_IMPACT_KEYWORDS[7][0];
      assert HIGH_IMPACT_KEYWORDS[5][0] != HIGH_IMPACT_KEYWORDS[7][0] && HIGH_IMPACT_KEYWORDS[4][0] != HIGH_IMPACT_KEYWORDS[8][0];
    }
    KeywordPointsCount(HIGH_IMPACT_KEYWORDS, Lower(summary));
  }

  lemma ContainsExtended(s: string, extra: string, p: string)
    requires Contains(s, p)
    ensures Contains(s + extra, p)
  {
    var i :| 0 <= i <= |s| - |p| && OccursAt(s, p, i);
    assert (s + extra)[i..i + |p|] == s[i..i + |p|];
    assert OccursAt(s + extra, p, i);
  }

  lemma {:induction false} KeywordPointsExtended(keywords: seq<string>, text: string, extra: string)
    ensures KeywordPoints(keywords, text + extra) >= KeywordPoints(keywords, text)
  {
    if keywords != [] {
      KeywordPointsExtended(keywords[..|keywords| - 1], text, extra);
      if Contains(text, keywords[|keywords| - 1]) {
        ContainsExtended(text, extra, keywords[|keywords| - 1]);
      }
    }
  }

  /** More summary text never lowers the score of a phase. */
  lemma QuickScanGrowsWithSummary(p: PhaseData, extra: string)
    ensures QuickScan(p.(summary := p.summary + extra)) >= QuickScan(p)
  {
    var s, e := Lower(p.summary), Lower(extra);
    LowerAppend(p.summary, extra);
    KeywordPointsExtended(HIGH_IMPACT_KEYWORDS, s, e);
    if Contains(s, "supply center") { ContainsExtended(s, e, "supply center"); }
    if Contains(s, "builds") { ContainsExtended(s, e, "builds"); }
  }

  /** More messages never lower the score of a phase. */
  lemma QuickScanGrowsWithMessages(p: PhaseData, more: nat)
    ensures QuickScan(p.(messageCount := p.messageCount + more)) >= QuickScan(p)
  {
  }

  lemma NoKeywordsInEmpty(keywords: seq<string>)
    requires forall i :: 0 <= i < |keywords| ==> keywords[i] != []
    ensures KeywordPoints(keywords, "") == 0
  {
    if keywords != [] {
      NoKeywordsInEmpty(keywords[..|keywords| - 1]);
    }
  }

  /** A quiet opening phase with one message scores one point; a quiet phase of 1921
      with orders only scores two. */
  lemma QuickScanYears()
    ensures QuickScan(PhaseData("S1901M", 1, 0, "")) == 2
    ensures QuickScan(PhaseData("F1921M", 0, 1, "")) == 4
  {
    NoKeywordsInEmpty(HIGH_IMPACT_KEYWORDS);
    assert "S1901M"[1..5] == "1901";
    assert "F1921M"[1..5] == "1921";
    assert ParseNat("1921") == 1921 by {
      assert "1921"[..3] == "192" && "192"[..2] == "19" && "19"[..1] == "1" && "1"[..0] == "";
    }
  }

  // ---------------------------------------------------------------------------------
  // The lies reported
  // ---------------------------------------------------------------------------------

  type Lie = GameMoments.Lie

  /** `if lie.impact`. */
  predicate HasImpact(lie: Lie)
  {
    lie.impact != ""
  }

  /** The impactful lies of phase after phase. */
  function ImpactfulLies(phaseLies: seq<seq<Lie>>): seq<Lie>
  {
    if phaseLies == [] then []
    else ImpactfulLies(phaseLies[..|phaseLies| - 1]) + Filter(phaseLies[|phaseLies| - 1], HasImpact)
  }

  /** Filtering phase by phase is filtering the lies of all phases. */
  lemma {:induction false} ImpactfulOfAll(phaseLies: seq<seq<Lie>>)
    ensures ImpactfulLies(phaseLies) == Filter(GameMoments.Flatten(phaseLies), HasImpact)
  {
    if phaseLies != [] {
      var init := phaseLies[..|phaseLies| - 1];
      ImpactfulOfAll(init);
      FilterAppend(GameMoments.Flatten(init), phaseLies[|phaseLies| - 1], HasImpact);
    }
  }

  /** `key=lambda l: self.phase_sort_key(l.phase)`. */
  predicate EarlierPhase(a: Lie, b: Lie)
  {
    PhaseOrder.KeyLess(PhaseOrder.PhaseSortKey(a.phase), PhaseOrder.PhaseSortKey(b.phase))
  }

  lemma EarlierPhaseStrict()
    ensures StrictOrder(EarlierPhase)
  {
    forall a: Lie ensures !EarlierPhase(a, a) {
      PhaseOrder.KeyLessIrreflexive(PhaseOrder.PhaseSortKey(a.phase));
    }
    forall a: Lie, b: Lie, c: Lie | EarlierPhase(a, b) && EarlierPhase(b, c) ensures EarlierPhase(a, c) {
      PhaseOrder.KeyLessTransitive(PhaseOrder.PhaseSortKey(a.phase), PhaseOrder.PhaseSortKey(b.phase), PhaseOrder.PhaseSortKey(c.phase));
    }
  }

  const MAX_LIES: nat := 10

  /** `self.lies.sort(key=...)` followed by `self.lies[:10]`. */
  function EarliestLies(lies: seq<Lie>): seq<Lie>
  {
    PyPrefix(SortBy(EarlierPhase, lies), MAX_LIES)
  }

  /** At most ten lies are kept, and fewer only when there were fewer; they are lies of the
      input, in phase order, and none dropped comes from an earlier phase than one kept. */
  lemma EarliestLiesMeaning(lies: seq<Lie>)
    ensures var r := EarliestLies(lies);
      && |r| == Min(MAX_LIES, |lies|)
      && (forall l :: l in r ==> l in lies)
      && SortedBy(EarlierPhase, r)
  {
    var s := SortBy(EarlierPhase, lies);
    var r := EarliestLies(lies);
    EarlierPhaseStrict();
    SortBySorted(EarlierPhase, lies);
    SortByMembers(EarlierPhase, lies);
    assert r == s[..|r|];
    SortedInit(EarlierPhase, s, |r|);
    forall l | l in r ensures l in lies {
      assert l in s;
    }
  }

  /** No dropped lie is from an earlier phase than a kept one. */
  lemma EarliestLiesFirst(lies: seq<Lie>)
    ensures var s := SortBy(EarlierPhase, lies);
      var r := EarliestLies(lies);
      && r == s[..|r|]
      && forall i, j :: 0 <= i < |r| <= j < |s| ==> !EarlierPhase(s[j], s[i])
  {
    EarlierPhaseStrict();
    SortBySorted(EarlierPhase, lies);
  }

  // ---------------------------------------------------------------------------------
  // The winner
  // ---------------------------------------------------------------------------------

  /** The final summary announces a winner. */
  predicate ClaimsVictory(summary: string)
  {
    Contains(Lower(summary), "solo victory") || Contains(Lower(summary), "wins")
  }

  /** The first of `powers[i..]` the summary names, case-sensitively. */
  function FirstNamed(powers: seq<string>, summary: string, i: nat := 0): (r: Option<string>)
    decreases |powers| - i
  {
    if i >= |powers| then None
    else if Contains(summary, powers[i]) then Some(powers[i])
    else FirstNamed(powers, summary, i + 1)
  }

  /** The winner `generate_narrative` names. */
  function Winner(phases: seq<PhaseData>): Option<string>
  {
    if phases == [] then None
    else
      var summary := phases[|phases| - 1].summary;
      if ClaimsVictory(summary) then FirstNamed(Powers.POWERS, summary) else None
  }

  /** The search for the winner: the first power, in the fixed order, the final summary
      names. */
  method FindWinner(phases: seq<PhaseData>) returns (winner: Option<string>)
    ensures winner == Winner(phases)
  {
    winner := None;
    if phases == [] {
      return;
    }
    var finalSummary := phases[|phases| - 1].summary;
    if Contains(Lower(finalSummary), "solo victory") || Contains(Lower(finalSummary), "wins") {
      for i := 0 to |Powers.POWERS|
        invariant FirstNamed(Powers.POWERS, finalSummary) == FirstNamed(Powers.POWERS, finalSummary, i)
      {
        if Contains(finalSummary, Powers.POWERS[i]) {
          winner := Some(Powers.POWERS[i]);
          return;
        }
      }
    }
  }

  lemma {:induction false} FirstNamedMeaning(powers: seq<string>, summary: string, i: nat)
    requires i <= |powers|
    ensures var r := FirstNamed(powers, summary, i);
      && (r.Some? ==> exists k :: (i <= k < |powers| && powers[k] == r.value && Contains(summary, r.value)
            && forall j :: i <= j < k ==> !Contains(summary, powers[j])))
      && (r.None? ==> forall j :: i <= j < |powers| ==> !Contains(summary, powers[j]))
    decreases |powers| - i
  {
    if i < |powers| && !Contains(summary, powers[i]) {
      FirstNamedMeaning(powers, summary, i + 1);
    }
  }

  /** A winner is named only when the final summary claims a victory, and then it is the
      first of the seven powers the summary names; with no claim, or no power named, there
      is none. */
  lemma WinnerMeaning(phases: seq<PhaseData>)
    ensures var w := Winner(phases);
      && (w.Some? ==> phases != [] && ClaimsVictory(phases[|phases| - 1].summary))
      && (w.Some? ==> exists k :: (0 <= k < |Powers.POWERS| && Powers.POWERS[k] == w.value
            && Contains(phases[|phases| - 1].summary, w.value)
            && forall j :: 0 <= j < k ==> !Contains(phases[|phases| - 1].summary, Powers.POWERS[j])))
      && (w.None? <==> (phases == [] || !ClaimsVictory(phases[|phases| - 1].summary)
            || forall j :: 0 <= j < |Powers.POWERS| ==> !Contains(phases[|phases| - 1].summary, Powers.POWERS[j])))
  {
    if phases != [] {
      FirstNamedMeaning(Powers.POWERS, phases[|phases| - 1].summary, 0);
    }
  }

  // ---------------------------------------------------------------------------------
  // The analyser's results
  // ---------------------------------------------------------------------------------

  /** The part of `GameAnalyzer` that keeps the moments and lies found. */
  class GameAnalyzer {
    var powerToModel: map<string, string>
    var moments: seq<Moment>
    var lies: seq<Lie>
    var liesByModel: map<string, GameMoments.LieCounts>

    constructor (powerToModel: map<string, string>)
      ensures this.powerToModel == powerToModel && moments == [] && lies == [] && liesByModel == map[]
    {
      this.powerToModel := powerToModel;
      moments := [];
      lies := [];
      liesByModel := map[];
    }

    /** `self.lies.extend(impactful_lies)` for each analysed phase in turn. */
    method RecordImpactfulLies(phaseLies: seq<seq<Lie>>)
      modifies this
      ensures lies == old(lies) + ImpactfulLies(phaseLies)
      ensures unchanged(this`powerToModel, this`moments, this`liesByModel)
    {
      for i := 0 to |phaseLies|
        invariant lies == old(lies) + ImpactfulLies(phaseLies[..i])
        invariant unchanged(this`powerToModel, this`moments, this`liesByModel)
      {
        assert phaseLies[..i + 1][..i] == phaseLies[..i];
        var impactful := Filter(phaseLies[i], HasImpact);
        lies := lies + impactful;
      }
      assert phaseLies[..|phaseLies|] == phaseLies;
    }

    /** `self.moments = self.filter_top_moments(all_moments, max_per_category=5)`. */
    method KeepTopMoments(allMoments: seq<Moment>)
      modifies this
      ensures moments == TopMoments(allMoments, 5)
      ensures unchanged(this`powerToModel, this`lies, this`liesByModel)
    {
      moments := FilterTopMoments(allMoments, 5);
    }

    /** Sort the lies by phase and keep the first ten. */
    method KeepEarliestLies()
      modifies this
      ensures lies == EarliestLies(old(lies))
      ensures unchanged(this`powerToModel, this`moments, this`liesByModel)
    {
      lies := SortBy(EarlierPhase, lies);
      lies := PyPrefix(lies, MAX_LIES);
    }

    /** The tally loop of `analyze_game`. */
    method CountLies()
      modifies this
      ensures liesByModel == GameMoments.Tally(old(liesByModel), lies, powerToModel)
      ensures unchanged(this`powerToModel, this`moments, this`lies)
    {
      liesByModel := GameMoments.CountLiesByModel(liesByModel, lies, powerToModel);
    }

    /** `self.moments.sort(key=lambda m: m.interest_score, reverse=True)`. */
    method SortMoments()
      modifies this
      ensures moments == SortBy(ByScore, old(moments))
      ensures unchanged(this`powerToModel, this`lies, this`liesByModel)
    {
      moments := SortBy(ByScore, moments);
    }

    /** The end of `analyze_game`: keep the top moments, record the impactful lies, keep
        the ten earliest, count them per model, and sort the moments by score once more,
        which leaves them as they were. */
    method FinishAnalysis(allMoments: seq<Moment>, phaseLies: seq<seq<Lie>>)
      modifies this
      ensures moments == TopMoments(allMoments, 5)
      ensures lies == EarliestLies(old(lies) + ImpactfulLies(phaseLies))
      ensures liesByModel == GameMoments.Tally(old(liesByModel), lies, powerToModel)
      ensures powerToModel == old(powerToModel)
    {
      KeepTopMoments(allMoments);
      RecordImpactfulLies(phaseLies);
      KeepEarliestLies();
      CountLies();
      ByScoreStrict();
      SortByIdempotent(ByScore, Kept(allMoments, 5, CATEGORIES));
      SortMoments();
    }
  }
}
