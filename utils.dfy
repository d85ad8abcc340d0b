/**
 * The game-independent helpers of `ai_diplomacy/utils.py`: which model plays
 * which power, the single validity probe that decides between a model's
 * orders and the fallback, the reading of a phase code such as `S1901M`, the
 * framing of the history text, the strategic sorting of possible orders and
 * the counts behind the supply-centre projection.
 */
module Utils {
  import opened Wrappers
  import opened Text
  import opened ODict
  import opened Seqs
  import opened Powers
  import Clients
  import ErrorStats

  // ---------------------------------------------------------------------
  // assign_models_to_powers

  /** The seven model ids the game hands out. */
  const MODEL_LIST: seq<string> := ["o3-mini", "gemini-1.5-flash", "gemini-2.0-flash",
    "gemini-2.0-flash-lite", "gemini-1.5-pro", "gpt-4o-mini", "claude-3-5-haiku-20241022"]

  lemma ModelsListed()
    ensures |MODEL_LIST| == |POWERS| == 7
    ensures NoDuplicates(MODEL_LIST) && NoDuplicates(POWERS)
  {
  }

  /** `{power: models[i] for i, power in enumerate(powers)}` over distinct powers:
      no entry of the comprehension overwrites another. */
  function PairUp(powers: seq<string>, models: seq<string>): (r: Dict<string>)
    requires |powers| <= |models| && NoDuplicates(powers)
    ensures Keys(r) == powers && DistinctKeys(r)
    ensures forall i :: 0 <= i < |powers| ==> Get(r, powers[i]) == Some(models[i])
  {
    var r := seq(|powers|, i requires 0 <= i < |powers| => (powers[i], models[i]));
    assert Keys(r) == powers;
    assert forall i :: 0 <= i < |powers| ==> Get(r, powers[i]) == Some(models[i]) by {
      forall i | 0 <= i < |powers|
        ensures Get(r, powers[i]) == Some(models[i])
      {
        GetAt(r, i);
      }
    }
    r
  }

  /** The drawing loop of the randomised branch: each power removes the model it draws
      (`random.choice` is the choice of `model`) from the pool, so distinct powers get
      distinct models; with at least as many models as powers the refill of an
      exhausted pool never happens. */
  method DrawModels(powers: seq<string>, models: seq<string>) returns (result: Dict<string>)
    requires |powers| <= |models| && NoDuplicates(models) && NoDuplicates(powers)
    ensures Keys(result) == powers
    ensures forall i :: 0 <= i < |result| ==> result[i].1 in models
    ensures forall i, j :: 0 <= i < j < |result| ==> result[i].1 != result[j].1
  {
    var available := models;
    result := [];
    for i := 0 to |powers|
      invariant |result| == i && forall k :: 0 <= k < i ==> result[k].0 == powers[k]
      invariant |available| == |models| - i
      invariant NoDuplicates(available)
      invariant forall m :: m in available ==> m in models
      invariant forall k :: 0 <= k < i ==> result[k].1 in models && result[k].1 !in available
      invariant forall j, k :: 0 <= j < k < i ==> result[j].1 != result[k].1
    {
      if available == [] {
        available := models;
      }
      assert available[0] in available;
      var model :| model in available;
      var pool := available;
      available := RemoveFirst(available, model);
      // `result[power] = model` on a key the dict does not hold yet appends the pair
      // (`PutAbsent`); the powers are distinct, so every key is new.
      result := result + [(powers[i], model)];
      forall k | 0 <= k <= i
        ensures result[k].1 in models && result[k].1 !in available
      {
        if k < i {
          assert result[k].1 !in pool;
        }
      }
    }
    assert Keys(result) == powers;
  }

  /** The fixed assignment: the i-th power of the fixed list plays the i-th model. */
  function FixedAssignment(): (r: Dict<string>)
    ensures Keys(r) == POWERS && DistinctKeys(r)
    ensures forall i :: 0 <= i < |POWERS| ==> Get(r, POWERS[i]) == Some(MODEL_LIST[i])
  {
    ModelsListed();
    PairUp(POWERS, MODEL_LIST)
  }

  /** `assign_models_to_powers(randomize)`: every power gets a model of the list, no two
      powers the same one, and without randomising the i-th power gets the i-th model. */
  method AssignModelsToPowers(randomize: bool) returns (result: Dict<string>)
    ensures Keys(result) == POWERS
    ensures forall i :: 0 <= i < |result| ==> result[i].1 in MODEL_LIST
    ensures forall i, j :: 0 <= i < j < |result| ==> result[i].1 != result[j].1
    ensures !randomize ==> result == FixedAssignment()
  {
    ModelsListed();
    if randomize {
      result := DrawModels(POWERS, MODEL_LIST);
    } else {
      result := PairUp(POWERS, MODEL_LIST);
      forall i | 0 <= i < |result|
        ensures result[i].1 == MODEL_LIST[i]
      {
        GetAt(result, i);
        assert Keys(result)[i] == POWERS[i];
      }
    }
  }

  // ---------------------------------------------------------------------
  // get_valid_orders

  /** `move.split(" ", 2)` yields all three parts: unit type, location and the order proper. */
  predicate WellFormedOrder(move: string)
  {
    |SplitMax(move, " ", 2)| == 3
  }

  /** `" ".join(tokens[:2])`, the unit (`"A PAR"`). */
  function UnitOf(move: string): string
    requires WellFormedOrder(move)
  {
    var t := SplitMax(move, " ", 2);
    t[0] + " " + t[1]
  }

  /** `tokens[2]`, the order part (`"H"`, `"S A MAR"`). */
  function OrderPartOf(move: string): string
    requires WellFormedOrder(move)
  {
    SplitMax(move, " ", 2)[2]
  }

  /** The probe's verdict: a build (`"B"`) always passes, anything else is what the engine's
      `_valid_order` says, given here as `valid(unit, orderPart)`. */
  predicate Accepts(move: string, valid: (string, string) -> bool)
    requires WellFormedOrder(move)
  {
    OrderPartOf(move) == "B" || valid(UnitOf(move), OrderPartOf(move))
  }

  /** The position of the one order the source checks: the first well-formed one at or after `i`. */
  function FirstWellFormed(orders: seq<string>, i: nat := 0): (r: Option<nat>)
    requires i <= |orders|
    ensures r.Some? ==> i <= r.value < |orders| && WellFormedOrder(orders[r.value])
    ensures r.Some? ==> forall j :: i <= j < r.value ==> !WellFormedOrder(orders[j])
    ensures r.None? ==> forall j :: i <= j < |orders| ==> !WellFormedOrder(orders[j])
    decreases |orders| - i
  {
    if i == |orders| then None
    else if WellFormedOrder(orders[i]) then Some(i)
    else FirstWellFormed(orders, i + 1)
  }

  /** `get_valid_orders` given the orders the client returned: the first well-formed order
      decides. If it passes, all the orders are kept; if not, the power's decoding-error
      counter goes up by one and the fallback replaces them. Without a well-formed
      order the function falls off its end and returns `None`. */
  method GetValidOrders(orders: seq<string>, valid: (string, string) -> bool,
                        possible: Clients.PossibleOrders, powerName: string, stats: ErrorStats.Stats)
    returns (r: Option<seq<string>>)
    modifies stats
    ensures FirstWellFormed(orders).None? ==> r.None? && stats.counts == old(stats.counts)
    ensures FirstWellFormed(orders).Some? && Accepts(orders[FirstWellFormed(orders).value], valid) ==>
      r == Some(orders) && stats.counts == old(stats.counts)
    ensures FirstWellFormed(orders).Some? && !Accepts(orders[FirstWellFormed(orders).value], valid) ==>
      r == Some(Clients.Fallback(possible))
      && stats.counts == old(stats.counts)[powerName := ErrorStats.Bumped(old(stats.Get(powerName)), ErrorStats.OrderDecodingError)]
  {
    for i := 0 to |orders|
      invariant forall j :: 0 <= j < i ==> !WellFormedOrder(orders[j])
    {
      var move := orders[i];
      var tokens := SplitMax(move, " ", 2);
      if |tokens| < 3 {
        continue;
      }
      var unit := tokens[0] + " " + tokens[1];
      var orderPart := tokens[2];
      var validity: bool;
      if orderPart == "B" {
        validity := true;
      } else {
        validity := valid(unit, orderPart);
      }
      if validity {
        return Some(orders);
      } else {
        stats.Bump(powerName, ErrorStats.OrderDecodingError);
        var fallback := Clients.FallbackOrders(possible);
        return Some(fallback);
      }
    }
    return None;
  }

  // ---------------------------------------------------------------------
  // expand_phase_info

  function SeasonName(c: char): string
  {
    if c == 'S' then "Spring"
    else if c == 'F' then "Fall"
    else if c == 'W' then "Winter"
    else "Unknown Season"
  }

  function PhaseTypeName(c: char): string
  {
    if c == 'M' then "Movement"
    else if c == 'R' then "Retreat"
    else if c == 'A' then "Adjustment"
    else "Unknown Phase"
  }

  /** The stage of the game a year falls in (the three answers cover every year). */
  function GameStage(year: int): (r: string)
    ensures r == "early game" <==> year <= 1902
    ensures r == "mid game" <==> 1902 < year <= 1906
    ensures r == "late game" <==> 1906 < year
  {
    if year <= 1902 then "early game"
    else if year <= 1906 then "mid game"
    else "late game"
  }

  function PhaseActions(c: char): string
  {
    if c == 'M' then "Players issue move, support, or convoy orders."
    else if c == 'R' then "Dislodged units must retreat or disband."
    else if c == 'A' then "Powers may build new units if they have more centers than units, otherwise disband if fewer."
    else "Unknown phase actions."
  }

  /** `phase_abbrev[1:5]` on a non-empty code. */
  function YearText(phase: string): string
    requires phase != []
  {
    if |phase| < 5 then phase[1..] else phase[1..5]
  }

  /** The sentence `expand_phase_info` builds for a season letter, a year and a phase letter. */
  function Description(season: char, year: int, kind: char): string
  {
    SeasonName(season) + " " + IntToString(year) + " " + PhaseTypeName(kind)
      + " (" + GameStage(year) + "): " + PhaseActions(kind)
  }

  /** `expand_phase_info` on `board_state["phase"]`: an empty code raises `IndexError`
      and a year field `int` rejects raises `ValueError`. */
  function ExpandPhaseInfo(phase: string): (r: Outcome<string>)
    ensures r.Returned? <==> phase != [] && PyInt(YearText(phase)).Some?
  {
    if phase == [] then Raised
    else match PyInt(YearText(phase))
      case None => Raised
      case Some(year) => Returned(Description(phase[0], year, phase[|phase| - 1]))
  }

  lemma FourDigits(n: nat)
    requires 1000 <= n <= 9999
    ensures |NatToString(n)| == 4
  {
    assert NatToString(n) == NatToString(n / 10) + [DigitChar(n % 10)];
    assert NatToString(n / 10) == NatToString(n / 100) + [DigitChar(n / 10 % 10)];
    assert NatToString(n / 100) == NatToString(n / 1000) + [DigitChar(n / 100 % 10)];
  }

  /** A standard code (season letter, four-digit year, phase letter) is read back as
      exactly that season, year and phase. */
  lemma ExpandStandardCode(season: char, year: nat, kind: char)
    requires 1000 <= year <= 9999
    ensures ExpandPhaseInfo([season] + NatToString(year) + [kind]) == Returned(Description(season, year, kind))
  {
    var code := [season] + NatToString(year) + [kind];
    FourDigits(year);
    assert YearText(code) == NatToString(year);
    PyIntOfNat(year);
  }

  // ---------------------------------------------------------------------
  // organize_history_by_relationship

  const NoHistory: string := "(No game history yet)\n"
  const HistoryHeader: string := "COMMUNICATION HISTORY:\n\n"

  /** `organize_history_by_relationship`: blank text becomes the no-history marker,
      anything else is framed under a header with its surrounding whitespace removed. */
  function OrganizeHistory(text: string): (r: string)
    ensures r == NoHistory <==> Strip(text) == []
  {
    if Strip(text) == [] then NoHistory
    else
      var r := HistoryHeader + Strip(text) + "\n";
      assert r[0] != NoHistory[0];
      r
  }

  /** The framing keeps the stripped text whole between the header and a final newline,
      so two framed histories are equal only when their texts are equal up to the
      whitespace around them. */
  lemma OrganizeHistoryKeepsText(a: string, b: string)
    requires Strip(a) != []
    ensures StartsWith(OrganizeHistory(a), HistoryHeader)
    ensures OrganizeHistory(a)[|HistoryHeader|..|OrganizeHistory(a)| - 1] == Strip(a)
    ensures OrganizeHistory(a)[|OrganizeHistory(a)| - 1] == '\n'
    ensures OrganizeHistory(a) == OrganizeHistory(b) ==> Strip(a) == Strip(b)
  {
    var r := OrganizeHistory(a);
    StartsWithPrefix(HistoryHeader, Strip(a) + "\n");
    assert r == HistoryHeader + (Strip(a) + "\n");
    assert r[|HistoryHeader|..|r| - 1] == Strip(a);
    if r == OrganizeHistory(b) {
      assert Strip(b) != [];
      assert OrganizeHistory(b)[|HistoryHeader|..|r| - 1] == Strip(b);
    }
  }

  // ---------------------------------------------------------------------
  // format_possible_orders: the strategic classification

  datatype Category = Offensive | Defensive | Tactical | Support

  /** What the classification reads from the game: the supply centres, the owner of each
      owned centre, and `game.role`, the power whose orders are being sorted. */
  datatype Board = Board(centres: set<string>, owner: map<string, string>, role: string)

  /** A province (the first three characters of a location) is one of the role's centres. */
  predicate OwnCentre(province: string, b: Board)
  {
    province in b.centres && province in b.owner && b.owner[province] == b.role
  }

  /** The class of a move by where it goes: a supply centre the role does not own is
      OFFENSIVE, one of its own centres DEFENSIVE, any other place TACTICAL. */
  function MoveCategory(dest: string, b: Board): (r: Category)
    ensures r == Offensive <==> Take(dest, 3) in b.centres && !OwnCentre(Take(dest, 3), b)
    ensures r == Defensive <==> OwnCentre(Take(dest, 3), b)
    ensures r == Tactical <==> Take(dest, 3) !in b.centres
  {
    var province := Take(dest, 3);
    if province in b.centres then
      if province !in b.owner || b.owner[province] != b.role then Offensive else Defensive
    else Tactical
  }

  /** Where `s.rfind` of a space before `j` would leave off: the start of the word ending at `j`. */
  function WordStart(t: string, j: nat): (i: nat)
    requires j <= |t|
    ensures i <= j && NoSpace(t[i..j]) && (i == 0 || IsSpace(t[i - 1]))
  {
    if j == 0 || IsSpace(t[j - 1]) then j
    else
      var i := WordStart(t, j - 1);
      assert t[i..j] == t[i..j - 1] + [t[j - 1]];
      i
  }

  /** `s.split()[-1]`: the last run of non-space characters. */
  function LastWord(s: string): (r: string)
    ensures NoSpace(r)
  {
    var t := TrimEnd(s);
    t[WordStart(t, |t|)..]
  }

  /** The destination as `format_possible_orders` computes it: the last word, cut at
      `" VIA"` when the order mentions `" VIA"`. */
  function Destination(order: string): string
  {
    if Contains(order, " VIA") then SplitOn(LastWord(order), " VIA")[0] else LastWord(order)
  }

  /** A word holds no space, so the cut at `" VIA"` never takes effect: the destination
      is the last word, and for a convoyed move ending in `VIA` it is `VIA` itself. */
  lemma DestinationIsLastWord(order: string)
    ensures Destination(order) == LastWord(order)
  {
    var w := LastWord(order);
    assert ' ' !in w by {
      assert IsSpace(' ');
    }
    MissingChar(w, " VIA", 0);
  }

  /** The order type as the source decides it: `" H" in order` first, then `" S "`,
      `" - "` (by destination) and `" C "`; anything else has no type. */
  function ClassifyAsWritten(order: string, b: Board): Option<Category>
  {
    if Contains(order, " H") then Some(Defensive)
    else if Contains(order, " S ") then Some(Support)
    else if Contains(order, " - ") then Some(MoveCategory(Destination(order), b))
    else if Contains(order, " C ") then Some(Support)
    else None
  }

  /** A hold order: it ends in `" H"`. */
  predicate IsHold(order: string)
  {
    EndsWith(order, " H")
  }

  /** The classification with the hold test the code evidently means: only an order that
      ends in `" H"` counts as a hold. The rest is as in the source. */
  function Classify(order: string, b: Board): (r: Option<Category>)
    ensures r.None? <==> !IsHold(order) && !Contains(order, " S ") && !Contains(order, " - ") && !Contains(order, " C ")
  {
    if IsHold(order) then Some(Defensive)
    else if Contains(order, " S ") then Some(Support)
    else if Contains(order, " - ") then Some(MoveCategory(Destination(order), b))
    else if Contains(order, " C ") then Some(Support)
    else None
  }

  /** Supports and convoys are SUPPORT, a hold DEFENSIVE, and a move classed by where
      it goes: DEFENSIVE is only ever a hold or a move into one of the role's centres. */
  lemma ClassifyMeaning(order: string, b: Board)
    ensures Classify(order, b) == Some(Defensive) ==> IsHold(order) || OwnCentre(Take(LastWord(order), 3), b)
    ensures Classify(order, b) == Some(Offensive) ==>
      Contains(order, " - ") && Take(LastWord(order), 3) in b.centres && !OwnCentre(Take(LastWord(order), 3), b)
    ensures Classify(order, b) == Some(Tactical) ==> Contains(order, " - ") && Take(LastWord(order), 3) !in b.centres
    ensures Classify(order, b) == Some(Support) ==> Contains(order, " S ") || Contains(order, " C ")
    ensures IsHold(order) ==> Classify(order, b) == Some(Defensive)
  {
    DestinationIsLastWord(order);
  }

  /** `" H" in order` also holds for every order that names a province beginning with H:
      a move from Belgium into a Holland the role does not own is filed as DEFENSIVE by
      the source, and as OFFENSIVE once the hold test asks for a final `" H"`. */
  lemma HoldTestMisfiles()
    ensures ClassifyAsWritten("A BEL - HOL", Board({"HOL"}, map[], "FRANCE")) == Some(Defensive)
    ensures !IsHold("A BEL - HOL") && !OwnCentre("HOL", Board({"HOL"}, map[], "FRANCE"))
    ensures Classify("A BEL - HOL", Board({"HOL"}, map[], "FRANCE")) == Some(Offensive)
  {
    var o := "A BEL - HOL";
    var b := Board({"HOL"}, map[], "FRANCE");
    assert OccursAt(o, " H", 7);
    assert o[9..] != " H";
    MissingChar(o, " S ", 1);
    assert OccursAt(o, " - ", 5);
    assert TrimEnd(o) == o;
    assert WordStart(o, 8) == 8;
    assert WordStart(o, 11) == 8;
    assert LastWord(o) == "HOL";
    DestinationIsLastWord(o);
  }

  /** The four category lists of `strategic_orders` (descriptions aside). */
  datatype Buckets = Buckets(offensive: seq<string>, defensive: seq<string>, tactical: seq<string>, support: seq<string>)

  function Bucket(bs: Buckets, c: Category): seq<string>
  {
    match c
    case Offensive => bs.offensive
    case Defensive => bs.defensive
    case Tactical => bs.tactical
    case Support => bs.support
  }

  /** `strategic_orders[c].append(order)`. */
  function File(bs: Buckets, c: Category, order: string): (r: Buckets)
    ensures Bucket(r, c) == Bucket(bs, c) + [order]
    ensures forall d :: d != c ==> Bucket(r, d) == Bucket(bs, d)
  {
    match c
    case Offensive => bs.(offensive := bs.offensive + [order])
    case Defensive => bs.(defensive := bs.defensive + [order])
    case Tactical => bs.(tactical := bs.tactical + [order])
    case Support => bs.(support := bs.support + [order])
  }

  /** Every legal order of every location, in iteration order. */
  function AllOrders(p: Clients.PossibleOrders): seq<string>
  {
    if p == [] then [] else AllOrders(p[..|p| - 1]) + p[|p| - 1].1
  }

  /** The orders of `os` of class `c`, in order. */
  function OfCategory(os: seq<string>, c: Category, b: Board): (r: seq<string>)
    ensures forall o :: o in r <==> o in os && Classify(o, b) == Some(c)
    ensures |r| <= |os|
  {
    if os == [] then []
    else OfCategory(os[..|os| - 1], c, b) + (if Classify(os[|os| - 1], b) == Some(c) then [os[|os| - 1]] else [])
  }

  /** The orders of `os` that get no class at all. */
  function Untyped(os: seq<string>, b: Board): (r: seq<string>)
    ensures forall o :: o in r <==> o in os && Classify(o, b).None?
  {
    if os == [] then []
    else Untyped(os[..|os| - 1], b) + (if Classify(os[|os| - 1], b).None? then [os[|os| - 1]] else [])
  }

  /** The specification of the classification loop. */
  function Sorted(os: seq<string>, b: Board): (r: Buckets)
    ensures forall c :: Bucket(r, c) == OfCategory(os, c, b)
  {
    Buckets(OfCategory(os, Offensive, b), OfCategory(os, Defensive, b), OfCategory(os, Tactical, b), OfCategory(os, Support, b))
  }

  lemma SortedStep(os: seq<string>, o: string, b: Board)
    ensures Sorted(os + [o], b) == match Classify(o, b) case None => Sorted(os, b) case Some(c) => File(Sorted(os, b), c, o)
  {
    assert (os + [o])[..|os|] == os;
  }

  /** The four lists partition the typed orders: every order is filed once, under its
      class, or dropped when it has none. */
  lemma {:induction false} SortedPartition(os: seq<string>, b: Board)
    ensures |Sorted(os, b).offensive| + |Sorted(os, b).defensive| + |Sorted(os, b).tactical|
      + |Sorted(os, b).support| + |Untyped(os, b)| == |os|
  {
    if os != [] {
      SortedPartition(os[..|os| - 1], b);
    }
  }

  lemma AllOrdersStep(p: Clients.PossibleOrders, i: nat)
    requires i < |p|
    ensures AllOrders(p[..i + 1]) == AllOrders(p[..i]) + p[i].1
  {
    assert p[..i + 1][..i] == p[..i];
  }

  /** The classification loop of `format_possible_orders`: each location's orders in turn,
      each order appended to the list of its class. */
  method SortPossibleOrders(possible: Clients.PossibleOrders, b: Board) returns (bs: Buckets)
    ensures bs == Sorted(AllOrders(possible), b)
  {
    bs := Buckets([], [], [], []);
    for i := 0 to |possible|
      invariant bs == Sorted(AllOrders(possible[..i]), b)
    {
      var orders := possible[i].1;
      AllOrdersStep(possible, i);
      bs := FileOrders(bs, AllOrders(possible[..i]), orders, b);
    }
    assert possible[..|possible|] == possible;
  }

  /** The inner loop: one location's orders filed after those of the earlier locations. */
  method FileOrders(bs0: Buckets, ghost done: seq<string>, orders: seq<string>, b: Board) returns (bs: Buckets)
    requires bs0 == Sorted(done, b)
    ensures bs == Sorted(done + orders, b)
  {
    bs := bs0;
    assert done + orders[..0] == done;
    for j := 0 to |orders|
      invariant bs == Sorted(done + orders[..j], b)
    {
      var order := orders[j];
      var orderType := Classify(order, b);
      SortedStep(done + orders[..j], order, b);
      if orderType.Some? {
        bs := File(bs, orderType.value, order);
      }
      assert done + orders[..j + 1] == (done + orders[..j]) + [order];
    }
    assert orders[..|orders|] == orders;
  }

  /** `power_centers`: each centre of `game.get_centers()` mapped to a power listing it. */
  function Owners(cs: Dict<seq<string>>): map<string, string>
  {
    if cs == [] then map[]
    else OwnAll(Owners(cs[..|cs| - 1]), cs[|cs| - 1].1, cs[|cs| - 1].0)
  }

  function OwnAll(m: map<string, string>, centres: seq<string>, power: string): (r: map<string, string>)
    ensures forall c :: c in r <==> c in m || c in centres
    ensures forall c :: c in r ==> r[c] == if c in centres then power else m[c]
  {
    if centres == [] then m else OwnAll(m, centres[..|centres| - 1], power)[centres[|centres| - 1] := power]
  }

  /** The last entry of `cs` whose list holds `c`. */
  function LastListing(cs: Dict<seq<string>>, c: string): (r: Option<nat>)
    ensures r.Some? ==> r.value < |cs| && c in cs[r.value].1
    ensures r.Some? ==> forall j :: r.value < j < |cs| ==> c !in cs[j].1
    ensures r.None? ==> forall j :: 0 <= j < |cs| ==> c !in cs[j].1
  {
    if cs == [] then None
    else if c in cs[|cs| - 1].1 then Some(|cs| - 1)
    else
      var r := LastListing(cs[..|cs| - 1], c);
      assert forall j :: 0 <= j < |cs| - 1 ==> cs[..|cs| - 1][j] == cs[j];
      r
  }

  /** A centre has an owner exactly when some power lists it, and the owner is the last
      power to list it (later entries of the dict overwrite earlier ones). */
  lemma {:induction false} OwnersMeaning(cs: Dict<seq<string>>, c: string)
    ensures c in Owners(cs) <==> LastListing(cs, c).Some?
    ensures c in Owners(cs) ==> Owners(cs)[c] == cs[LastListing(cs, c).value].0
  {
    if cs != [] {
      OwnersMeaning(cs[..|cs| - 1], c);
    }
  }

  /** The ownership loop of `format_possible_orders`. */
  method PowerCentres(cs: Dict<seq<string>>) returns (powerCentres: map<string, string>)
    ensures powerCentres == Owners(cs)
  {
    powerCentres := map[];
    for i := 0 to |cs|
      invariant powerCentres == Owners(cs[..i])
    {
      var power := cs[i].0;
      var centres := cs[i].1;
      ghost var before := powerCentres;
      for j := 0 to |centres|
        invariant powerCentres == OwnAll(before, centres[..j], power)
      {
        assert centres[..j + 1][..j] == centres[..j];
        powerCentres := powerCentres[centres[j] := power];
      }
      assert cs[..i + 1][..i] == cs[..i];
      assert centres[..|centres|] == centres;
    }
    assert cs[..|cs|] == cs;
  }

  // ---------------------------------------------------------------------
  // generate_sc_projection: the counts

  /** `unit.split(" ", 1)[1]`, the location of a unit string (`"A PAR"` gives `"PAR"`);
      `None` where there is no space and the source raises `IndexError`. */
  function UnitLocation(unit: string): Option<string>
  {
    var parts := SplitMax(unit, " ", 1);
    if |parts| == 2 then Some(parts[1]) else None
  }

  /** `set(loc.split(" ", 1)[1] for loc in units)`: `None` if any unit string raises. */
  function UnitLocations(units: seq<string>): (r: Option<set<string>>)
    ensures r.Some? <==> forall i :: 0 <= i < |units| ==> UnitLocation(units[i]).Some?
  {
    if forall i :: 0 <= i < |units| ==> UnitLocation(units[i]).Some? then
      Some(set i | 0 <= i < |units| :: UnitLocation(units[i]).value)
    else None
  }

  /** `any(nbr in our_units for nbr in loc_abut.get(sc, []))`. */
  predicate Reachable(abut: map<string, seq<string>>, ours: set<string>, sc: string)
  {
    var ns := if sc in abut then abut[sc] else [];
    exists k | 0 <= k < |ns| :: ns[k] in ours
  }

  /** `set(xs)`. */
  function ListSet(xs: seq<string>): (r: set<string>)
    ensures forall c :: c in r <==> c in xs
  {
    set c | c in xs
  }

  /** `all_controlled`: every centre some power holds. */
  function Controlled(cs: Dict<seq<string>>): (r: set<string>)
    ensures forall c :: c in r <==> exists i :: 0 <= i < |cs| && c in cs[i].1
  {
    if cs == [] then {}
    else
      var n := |cs| - 1;
      assert forall i :: 0 <= i < n ==> cs[..n][i] == cs[i];
      Controlled(cs[..n]) + ListSet(cs[n].1)
  }

  /** `neutral_gains`: the supply centres nobody holds that one of our units borders. */
  function NeutralGains(scs: seq<string>, controlled: set<string>, abut: map<string, seq<string>>, ours: set<string>): (r: seq<string>)
    ensures forall sc :: sc in r <==> sc in scs && sc !in controlled && Reachable(abut, ours, sc)
    ensures |r| <= |scs|
  {
    if scs == [] then []
    else
      var sc := scs[|scs| - 1];
      NeutralGains(scs[..|scs| - 1], controlled, abut, ours)
        + (if sc !in controlled && Reachable(abut, ours, sc) then [sc] else [])
  }

  /** The centres of one enemy `e` with no unit of `e` on them and one of our units next to them. */
  function ContestedIn(es: seq<string>, e: string, enemy: set<string>, abut: map<string, seq<string>>, ours: set<string>): (r: seq<(string, string)>)
    ensures forall x :: x in r <==> x.1 == e && x.0 in es && x.0 !in enemy && Reachable(abut, ours, x.0)
  {
    if es == [] then []
    else
      var c := es[|es| - 1];
      ContestedIn(es[..|es| - 1], e, enemy, abut, ours)
        + (if c !in enemy && Reachable(abut, ours, c) then [(c, e)] else [])
  }

  /** `(c, e)` is a weakly held enemy centre: `e` is another power listing `c`, none of
      `e`'s units stands on `c`, and one of ours borders it. */
  predicate WeaklyHeld(cs: Dict<seq<string>>, power: string, units: Dict<seq<string>>,
                       abut: map<string, seq<string>>, ours: set<string>, x: (string, string))
  {
    && x.1 != power
    && Reachable(abut, ours, x.0)
    && (exists i :: 0 <= i < |cs| && cs[i].0 == x.1 && x.0 in cs[i].1)
    && UnitLocations(GetOr(units, x.1, [])).Some?
    && x.0 !in UnitLocations(GetOr(units, x.1, [])).value
  }

  /** `contestable`: every other power's weakly held centres, power by power; reading an
      enemy's units can raise. */
  function Contestable(cs: Dict<seq<string>>, power: string, units: Dict<seq<string>>,
                       abut: map<string, seq<string>>, ours: set<string>): (r: Outcome<seq<(string, string)>>)
    ensures r.Returned? ==> forall x :: x in r.value ==> WeaklyHeld(cs, power, units, abut, ours, x)
  {
    if cs == [] then Returned([])
    else
      var n := |cs| - 1;
      assert forall i :: 0 <= i < n ==> cs[..n][i] == cs[i];
      match Contestable(cs[..n], power, units, abut, ours)
      case Raised => Raised
      case Returned(xs) =>
        if cs[n].0 == power then Returned(xs)
        else match UnitLocations(GetOr(units, cs[n].0, []))
          case None => Raised
          case Some(enemy) => Returned(xs + ContestedIn(cs[n].1, cs[n].0, enemy, abut, ours))
  }

  lemma {:induction false} ContestableRaises(cs: Dict<seq<string>>, i: nat, power: string, units: Dict<seq<string>>,
                                             abut: map<string, seq<string>>, ours: set<string>)
    requires i <= |cs| && Contestable(cs[..i], power, units, abut, ours).Raised?
    ensures Contestable(cs, power, units, abut, ours).Raised?
    decreases |cs| - i
  {
    if i < |cs| {
      assert cs[..i + 1][..i] == cs[..i];
      ContestableRaises(cs, i + 1, power, units, abut, ours);
    } else {
      assert cs[..i] == cs;
    }
  }

  /** The numbers `generate_sc_projection` reports: the current count, the centres it may
      gain, those at risk, and the range of next-phase counts. */
  datatype Projection = Projection(current: nat, gains: seq<string>, contestable: seq<(string, string)>,
                                   atRisk: set<string>, best: int, worst: int)

  /** The specification of `generate_sc_projection` on the board's `units` and `centers`,
      the map's supply centres `scs` and its adjacency `abut`. */
  function Project(power: string, units: Dict<seq<string>>, centres: Dict<seq<string>>,
                   scs: seq<string>, abut: map<string, seq<string>>): Outcome<Projection>
  {
    match UnitLocations(GetOr(units, power, []))
    case None => Raised
    case Some(ours) =>
      match Contestable(centres, power, units, abut, ours)
      case Raised => Raised
      case Returned(cont) =>
        Returned(Tally(ListSet(GetOr(centres, power, [])), ours, NeutralGains(scs, Controlled(centres), abut, ours), cont))
  }

  /** The closing arithmetic: best case and worst case from the four collections. */
  function Tally(ourCentres: set<string>, ours: set<string>, gains: seq<string>, cont: seq<(string, string)>): Projection
  {
    var atRisk := ourCentres - ours;
    Projection(|ourCentres|, gains, cont, atRisk, |ourCentres| + |gains| + |cont|, |ourCentres| - |atRisk|)
  }

  lemma SubsetSize(a: set<string>, b: set<string>)
    requires a <= b
    ensures |a| <= |b|
  {
    assert b == a + (b - a);
  }

  /** The projected range brackets the current count from both sides and never drops
      below zero: the centres at risk are some of our own centres. Each potential gain is
      a neutral supply centre we border, and each contestable centre belongs to another
      power, carries none of its units and borders one of ours. */
  lemma ProjectionRange(power: string, units: Dict<seq<string>>, centres: Dict<seq<string>>,
                        scs: seq<string>, abut: map<string, seq<string>>)
    requires Project(power, units, centres, scs, abut).Returned?
    ensures var p := Project(power, units, centres, scs, abut).value;
      0 <= p.worst <= p.current <= p.best
      && p.current == |ListSet(GetOr(centres, power, []))|
      && (forall sc :: sc in p.gains ==> sc in scs && forall i :: 0 <= i < |centres| ==> sc !in centres[i].1)
      && (forall x :: x in p.contestable ==> x.1 != power)
  {
    var ours := UnitLocations(GetOr(units, power, [])).value;
    var ourCentres := ListSet(GetOr(centres, power, []));
    SubsetSize(ourCentres - ours, ourCentres);
  }

  /** `generate_sc_projection`, up to the text it prints. */
  method ScProjection(powerName: string, units: Dict<seq<string>>, centres: Dict<seq<string>>,
                      scs: seq<string>, abut: map<string, seq<string>>) returns (r: Outcome<Projection>)
    ensures r == Project(powerName, units, centres, scs, abut)
  {
    var ourUnits := UnitLocations(GetOr(units, powerName, []));
    if ourUnits.None? {
      return Raised;
    }
    var ours := ourUnits.value;
    var ourCentres := ListSet(GetOr(centres, powerName, []));
    var allControlled := ControlledLoop(centres);
    var gains := GainsLoop(scs, allControlled, abut, ours);
    var contestable := ContestableLoop(powerName, units, centres, abut, ours);
    if contestable.Raised? {
      return Raised;
    }
    var cont := contestable.value;
    r := Returned(Tally(ourCentres, ours, gains, cont));
  }

  /** The loop over the other powers' centres. */
  method ContestableLoop(powerName: string, units: Dict<seq<string>>, centres: Dict<seq<string>>,
                         abut: map<string, seq<string>>, ours: set<string>) returns (r: Outcome<seq<(string, string)>>)
    ensures r == Contestable(centres, powerName, units, abut, ours)
  {
    var contestable: seq<(string, string)> := [];
    for i := 0 to |centres|
      invariant Contestable(centres[..i], powerName, units, abut, ours) == Returned(contestable)
    {
      assert centres[..i + 1][..i] == centres[..i];
      var ePwr := centres[i].0;
      var eCentres := centres[i].1;
      if ePwr == powerName {
        continue;
      }
      var enemyUnits := UnitLocations(GetOr(units, ePwr, []));
      if enemyUnits.None? {
        ContestableRaises(centres, i + 1, powerName, units, abut, ours);
        return Raised;
      }
      var enemy := enemyUnits.value;
      var found := ContestedLoop(eCentres, ePwr, enemy, abut, ours);
      contestable := contestable + found;
    }
    assert centres[..|centres|] == centres;
    r := Returned(contestable);
  }

  /** `for c in e_centers`: one enemy's weakly held centres. */
  method ContestedLoop(eCentres: seq<string>, ePwr: string, enemy: set<string>,
                       abut: map<string, seq<string>>, ours: set<string>) returns (found: seq<(string, string)>)
    ensures found == ContestedIn(eCentres, ePwr, enemy, abut, ours)
  {
    found := [];
    for j := 0 to |eCentres|
      invariant found == ContestedIn(eCentres[..j], ePwr, enemy, abut, ours)
    {
      assert eCentres[..j + 1][..j] == eCentres[..j];
      var c := eCentres[j];
      if c !in enemy && Reachable(abut, ours, c) {
        found := found + [(c, ePwr)];
      }
    }
    assert eCentres[..|eCentres|] == eCentres;
  }

  /** `all_controlled.update(c_list)` over every power's centres. */
  method ControlledLoop(centres: Dict<seq<string>>) returns (allControlled: set<string>)
    ensures allControlled == Controlled(centres)
  {
    allControlled := {};
    for i := 0 to |centres|
      invariant allControlled == Controlled(centres[..i])
    {
      assert centres[..i + 1][..i] == centres[..i];
      allControlled := allControlled + ListSet(centres[i].1);
    }
    assert centres[..|centres|] == centres;
  }

  /** The neutral-gains loop over the map's supply centres. */
  method GainsLoop(scs: seq<string>, allControlled: set<string>, abut: map<string, seq<string>>,
                   ours: set<string>) returns (gains: seq<string>)
    ensures gains == NeutralGains(scs, allControlled, abut, ours)
  {
    gains := [];
    for i := 0 to |scs|
      invariant gains == NeutralGains(scs[..i], allControlled, abut, ours)
    {
      assert scs[..i + 1][..i] == scs[..i];
      var sc := scs[i];
      if sc !in allControlled && Reachable(abut, ours, sc) {
        gains := gains + [sc];
      }
    }
    assert scs[..|scs|] == scs;
  }
}
