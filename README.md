# AI Diplomacy, modelled in Dafny

AI Diplomacy lets language models play the board game Diplomacy: each of the seven great powers is an agent that negotiates in chat rounds, keeps a journal and relationships, and submits orders that the game engine adjudicates. This project models the deterministic core that turns the models' free text into legal orders and routed messages, together with the bookkeeping around it, and proves properties of that model.

- **Order recovery** (`Clients`): `_extract_moves` locates an orders block, normalises its braces and decodes it. `_validate_orders` keeps the candidates that are legal somewhere and fills every uncovered location with a hold or its first order. `fallback_orders` is the total default, and `get_orders` counts one decoding error when extraction fails. The parsing half of `get_conversation_reply` turns reply blocks into addressed messages, and `get_visible_messages_for_power` filters what a power may see.
- **History stores** (`History`, `Conversations`): the per-phase tables of messages, orders and results, find-or-create phases, the per-power views, and the text of the communication history.
- **Map graph** (`MapGraph`): the symmetric adjacency map labelled by unit type, and the two breadth-first searches.
- **Negotiation rounds** (`Negotiations`): `conduct_negotiations` asks each eligible power for a reply in every round, resolves recipients, records messages in the engine and the history, writes a journal line for each sent message and counts empty replies. The journal line goes to the sender's own agent, the corrected routing of the second Findings row; the source writes it to the agent last bound in the submission loop.
- **Agent state** (`Agent`): power-name checks, default relationships, journal entries, the filtered merge of relationship updates, and the three-step search for a JSON object in a reply.
- **Context manager** (`LongStoryShort`): per-power summary records, the cooldown and threshold decisions, the partition of phases into intact and summarised, the result dictionary with its `SUMMARY_UNTIL_` key, and the split points of a message history.
- **Helpers**: provider selection (`ModelLoader`), phase expansion, history framing, order classification, supply-centre projection and model assignment (`Utils`), the Cicero-style order picker (`Cicero`), the log analyser's order extractor and convoy/support counts (`RlAnalysis`), and the two game-moment analysers: promise checks against orders, lie intent, diary excerpts, lie tallies, phase scoring, top moments per category and winner detection (`GameMoments`, `GameMomentsLlm`).

Python's own behaviour is modelled in small modules: strings and their methods (`Text`), insertion-ordered dictionaries (`ODict`), decoded JSON values without floats and their `repr`, escaped as Python does up to U+00FF (`Json`), stable `sorted` (`Sorting`), list slicing with negative bounds (`Seqs`), phase-name orders (`PhaseOrder`) and the shared error-counter table (`ErrorStats`).

Model replies, regular-expression matches, `json.loads`, `ast.literal_eval`, the engine's order validity, random choices, the clock and token counts come in as parameters. Every statement proved holds for any behaviour of them. Where the source mutates objects, the model uses classes with `modifies` clauses: the history stores, the map graph, the agent, the context manager, the analysers and the error table. The negotiation loop runs over a value that holds the engine's messages, the history views, the error counters and the journals.

Four Findings rows below show the source doing something its authors evidently did not intend. Each is modelled both as written and corrected, and the operations that use it run on the corrected half. "## Left out" names each such operation.

## Model

| member | source | states |
|---|---|---|
| Utils.ModelsListed | ai_diplomacy/utils.py:30-39 | the model list and the power list both have seven entries and no repeats |
| Utils.PairUp | ai_diplomacy/utils.py:56-58 | the `enumerate` comprehension keys the dict by the powers in their order, and the i-th power gets the i-th model |
| Utils.DrawModels | ai_diplomacy/utils.py:40-53 | the drawing loop with a chosen model at each step: every power gets one entry, each model comes from the list, and no two powers share a model |
| Utils.FixedAssignment | ai_diplomacy/utils.py:54-58 | the fixed mapping gives POWERS[i] the model MODEL_LIST[i], with distinct keys in power order |
| Utils.AssignModelsToPowers | ai_diplomacy/utils.py:12-58 | every power gets a listed model and no two powers share one; with `randomize` false the result is the fixed mapping |
| Utils.FirstWellFormed | ai_diplomacy/utils.py:108-117 | the first order at or after `i` with three space-separated parts; every earlier one is malformed, and `None` means all of them are |
| Utils.GetValidOrders | ai_diplomacy/utils.py:77-138 | the first well-formed order decides. If it is valid (a build `B` always is), all the orders come back untouched. If not, the fallback orders come back and only this power's order-decoding counter goes up by one. With no well-formed order there is no result and the counters do not change |
| Utils.GameStage | ai_diplomacy/utils.py:167-173 | early game up to 1902, mid game up to 1906, late game after that, each as an if-and-only-if |
| Utils.ExpandPhaseInfo | ai_diplomacy/utils.py:141-185 | it returns exactly when the phase code is non-empty and its year field parses as an integer; otherwise `IndexError` or `ValueError` escapes |
| Utils.ExpandStandardCode | ai_diplomacy/utils.py:147-185 | a code made of a season letter, a four-digit year and a phase letter reads back as exactly that season, year and phase |
| Utils.OrganizeHistory | ai_diplomacy/utils.py:261-278 | the no-history marker comes back exactly when the text is blank |
| Utils.OrganizeHistoryKeepsText | ai_diplomacy/utils.py:276-278 | the output is the header, then the stripped text whole, then a newline; two outputs are equal only if their stripped texts are |
| Utils.MoveCategory | ai_diplomacy/utils.py:322-330 | a destination whose first three letters name a supply centre not owned by the role is OFFENSIVE, the role's own centre is DEFENSIVE, and any other place is TACTICAL (each an if-and-only-if) |
| Utils.LastWord | ai_diplomacy/utils.py:310-320 | `order.split()[-1]` is a run of non-space characters |
| Utils.DestinationIsLastWord | ai_diplomacy/utils.py:320 | cutting the last word at `" VIA"` never has an effect, because a word holds no space; the destination of a move is always its last word |
| Utils.Classify | ai_diplomacy/utils.py:307-339 | the corrected classification, where a hold is an order ending in `" H"`: an order gets no class exactly when it is not a hold and has no `" S "`, `" - "` or `" C "` |
| Utils.ClassifyMeaning | ai_diplomacy/utils.py:313-332 | DEFENSIVE is only a hold or a move into one of the role's centres; OFFENSIVE is only a move into a centre the role does not own; TACTICAL is only a move to a non-centre; SUPPORT is only a support or a convoy |
| Utils.HoldTestMisfiles | ai_diplomacy/utils.py:314-315 | the source's `" H" in order` test files the move `A BEL - HOL` into an unowned Holland as DEFENSIVE, while the corrected classification makes it OFFENSIVE |
| Utils.File | ai_diplomacy/utils.py:338-339 | appending an order to the list of its class leaves the other three lists as they were |
| Utils.OfCategory | ai_diplomacy/utils.py:307-339 | the orders of one class are exactly the input orders classified that way |
| Utils.Untyped | ai_diplomacy/utils.py:311 | the orders that are dropped are exactly those that get no class (also line 338) |
| Utils.Sorted | ai_diplomacy/utils.py:300-339 | each of the four lists is the sub-list of the orders of its class, kept in order |
| Utils.SortedStep | ai_diplomacy/utils.py:338-339 | one more order either goes at the end of its class's list or, with no class, changes nothing |
| Utils.SortedPartition | ai_diplomacy/utils.py:307-339 | the four lists and the dropped orders together account for every order exactly once |
| Utils.SortPossibleOrders | ai_diplomacy/utils.py:300-339 | the loop over the locations leaves the four lists equal to the classification of all the possible orders in dict order |
| Utils.FileOrders | ai_diplomacy/utils.py:309-339 | the inner loop files one location's orders after those filed before |
| Utils.OwnAll | ai_diplomacy/utils.py:292-294 | assigning a centre list to a power makes that power the owner of every centre in it and leaves the other owners as they were |
| Utils.LastListing | ai_diplomacy/utils.py:292-294 | the last power entry whose list holds the centre; no later entry lists it |
| Utils.OwnersMeaning | ai_diplomacy/utils.py:292-294 | a centre has an owner exactly when some power lists it, and the owner is the last power to list it |
| Utils.PowerCentres | ai_diplomacy/utils.py:288-294 | the nested ownership loop builds that owner map |
| Utils.UnitLocations | ai_diplomacy/utils.py:671 | the location set is defined exactly when every unit string has a space to split at; otherwise the split raises (also line 692) |
| Utils.ListSet | ai_diplomacy/utils.py:672 | `set(xs)` holds exactly the elements of the list |
| Utils.Controlled | ai_diplomacy/utils.py:674-676 | a centre is controlled exactly when some power's list holds it |
| Utils.NeutralGains | ai_diplomacy/utils.py:679-685 | a neutral gain is exactly a supply centre no power holds that borders one of our units |
| Utils.ContestedIn | ai_diplomacy/utils.py:693-699 | an enemy centre is contestable exactly when no unit of that enemy stands on it and one of our units borders it |
| Utils.Contestable | ai_diplomacy/utils.py:688-699 | every contestable entry belongs to another power and its centre is weakly held |
| Utils.ContestableRaises | ai_diplomacy/utils.py:692 | an enemy unit string without a space makes the whole projection raise |
| Utils.ProjectionRange | ai_diplomacy/utils.py:702-725 | the worst case is at least 0 and at most the current count, which is at most the best case; the current count is the number of our distinct centres; every gain is a neutral supply centre; every contestable centre belongs to another power |
| Utils.ScProjection | ai_diplomacy/utils.py:666-725 | the method computes the projection its specification function describes |
| Utils.ContestableLoop | ai_diplomacy/utils.py:688-699 | the loop over the other powers builds the contestable list, or raises as the specification does |
| Utils.ContestedLoop | ai_diplomacy/utils.py:693-699 | the loop over one enemy's centres keeps exactly its weakly held ones |
| Utils.ControlledLoop | ai_diplomacy/utils.py:674-676 | the update loop builds the set of controlled centres |
| Utils.GainsLoop | ai_diplomacy/utils.py:679-685 | the loop over the map's supply centres builds the neutral-gains list |
| Utils.ClassifyAsWritten | ai_diplomacy/utils.py:313-331 | the classification exactly as written: `" H" in order` is tested first, then ` S `, then ` - ` by destination, then ` C `; Utils.HoldTestMisfiles shows it files `A BEL - HOL` as DEFENSIVE |
| Clients.FirstHold | ai_diplomacy/clients.py:485 | the first order that ends in `H`, with none before it; `None` when no order does |
| Clients.DefaultOrder | ai_diplomacy/clients.py:485-486 | the default comes from the location's list; it is a hold whenever the list has one, and otherwise it is the first order |
| Clients.NonEmptySlots | ai_diplomacy/clients.py:483-484 | exactly the locations with at least one legal order, in dict order |
| Clients.FallbackShape | ai_diplomacy/clients.py:478-487 | one order for each non-empty location, in location order, each that location's default |
| Clients.FallbackLegal | ai_diplomacy/clients.py:478-487 | every fallback order is legal for some location |
| Clients.FallbackOrders | ai_diplomacy/clients.py:478-487 | the loop builds the fallback: one legal order for each non-empty location |
| Clients.LegalExtend | ai_diplomacy/clients.py:455 | a legal order stays legal when a location is added, and the new location's orders become legal |
| Clients.StripAllPrefixFails | ai_diplomacy/clients.py:452-453 | once a candidate that is not a string has been met, the whole strip loop raises |
| Clients.Uncovered | ai_diplomacy/clients.py:464-465 | the locations left over are exactly the entries of the dict whose location no accepted order covered |
| Clients.AcceptedExactly | ai_diplomacy/clients.py:452-456 | a stripped candidate is kept exactly when it is legal for some location, which need not be its own |
| Clients.FillIsFallbackOfUncovered | ai_diplomacy/clients.py:463-469 | the orders the fill loop adds are the fallback of the uncovered locations |
| Clients.UncoveredNothing | ai_diplomacy/clients.py:464-465 | with nothing covered, every location is uncovered |
| Clients.TotalRejection | ai_diplomacy/clients.py:471-473 | when no candidate is accepted and no location is covered, the result is exactly `fallback_orders` |
| Clients.NonListValidate | ai_diplomacy/clients.py:444-450 | a value that is not a list but has a length gives `fallback_orders`; one without a length makes the `len` in the debug line raise |
| Clients.ValidateLegal | ai_diplomacy/clients.py:438-476 | whatever the candidates, every validated order is legal for some location |
| Clients.UncoveredLegal | ai_diplomacy/clients.py:464-469 | an order legal for an uncovered location is legal for the whole dict |
| Clients.AcceptCandidates | ai_diplomacy/clients.py:452-459 | the candidate loop raises exactly when some candidate is not a string; otherwise it keeps the legal candidates and the locations they cover (`parts[1][:3]`) |
| Clients.StripAllStep | ai_diplomacy/clients.py:453 | one more string candidate adds its stripped form at the end |
| Clients.AcceptedStep | ai_diplomacy/clients.py:455-456 | one more candidate is appended exactly when it is legal |
| Clients.CoveredStep | ai_diplomacy/clients.py:457-459 | an order with two or more words adds the first three letters of its second word to the covered set, and any other order adds nothing |
| Clients.FillUncovered | ai_diplomacy/clients.py:463-469 | the fill loop adds the default of every non-empty uncovered location, in location order |
| Clients.ValidateOrders | ai_diplomacy/clients.py:438-476 | `_validate_orders` computes its specification: the accepted candidates, then the fill; the fallback when both are empty |
| Clients.NormaliseBraces | ai_diplomacy/clients.py:387-401 | the normalised capture always starts with `{` |
| Clients.NormaliseDoubled | ai_diplomacy/clients.py:389-395 | an object text wrapped in one extra brace pair loses exactly that pair |
| Clients.NormaliseOtherwise | ai_diplomacy/clients.py:396-399 | a capture that starts with a single brace is kept as it is; any other capture becomes `{` + capture + `}`: an opening and a closing brace around the unchanged text |
| Clients.DoubleBraceOpens | ai_diplomacy/clients.py:389-396 | a capture that starts with `{{` also starts with `{` |
| Clients.StripKeepsFirst | ai_diplomacy/clients.py:387-401 | stripping a text that starts with a non-space character keeps that character first |
| Clients.JsonText | ai_diplomacy/clients.py:354-407 | there is JSON text exactly when one of the three searches matched, and it always starts with `{` |
| Clients.ExtractMoves | ai_diplomacy/clients.py:344-436 | with no match the result is `None` |
| Clients.OrdersListFallback | ai_diplomacy/clients.py:418-436 | the bracket fallback gives a list or nothing, and never raises |
| Clients.ExtractDecoded | ai_diplomacy/clients.py:410-412 | on a decoded object the result is the value under "orders", or `None` when that key is absent; any other decoded value makes `.get` raise |
| Clients.ExtractUndecodable | ai_diplomacy/clients.py:413-436 | when decoding fails, only the literal-list fallback is tried, and it gives a list or `None` |
| Clients.OrdersAlwaysLegal | ai_diplomacy/clients.py:286-342 | whatever the model replies, `get_orders` returns only legal orders |
| Clients.NoMatchCounts | ai_diplomacy/clients.py:321-330 | a reply with nothing to extract is always counted as an error and answered with the fallback |
| Clients.GetOrders | ai_diplomacy/clients.py:286-342 | the orders are those the decision gives. The model's `order_decoding_errors` counter goes up by one exactly when the fallback replaced the reply (empty extraction or an exception), and only when a table was passed; nothing else changes |
| Clients.UpperIdempotent | ai_diplomacy/clients.py:570 | upper-casing twice is upper-casing once |
| Clients.ParseBlockSkips | ai_diplomacy/clients.py:559-564 | a block that does not decode, or decodes to something other than an object, is skipped (also lines 599-600) |
| Clients.ParseBlockRecord | ai_diplomacy/clients.py:566-597 | a parsed record comes from the replying power, with stripped content and an upper-case recipient; a private message goes to an active power or to GLOBAL |
| Clients.UpperGlobal | ai_diplomacy/clients.py:569-570 | GLOBAL is already upper-case |
| Clients.ParseDataShape | ai_diplomacy/clients.py:566-597 | for a decoded object: the sender, stripped content and an upper-case recipient |
| Clients.ParseDataPrivate | ai_diplomacy/clients.py:572-577 | for a decoded object: a private message goes to an active power or to GLOBAL |
| Clients.ParseBlockDefaults | ai_diplomacy/clients.py:567-569 | with no "content" the content is empty; with neither "recipient" nor "message_type" the message goes to GLOBAL |
| Clients.ParseAllPrefixFails | ai_diplomacy/clients.py:559-600 | once a block has raised, the whole parse raises |
| Clients.Deduplicate | ai_diplomacy/clients.py:605-607 | the round trip through a set of JSON strings keeps the same records, each once |
| Clients.GetConversationReply | ai_diplomacy/clients.py:533-609 | the reply raises exactly when parsing its blocks raises; otherwise it holds the parsed records, each once |
| Clients.ParseBlocks | ai_diplomacy/clients.py:559-600 | the loop over the blocks computes the parse specification |
| Clients.VisibleMessages | ai_diplomacy/clients.py:861-875 | a power sees exactly the messages to ALL or GLOBAL and those it sent or received, in their original order |
| Clients.VisibleAppend | ai_diplomacy/clients.py:861-875 | the view of a longer history extends the view of the shorter one |
| Clients.TruncateText | ai_diplomacy/clients.py:72-76 | text within the limit is unchanged; longer text keeps its first `max_length` characters, then `.`, and ends with its full length and " chars]" |
| Clients.Validate | ai_diplomacy/clients.py:438-476 | the reference for `_validate_orders`: a raise for a value without a length or a non-string candidate, the fallback for a non-list, else the accepted candidates and the fill; ValidateOrders, ValidateLegal and AcceptedExactly characterise it |
| Clients.Fallback | ai_diplomacy/clients.py:478-487 | the reference for `fallback_orders`; FallbackShape and FallbackLegal characterise it |
| Clients.MovesFromText | ai_diplomacy/clients.py:402-436 | decoding the extracted text: `None` for empty text, the "orders" value of an object, a raise for another decoded value, and the literal-list fallback when decoding fails; ExtractDecoded and ExtractUndecodable characterise it |
| Agent.FilterRelationships | ai_diplomacy/agent.py:150 | the filtered dict holds exactly the pairs whose key is one of the seven powers and not the agent itself, in the reply's order (also line 247) |
| Agent.FilterGet | ai_diplomacy/agent.py:150 | the filtered dict answers for a relatable power as the reply does, and knows no other key (also line 247) |
| Agent.FilterDistinct | ai_diplomacy/agent.py:150 | filtering keeps the keys distinct (also line 247) |
| Agent.UpdateGet | ai_diplomacy/agent.py:250 | after `d.update(u)` a key of `u` reads `u`'s value and every other key reads as before |
| Agent.UpdateHasKey | ai_diplomacy/agent.py:250 | `update` only adds keys of `u` |
| Agent.UpdateDistinct | ai_diplomacy/agent.py:250 | `update` keeps the keys distinct |
| Agent.UpdateKeepsOrder | ai_diplomacy/agent.py:250 | `update` never moves a key that is already present; the old keys stay in front, in their order |
| Agent.NeutralDefaults | ai_diplomacy/agent.py:48-49 | the default table maps every other power, and only those, to "Neutral" |
| Agent.FenceSpan | ai_diplomacy/agent.py:122-124 | an opening fence followed by a closing fence frames the text between them |
| Agent.FencedJson | ai_diplomacy/agent.py:122-124 | a captured body lies between an opening and a closing fence; with no capture, no closing fence starts after the end of any opening fence |
| Agent.FirstIndexOf | ai_diplomacy/agent.py:127 | `find` of one character: the first position holding it, or `None` when it is absent (also line 223) |
| Agent.LastIndexOf | ai_diplomacy/agent.py:128 | `rfind` of one character: the last position holding it, or `None` when it is absent (also line 224) |
| Agent.JsonCandidateChoices | ai_diplomacy/agent.py:122-133 | the three choices in order: the fenced body; else the span from the first `{` to the last `}` (empty when the last `}` comes first); else the whole reply (also lines 218-229) |
| Agent.SetGoals | ai_diplomacy/agent.py:141-144 | new goals with one journal entry; the relationships do not change (also lines 237-241) |
| Agent.SetRelationships | ai_diplomacy/agent.py:148-153 | a new table with one journal entry; the goals do not change (also lines 249-252) |
| Agent.GoalsFrom | ai_diplomacy/agent.py:141-146 | the goals half of both updates leaves the relationships alone (also lines 237-243) |
| Agent.GoalsFromAppends | ai_diplomacy/agent.py:141-146 | the goals half adds at most one journal entry (also lines 237-243) |
| Agent.InitializeAppends | ai_diplomacy/agent.py:87-161 | `initialize_agent_state` only appends to the journal, at most two entries |
| Agent.AnalyseAppends | ai_diplomacy/agent.py:164-269 | `analyze_phase_and_update_state` only appends to the journal, at most two entries |
| Agent.InitializeReplaces | ai_diplomacy/agent.py:148-151 | initialisation replaces the whole table with the valid entries of the reply |
| Agent.AnalyseMerges | ai_diplomacy/agent.py:245-251 | the phase analysis merges only valid keys; every other existing relationship is untouched |
| Agent.NeverSelf | ai_diplomacy/agent.py:150 | a table without the agent's own name keeps that property under both updates (also line 247) |
| Agent.DiplomacyAgent.constructor | ai_diplomacy/agent.py:43-52 | the goals default to empty and the relationships to "Neutral" for every other power; the journal holds exactly the initialisation entry (also line 77) |
| Agent.DiplomacyAgent.AddJournalEntry | ai_diplomacy/agent.py:79-85 | exactly one entry is appended, converted by `str` when it is not a string; nothing else changes |
| Agent.DiplomacyAgent.UpdateGoals | ai_diplomacy/agent.py:272-276 | the goals are replaced and the change journalled; the relationships do not change |
| Agent.DiplomacyAgent.UpdateRelationship | ai_diplomacy/agent.py:278-285 | the agent's own name changes nothing; any other name sets that one key and appends one journal entry |
| Agent.DiplomacyAgent.InitializeAgentState | ai_diplomacy/agent.py:87-161 | after the call the agent's state is the initialisation transition applied to the decoded reply |
| Agent.DiplomacyAgent.AnalyzePhaseAndUpdateState | ai_diplomacy/agent.py:164-269 | after the call the agent's state is the phase-analysis transition applied to the decoded reply |
| Agent.NewAgent | ai_diplomacy/agent.py:40-52 | `ValueError` is raised exactly for a name outside the seven powers; otherwise a new agent with the initialisation entry as its only journal line |
| Agent.Initialized | ai_diplomacy/agent.py:87-161 | the reference for what `initialize_agent_state` does to the agent; InitializeAppends, InitializeReplaces and NeverSelf characterise it |
| Agent.Analysed | ai_diplomacy/agent.py:164-269 | the reference for what `analyze_phase_and_update_state` does to the agent; AnalyseAppends, AnalyseMerges and NeverSelf characterise it |
| Agent.JsonCandidate | ai_diplomacy/agent.py:122-133 | the text tried as JSON; JsonCandidateChoices characterises the three choices |
| Cicero.OfKind | ai_diplomacy/cicero_agent_enhanced.py:45-53 | the orders of one kind are drawn from the location's list, in their order |
| Cicero.OfKindSnoc | ai_diplomacy/cicero_agent_enhanced.py:45-53 | one more order joins the group of its own kind and no other |
| Cicero.OfKindSnocCount | ai_diplomacy/cicero_agent_enhanced.py:45-53 | the same step counted as multisets |
| Cicero.KindsPartition | ai_diplomacy/cicero_agent_enhanced.py:44-53 | the exclusive chain (` S `, then ` C `, then ending in ` H`, else a move) puts every order in exactly one of the four groups |
| Cicero.AddKindSnoc | ai_diplomacy/cicero_agent_enhanced.py:46-53 | appending one order touches only its location's group of its own kind |
| Cicero.GroupedAt | ai_diplomacy/cicero_agent_enhanced.py:44-53 | a location is a key of a group exactly when it has orders of that kind, and its group is the filter of its own list |
| Cicero.DistinctInit | ai_diplomacy/cicero_agent_enhanced.py:44 | distinct keys stay distinct without the last entry, and the last key is new |
| Cicero.NotGrouped | ai_diplomacy/cicero_agent_enhanced.py:44-53 | a location that is not a key of the dict has no group |
| Cicero.GroupByKind | ai_diplomacy/cicero_agent_enhanced.py:36-53 | the loop fills the four `defaultdict`s with exactly the per-location groups |
| Cicero.ComplexSupports | ai_diplomacy/cicero_agent_enhanced.py:98 | exactly the supports that contain `" - "` |
| Cicero.EvaluateSupports | ai_diplomacy/cicero_agent_enhanced.py:90-99 | the complex supports when there are any, else all of them; the result is non-empty exactly when the input is |
| Cicero.StrategicMoves | ai_diplomacy/cicero_agent_enhanced.py:110-118 | exactly the moves whose target names a key territory, in their order |
| Cicero.MovesChosen | ai_diplomacy/cicero_agent_enhanced.py:101-120 | the strategic moves when there are any, else all moves; non-empty exactly when the input is |
| Cicero.EvaluateMoves | ai_diplomacy/cicero_agent_enhanced.py:101-120 | the loop computes that choice |
| Cicero.NoTargetNotStrategic | ai_diplomacy/cicero_agent_enhanced.py:114-115 | a move without `" - "` has no target and is never strategic |
| Cicero.Fallback | ai_diplomacy/cicero_agent_enhanced.py:76-86 | the first convoy, else the first hold, else the first order; always a legal order |
| Cicero.ChoosableIsLegal | ai_diplomacy/cicero_agent_enhanced.py:56-86 | every order the priority may pick is legal for its location |
| Cicero.OnlyFallback | ai_diplomacy/cicero_agent_enhanced.py:60-86 | a location with no support and no move always gets its fallback, whatever the coins say |
| Cicero.Active | ai_diplomacy/cicero_agent_enhanced.py:56-58 | the non-empty order lists, in dict order |
| Cicero.GetOrders | ai_diplomacy/cicero_agent_enhanced.py:56-88 | one order for each location with legal orders, in dict order, and each one the priority could pick, whatever the random outcomes |
| Cicero.PickFor | ai_diplomacy/cicero_agent_enhanced.py:60-86 | the pick for one location, under any coin flips and choices, is a choosable order |
| Cicero.Candidates | ai_diplomacy/cicero_agent_enhanced.py:140-146 | exactly the other powers whose score lies strictly between 0.3 and 0.7 |
| Cicero.NoCandidates | ai_diplomacy/cicero_agent_enhanced.py:140-146 | no candidate means every score is ours or outside the open interval |
| Cicero.BestIndex | ai_diplomacy/cicero_agent_enhanced.py:150-151 | `max` with a key: a candidate of greatest memory, and the first such |
| Cicero.SuggestAlliance | ai_diplomacy/cicero_agent_enhanced.py:137-154 | `None` exactly when no other power scores strictly between 0.3 and 0.7; otherwise never our own power, a real candidate, and one whose memory no candidate beats |
| Cicero.KindOf | ai_diplomacy/cicero_agent_enhanced.py:44-53 | the exclusive chain of tests that groups an order; KindsPartition shows it partitions each location's orders |
| Cicero.Choosable | ai_diplomacy/cicero_agent_enhanced.py:56-86 | the orders the priority chain may pick for a location under some random outcome; ChoosableIsLegal and GetOrders use it |
| Conversations.Line | ai_diplomacy/conversation_history.py:26-32 | the line written for a message is never empty |
| Conversations.ReplayStep | ai_diplomacy/conversation_history.py:20-33 | the tables after one more message are one step of `add_message` applied to the tables before it |
| Conversations.MentionsStep | ai_diplomacy/conversation_history.py:21-22 | a log mentions a phase exactly when its shorter prefix does or its last message is in that phase |
| Conversations.InvolvesStep | ai_diplomacy/conversation_history.py:28-33 | a power is involved exactly when it was involved before or sent or received the last message |
| Conversations.AnyGlobalStep | ai_diplomacy/conversation_history.py:24-27 | some message is public exactly when one was before or the last one is |
| Conversations.ReplayPhases | ai_diplomacy/conversation_history.py:21-22 | `phases` holds every phase mentioned, each once, in order of first mention |
| Conversations.ReplayGlobal | ai_diplomacy/conversation_history.py:24-27 | `global_history["GLOBAL"][p]` is exactly the public lines of phase `p`, and a phase has an entry only if some public message was sent in it |
| Conversations.ReplayGlobalAny | ai_diplomacy/conversation_history.py:24-27 | the public table is non-empty exactly when some message went to GLOBAL (also line 44) |
| Conversations.AppendPairCell | ai_diplomacy/conversation_history.py:28-33 | one `+=` on the nested table appends to exactly one cell and creates only that cell |
| Conversations.ReplayPairs | ai_diplomacy/conversation_history.py:28-33 | `history_by_power[a][p][b]` is exactly the lines `a` and `b` exchanged in phase `p`, and the cell exists only if they exchanged some |
| Conversations.PairLinesSymmetric | ai_diplomacy/conversation_history.py:28-33 | the lines exchanged by `a` with `b` are the lines exchanged by `b` with `a` |
| Conversations.PairsSymmetric | ai_diplomacy/conversation_history.py:28-33 | every message is filed under both the sender and the recipient: both see the same text, and the cells exist together |
| Conversations.AppendPairKeys | ai_diplomacy/conversation_history.py:28-33 | after one `+=`, only the writer's table is added, it is never empty, and the other tables are unchanged |
| Conversations.ReplayInvolved | ai_diplomacy/conversation_history.py:28-33 | a power has a table exactly when it sent or received something, and a table that exists is never empty |
| Conversations.ConversationEmpty | ai_diplomacy/conversation_history.py:41-62 | the text is empty exactly when no message was public and none involved the power |
| Conversations.GlobalBeforePrivate | ai_diplomacy/conversation_history.py:44-52 | the GLOBAL section comes before the PRIVATE one: with a public message the text opens with "GLOBAL:", and otherwise a power with private messages sees "PRIVATE:" first |
| Conversations.GlobalOpens | ai_diplomacy/conversation_history.py:44-45 | a non-empty public table makes the text open with "GLOBAL:" |
| Conversations.PrivateOpens | ai_diplomacy/conversation_history.py:51-52 | with no public table, a non-empty private table makes the text open with "PRIVATE:" |
| Conversations.GlobalSectionFrame | ai_diplomacy/conversation_history.py:46-49 | a phase outside the reported window does not affect the GLOBAL section |
| Conversations.PrivateSectionFrame | ai_diplomacy/conversation_history.py:53-60 | a phase outside the reported window does not affect the PRIVATE section |
| Conversations.AppendPairOwnTable | ai_diplomacy/conversation_history.py:28-33 | after one `+=` the power's table differs from before at most in that message's phase |
| Conversations.PrivatePartFrame | ai_diplomacy/conversation_history.py:51-60 | tables that agree on the reported phases give the same PRIVATE section |
| Conversations.OutsideWindowInvisible | ai_diplomacy/conversation_history.py:42-62 | only the last `num_prev_phases` phases are reported: a message added to an earlier phase changes nothing the power sees, once both sections exist |
| Conversations.ConversationHistory.constructor | ai_diplomacy/conversation_history.py:13-18 | the history starts empty |
| Conversations.ConversationHistory.AddMessage | ai_diplomacy/conversation_history.py:20-33 | one more message in the log; the phase is appended only if it is new; the tables stay the replay of the log |
| Conversations.ConversationHistory.Record | ai_diplomacy/conversation_history.py:24-33 | the three table updates are one step of the replay |
| Conversations.ConversationHistory.GetConversationHistory | ai_diplomacy/conversation_history.py:41-62 | the loops build the specified text: GLOBAL, then PRIVATE, over the last `num_prev_phases` phases |
| Conversations.RenderCounterparts | ai_diplomacy/conversation_history.py:56-60 | the inner loop renders every counterpart of one phase in table order |
| History.GlobalOnly | ai_diplomacy/game_history.py:45-47 | exactly the messages addressed to GLOBAL, in insertion order |
| History.RenderGlobalAppend | ai_diplomacy/game_history.py:45-47 | one more public message adds its line at the end |
| History.GlobalTextStep | ai_diplomacy/game_history.py:45-47 | one loop step adds a line exactly when the message is public |
| History.GlobalTextEmpty | ai_diplomacy/game_history.py:43-48 | the global text is empty exactly when no message is addressed to GLOBAL |
| History.RenderGlobalEmpty | ai_diplomacy/game_history.py:47 | rendered lines are empty exactly when there are no messages, since every line is non-empty |
| History.RenderPrivateAppend | ai_diplomacy/game_history.py:54-56 | one more message of a conversation adds its line at the end |
| History.PrivateGrouping | ai_diplomacy/game_history.py:50-57 | the text under a counterpart is exactly the lines of the messages whose counterpart it is, in insertion order: the recipient for a non-public message the power sent, the sender for one addressed to the power. Every other key is absent |
| History.ConversationMembers | ai_diplomacy/game_history.py:53-56 | a message is in the conversation with `other` exactly when it is one of the power's messages whose counterpart is `other` |
| History.PrivateEmpty | ai_diplomacy/game_history.py:50-57 | no conversation at all, exactly when no message has a counterpart for the power |
| History.Pad | ai_diplomacy/game_history.py:39-40 | results are padded with empty lists up to the number of orders and never shortened |
| History.AddOrdersCover | ai_diplomacy/game_history.py:36-41 | `add_orders` keeps results in step with orders, and the power's orders and results grow by exactly what was passed in |
| History.AllOrdersTextEmpty | ai_diplomacy/game_history.py:59-75 | the formatted orders are empty exactly when no power has submitted orders |
| History.PaddedOrderSuccessful | ai_diplomacy/game_history.py:68-72 | an order whose result was padded in is reported " (successful)" |
| History.FindView | ai_diplomacy/game_history.py:84-86 | the first phase with that name, or `None` when none has it |
| History.WithPhase | ai_diplomacy/game_history.py:82-91 | after `add_phase` a phase of that name exists |
| History.WithPhaseFindOrCreate | ai_diplomacy/game_history.py:82-91 | find-or-create: a known name leaves the list as it is, an unknown one appends exactly one empty phase, and names stay distinct |
| History.AppendKeepsNames | ai_diplomacy/game_history.py:93-101 | updating the found phase without renaming it keeps names distinct |
| History.AppendMessageExactlyOne | ai_diplomacy/game_history.py:93-95 | `add_message` appends exactly one message to the phase of that name, created empty when new, and changes no other phase |
| History.LatestOnlyLast | ai_diplomacy/game_history.py:169 | with distinct names, the only phase equal to the last one is the last one itself |
| History.ActiveCount | ai_diplomacy/game_history.py:113-126 | the count of phases with something for the power is at most the number of phases |
| History.SilentPhase | ai_diplomacy/game_history.py:115-117 | a phase is silent for a power exactly when it has no public message and no message to or from the power |
| History.ActiveCountZero | ai_diplomacy/game_history.py:113-118 | the count is zero exactly when no phase has anything for the power (also line 131) |
| History.HistoryTextNoPhases | ai_diplomacy/game_history.py:104-106 | with no phases the history is the fixed "(No game phases recorded yet)" text |
| History.HistoryTextSilent | ai_diplomacy/game_history.py:130-134 | when no phase has messages for the power, the history is only the "has not engaged" line |
| History.HistoryTextRecent | ai_diplomacy/game_history.py:136-207 | when some phase of the window has a public message or a conversation for the power, the text is the header plus the report of the window, with neither the earlier-phases notice nor the closing note |
| History.HistoryTextQuiet | ai_diplomacy/game_history.py:136-207 | when the power has messages only before the window, the report is preceded by the notice naming the window's size and followed by the no-content note, as the two `recent_phases_message_count == 0` / `not has_content` branches add them |
| History.ReportsOnlyRecent | ai_diplomacy/game_history.py:108 | only the last `num_prev_phases` phases are reported: histories with the same window give the same text, given the same all-phases check (also lines 145-197) |
| History.PhaseTextTitle | ai_diplomacy/game_history.py:147 | a phase that is shown opens with its name |
| History.ReportEndsWithLatest | ai_diplomacy/game_history.py:169-197 | the reported text ends with the latest phase, which is always shown |
| History.LatestPhaseShown | ai_diplomacy/game_history.py:145-197 | once the power has any messages at all, the latest reported phase appears under its name |
| History.Phase.constructor | ai_diplomacy/game_history.py:20-29 | a new phase has the name and empty messages, orders and results |
| History.Phase.AddMessage | ai_diplomacy/game_history.py:31-34 | one `Message(sender, recipient, content)` appended; nothing else changes |
| History.Phase.AddOrders | ai_diplomacy/game_history.py:36-41 | the orders are appended to the power's list and the padded results to its results. The padded list is returned, since the source extends the caller's list in place |
| History.Phase.GetGlobalMessages | ai_diplomacy/game_history.py:43-48 | the loop builds the global text |
| History.Phase.GetPrivateMessages | ai_diplomacy/game_history.py:50-57 | the loop builds the grouping by counterpart |
| History.Phase.GetAllOrdersFormatted | ai_diplomacy/game_history.py:59-75 | the loops build the formatted orders |
| History.FormatOrders | ai_diplomacy/game_history.py:67-73 | the inner loop renders each order with its joined results, or " (successful)" when there are none |
| History.Views | ai_diplomacy/game_history.py:80 | the snapshots of a phase list, one per phase |
| History.ViewsAppend | ai_diplomacy/game_history.py:90 | appending a phase appends its snapshot |
| History.ViewsTail | ai_diplomacy/game_history.py:108 | taking the last `n` phases commutes with taking snapshots |
| History.GameHistory.constructor | ai_diplomacy/game_history.py:78-80 | a new history has no phases |
| History.GameHistory.AddPhase | ai_diplomacy/game_history.py:82-91 | the phase list becomes find-or-create of the name; the returned phase is the one stored under that name; a known name changes nothing, and an unknown one appends a fresh phase |
| History.GameHistory.AppendPhase | ai_diplomacy/game_history.py:89-91 | for a name not yet present, a fresh empty phase appended; the history keeps its phases distinct and their names unique |
| History.GameHistory.Find | ai_diplomacy/game_history.py:84-86 | the search loop finds the first phase of that name |
| History.GameHistory.AddMessage | ai_diplomacy/game_history.py:93-95 | exactly one message appended to the named phase, created when new |
| History.GameHistory.MessageInto | ai_diplomacy/game_history.py:95 | the message goes to the i-th phase only |
| History.GameHistory.AddOrders | ai_diplomacy/game_history.py:97-101 | the named phase's `add_orders`, with the padded results returned |
| History.GameHistory.OrdersInto | ai_diplomacy/game_history.py:101 | the orders go to the i-th phase only |
| History.GameHistory.GetGameHistory | ai_diplomacy/game_history.py:103-207 | the method computes the specified history text |
| History.CountActive | ai_diplomacy/game_history.py:113-126 | the counting loops compute the number of phases with content for the power |
| History.RenderPhases | ai_diplomacy/game_history.py:145-197 | the rendering loop builds the report of the window |
| History.PhasesTextStep | ai_diplomacy/game_history.py:145-197 | one loop step adds that phase's text |
| History.SamePhaseOf | ai_diplomacy/game_history.py:169 | `phase == phases_to_report[-1]` is dataclass equality, field by field |
| History.RenderPhase | ai_diplomacy/game_history.py:146-197 | one phase's text: its GLOBAL, PRIVATE and ORDERS sections, shown only with content or when it is the latest |
| History.RenderPrivateSection | ai_diplomacy/game_history.py:161-163 | the loop renders each counterpart's conversation |
| History.RenderOrdersSection | ai_diplomacy/game_history.py:175-193 | the loop renders each power's orders, "(No orders)" for an empty list |
| History.HistoryOrders | ai_diplomacy/game_history.py:182-192 | each order with its joined results; " (successful)" when the result is missing, empty or all blank |
| MapGraph.PutRow | ai_diplomacy/map_utils.py:21-30 | replacing one node's row changes what is read at that node and nothing else |
| MapGraph.AddNodeKeeps | ai_diplomacy/map_utils.py:18-21 | `add_node` never clears a node's adjacency and only ever adds `n` to the nodes |
| MapGraph.AddNodeIdempotent | ai_diplomacy/map_utils.py:18-21 | `add_node` is idempotent, and afterwards `n` is a node |
| MapGraph.AddNodeWellFormed | ai_diplomacy/map_utils.py:18-21 | `add_node` keeps every neighbour a node |
| MapGraph.AddUnit | ai_diplomacy/map_utils.py:29-31 | adding one unit type to one direction changes only that ordered pair |
| MapGraph.AddEdgeEffect | ai_diplomacy/map_utils.py:23-36 | `add_edge(a, b, t)` adds `t` to both directions, creates both edges and both nodes, and changes no other pair |
| MapGraph.AddEdgeWellFormed | ai_diplomacy/map_utils.py:23-36 | `add_edge` keeps every neighbour a node |
| MapGraph.DiplomacyGraph.constructor | ai_diplomacy/map_utils.py:12-16 | a new graph is empty |
| MapGraph.DiplomacyGraph.AddNode | ai_diplomacy/map_utils.py:18-21 | the method applies `add_node` |
| MapGraph.DiplomacyGraph.AddEdge | ai_diplomacy/map_utils.py:23-36 | the method applies `add_edge` |
| MapGraph.DiplomacyGraph.AddDirected | ai_diplomacy/map_utils.py:29-31 | `graph[a][b].add(t)`, creating the set when needed |
| MapGraph.DiplomacyGraph.GetAdjacent | ai_diplomacy/map_utils.py:38-40 | an unknown node has no neighbours; otherwise exactly the nodes it has an edge to |
| MapGraph.DiplomacyGraph.GetAllowedUnits | ai_diplomacy/map_utils.py:42-44 | the unit types of the pair, and the empty set for an unknown node or pair |
| MapGraph.DiplomacyGraph.Nodes | ai_diplomacy/map_utils.py:46-48 | exactly the nodes of the graph |
| MapGraph.DiplomacyGraph.Edges | ai_diplomacy/map_utils.py:50-63 | each unordered pair appears at most once, each listed edge exists with the unit types of its first direction, and every edge's pair is listed |
| MapGraph.RowEdges | ai_diplomacy/map_utils.py:56-61 | the inner loop lists or skips each pair of one row, and afterwards all those pairs are seen |
| MapGraph.ListEdge | ai_diplomacy/map_utils.py:59-61 | listing an unseen pair keeps the list and the seen set in step |
| MapGraph.PairsListed | ai_diplomacy/map_utils.py:58-61 | a listed edge's pair is among the listed pairs |
| MapGraph.PairsAppend | ai_diplomacy/map_utils.py:59-61 | appending an edge with an unseen pair adds exactly that pair and repeats none |
| MapGraph.InSteps | ai_diplomacy/map_utils.py:108-112 | a move is allowed exactly when the edge exists and its unit types meet the allowed ones (also lines 174-178) |
| MapGraph.ClosedHoldsWalks | ai_diplomacy/map_utils.py:103-125 | a visited set closed under allowed moves that holds the start holds the end of every walk |
| MapGraph.ExtendPath | ai_diplomacy/map_utils.py:113-115 | extending a path without repeats by an unvisited neighbour keeps it without repeats (also lines 179-181) |
| MapGraph.VisitOne | ai_diplomacy/map_utils.py:114 | visiting one more node leaves one fewer unvisited, so the loop terminates (also line 180) |
| MapGraph.Dequeue | ai_diplomacy/map_utils.py:104-105 | the dequeued path is a path without repeats over visited nodes, and only its end is left unexpanded (also lines 163-164) |
| MapGraph.Enqueue | ai_diplomacy/map_utils.py:113-122 | queueing `p + [n]` for an unvisited neighbour keeps the queue invariants (also lines 179-182) |
| MapGraph.Expand | ai_diplomacy/map_utils.py:108-122 | once every allowed move out of the current node leads to a visited node, the visited set is closed |
| MapGraph.KeySet | ai_diplomacy/map_utils.py:16 | the set of nodes of the graph |
| MapGraph.StepsLink | ai_diplomacy/map_utils.py:108-112 | the allowed moves out of a node are its neighbours with a shared unit type |
| MapGraph.StepsStayInside | ai_diplomacy/map_utils.py:108 | in a well-formed graph every move leads to a node |
| MapGraph.BfsShortestPath | ai_diplomacy/map_utils.py:66-125 | an unknown start gives (None, None); a matching start gives `[start]`; a found path starts at the start, repeats no node, crosses only allowed edges and ends on a match; with no path found, nothing reachable matches |
| MapGraph.ShortestFrom | ai_diplomacy/map_utils.py:108-122 | one turn of the loop: either a path to a match, or the neighbours queued with the invariants kept |
| MapGraph.ScanSkip | ai_diplomacy/map_utils.py:112-113 | a neighbour that cannot be reached or is already visited is skipped |
| MapGraph.ScanPush | ai_diplomacy/map_utils.py:113-122 | a new neighbour that does not match is visited and queued |
| MapGraph.ScanDone | ai_diplomacy/map_utils.py:108-122 | after the scan the visited set and the queue keep the search invariants, and the measure has decreased |
| MapGraph.CheckedAfter | ai_diplomacy/map_utils.py:166-182 | expanding a node with no occupied neighbour keeps every expanded node in that state |
| MapGraph.BfsNearestAdjacent | ai_diplomacy/map_utils.py:127-185 | an empty occupant map or unknown start gives (None, (None, None)). A found path starts at the start with no repeats, crosses allowed edges, and ends next to the returned occupied territory, whatever the unit types of that edge. With no path found, no reachable node has an occupied neighbour |
| MapGraph.NearestStep | ai_diplomacy/map_utils.py:162-182 | one turn: either the path ends next to an occupied territory, or its moves are queued |
| MapGraph.NearestExpand | ai_diplomacy/map_utils.py:173-182 | the expansion half keeps the search invariant and decreases the measure |
| MapGraph.OccupiedNeighbour | ai_diplomacy/map_utils.py:166-171 | the first neighbour, in adjacency order, that is occupied; `None` means no neighbour is |
| Negotiations.Recipient | ai_diplomacy/negotiations.py:83-89 | the resolved recipient is a power of the game or GLOBAL |
| Negotiations.RecipientRules | ai_diplomacy/negotiations.py:83-89 | a private message keeps a recipient that is a game power or GLOBAL, and a missing or unknown recipient becomes GLOBAL; every message that is not private goes to GLOBAL |
| Negotiations.ClientRepliesGoGlobal | ai_diplomacy/negotiations.py:83-89 | the records `get_conversation_reply` returns carry no `message_type` (ai_diplomacy/clients.py:591-595), so every one is sent to GLOBAL, with the record's content |
| Negotiations.Submitted | ai_diplomacy/negotiations.py:47-57 | the powers asked in each round, in the order of `active_powers`: exactly those with an agent and at least one orderable location |
| Negotiations.Sends | ai_diplomacy/negotiations.py:80-98 | one engine message per dict of the reply, in order, each from the power asked |
| Negotiations.ToMessage | ai_diplomacy/negotiations.py:91-97 | the engine message of one dict comes from the power asked |
| Negotiations.Lines | ai_diplomacy/negotiations.py:106-107 | one journal line per message, in order |
| Negotiations.SentAfterReply | ai_diplomacy/negotiations.py:79-98 | one more reply sends its messages after the earlier ones |
| Negotiations.Row | ai_diplomacy/negotiations.py:47-74 | the requests of one round, one per submitted power, in order |
| Negotiations.ScheduleLength | ai_diplomacy/negotiations.py:42-74 | `n` rounds make `n` times as many requests as there are submitted powers |
| Negotiations.ScheduleMembers | ai_diplomacy/negotiations.py:42-74 | every scheduled request names a round below `n` and a submitted power |
| Negotiations.TurnsAfterRaise | ai_diplomacy/negotiations.py:78 | once a reply has raised, nothing more happens |
| Negotiations.RaisedRest | ai_diplomacy/negotiations.py:78 | the rest of a round after a raise changes nothing |
| Negotiations.TurnsKeep | ai_diplomacy/negotiations.py:76-110 | a property that every turn of a round keeps holds after any number of turns |
| Negotiations.RoundsKeep | ai_diplomacy/negotiations.py:42-110 | a property that every round keeps holds after any number of rounds |
| Negotiations.TurnsRequests | ai_diplomacy/negotiations.py:47-78 | within a round the submitted powers are asked in order, each once; the log ends at the first reply that raises (see "## Left out") |
| Negotiations.RoundsRequests | ai_diplomacy/negotiations.py:42-78 | the rounds run one after another: the requests made are a prefix of the schedule, and all of it unless a reply raised |
| Negotiations.RequestsMade | ai_diplomacy/negotiations.py:42-78 | exactly `max_rounds` rounds of one request per submitted power unless a reply raised, and never a request to a power without an agent or without orderable locations |
| Negotiations.TurnOutcome | ai_diplomacy/negotiations.py:76-110 | a turn counts one conversation error exactly when the reply is empty, and sends exactly the reply's messages, from the power asked |
| Negotiations.SentBy | ai_diplomacy/negotiations.py:107 | the sent messages of one sender, in order |
| Negotiations.JournalOfSender | ai_diplomacy/negotiations.py:107 | the corrected routing: a power's agent is told of exactly the messages that power sent |
| Negotiations.SentByAppend | ai_diplomacy/negotiations.py:107 | selecting by sender distributes over concatenation |
| Negotiations.SendsSnoc | ai_diplomacy/negotiations.py:80-98 | the messages of a longer reply extend those of its prefix |
| Negotiations.LinesAppend | ai_diplomacy/negotiations.py:106-107 | the lines of two runs of messages are the lines of each, concatenated |
| Negotiations.SentBySends | ai_diplomacy/negotiations.py:91-107 | all messages of one reply from `p` reach `p`'s agent and no other |
| Negotiations.JournalForTurn | ai_diplomacy/negotiations.py:106-107 | after a reply from `p` only `p`'s journal grows, by that reply's lines |
| Negotiations.AppendAllConcat | ai_diplomacy/negotiations.py:100-105 | adding two runs of messages to the history is adding the first, then the second |
| Negotiations.AppendAllSnoc | ai_diplomacy/negotiations.py:100-105 | one more message is one more `game_history.add_message` |
| Negotiations.BumpsCount | ai_diplomacy/negotiations.py:108-110 | a power's conversation errors grow by the number of its empty replies; its decoding errors do not move |
| Negotiations.Journals | ai_diplomacy/negotiations.py:106-107 | every agent's journal grows by the lines of its power's messages; the set of agents does not change |
| Negotiations.ExpectedStart | ai_diplomacy/negotiations.py:35-42 | nothing has happened before the first round |
| Negotiations.DeliveredIs | ai_diplomacy/negotiations.py:80-107 | delivering a run of messages appends it to the engine's messages and to `p`'s journal, adds each to the history, and leaves the error table alone |
| Negotiations.DeliveredFields | ai_diplomacy/negotiations.py:80-107 | the same, field by field: only `p`'s journal changes |
| Negotiations.JournalsAfterReply | ai_diplomacy/negotiations.py:106-107 | after a reply from `p`, only `p`'s journal grows, by the reply's lines |
| Negotiations.ExpectedAfterReply | ai_diplomacy/negotiations.py:79-107 | a non-empty reply delivers its messages |
| Negotiations.ExpectedAfterFailure | ai_diplomacy/negotiations.py:108-110 | an empty reply is one more conversation error for that power |
| Negotiations.TurnExpected | ai_diplomacy/negotiations.py:76-110 | every turn keeps the world equal to what its effects say |
| Negotiations.NegotiationWorld | ai_diplomacy/negotiations.py:23-113 | after the negotiation, the engine and the history hold every sent message in order; the error table has one conversation error per empty reply; each agent's journal has the lines of its own power's messages |
| Negotiations.ConductNegotiations | ai_diplomacy/negotiations.py:23-113 | the method's loops reach the world the negotiation specification describes, and report whether a reply raised |
| Negotiations.SubmittedPowers | ai_diplomacy/negotiations.py:47-74 | the submission loop picks the powers with an agent and orderable locations, in order |
| Negotiations.RunRound | ai_diplomacy/negotiations.py:46-110 | one round takes the submitted powers' replies in turn |
| Negotiations.TakeTurn | ai_diplomacy/negotiations.py:77-110 | one reply: an exception ends the negotiation, an empty reply is counted, and any other reply's messages are delivered |
| Negotiations.Deliver | ai_diplomacy/negotiations.py:80-107 | each message of a reply, in order, goes to the engine and the history and is journalled |
| Negotiations.JournalHolder | ai_diplomacy/negotiations.py:47-51 | the agent the source's journal lines reach: `agent` was last assigned in the submission loop, for the last active power with an agent (also line 107) |
| Negotiations.LastIndex | ai_diplomacy/negotiations.py:47-51 | the last position of a power in the list |
| Negotiations.HiSends | ai_diplomacy/negotiations.py:80-98 | the example's one message is sent to GLOBAL |
| Negotiations.HiSubmitted | ai_diplomacy/negotiations.py:47-57 | both active powers with agents are asked |
| Negotiations.HiNegotiation | ai_diplomacy/negotiations.py:42-110 | in one round with Austria and England, only Austria's message is sent |
| Negotiations.HiLine | ai_diplomacy/negotiations.py:106-107 | the example message's journal line |
| Negotiations.JournalMisrouted | ai_diplomacy/negotiations.py:51 | Austria replies with one message and England with none. The line about Austria's message belongs in Austria's journal, but the source writes it into England's (also line 107) |
| Negotiations.JournalAsWritten | ai_diplomacy/negotiations.py:106-107 | the journal lines as the code writes them: all lines of every sent message go to the agent that JournalHolder names, and no other agent gains any; JournalMisrouted evaluates it on the example |
| Negotiations.Negotiation | ai_diplomacy/negotiations.py:41-110 | the reference for the whole negotiation: `max_rounds` rounds, each asking the submitted powers in order; RequestsMade and NegotiationWorld characterise it |
| Negotiations.DeliverOne | ai_diplomacy/negotiations.py:89-107 | one message is appended to the engine's messages and to its phase in the history, and its journal line goes to the sender's journal, the corrected routing |
| LongStoryShort.CountTokens | ai_diplomacy/long_story_short.py:33-38 | the approximate token count is a quarter of the text's length, rounded down |
| LongStoryShort.BaseTokens | ai_diplomacy/long_story_short.py:242-245 | a missing or empty previous summary adds no tokens (also lines 286-289) |
| LongStoryShort.WithPowerState | ai_diplomacy/long_story_short.py:74-84 | a power seen for the first time gets a zeroed record; every other power's record, and a known power's own, is left as it was |
| LongStoryShort.PowerStateStable | ai_diplomacy/long_story_short.py:74-84 | looking the same power up twice changes nothing the second time |
| LongStoryShort.Unsummarized | ai_diplomacy/long_story_short.py:234-236 | exactly the phases neither summarised before nor themselves a `SUMMARY_UNTIL_` entry (also lines 336-338) |
| LongStoryShort.UnsummarizedSorted | ai_diplomacy/long_story_short.py:333-338 | filtering the sorted phase names keeps them sorted |
| LongStoryShort.UnsummarizedEmpty | ai_diplomacy/long_story_short.py:234-240 | when every phase is summarised or a summary entry, nothing is left to summarise |
| LongStoryShort.UnsummarizedAll | ai_diplomacy/long_story_short.py:234-236 | when no phase is summarised or a summary entry, every phase is left, in order (also lines 336-338) |
| LongStoryShort.Texts | ai_diplomacy/long_story_short.py:248 | one text per phase name |
| LongStoryShort.ShouldSummarizePhases | ai_diplomacy/long_story_short.py:220-263 | never during the 30-second cooldown, never without new phases, and otherwise exactly when the previous summary's tokens plus the new phases' tokens exceed the threshold |
| LongStoryShort.NothingNewNothingDue | ai_diplomacy/long_story_short.py:234-240 | a phase dict with nothing new is never due, however large it is |
| LongStoryShort.ContentLines | ai_diplomacy/long_story_short.py:296-299 | the content lines are drawn from the history's lines |
| LongStoryShort.ShouldSummarizeMessages | ai_diplomacy/long_story_short.py:265-316 | never during the cooldown, never for an empty, blank or "(No history yet)" history, never for a short template with at most two content lines; when due, the tokens exceed the threshold |
| LongStoryShort.BlankNotDue | ai_diplomacy/long_story_short.py:281-284 | a history of white space only is never due |
| LongStoryShort.MessagesDueWithoutTemplate | ai_diplomacy/long_story_short.py:265-316 | without the "COMMUNICATION HISTORY:" marker, the decision is exactly cooldown over, some text present, and the threshold exceeded |
| LongStoryShort.Without | ai_diplomacy/long_story_short.py:350 | exactly the names of the first list not in the second |
| LongStoryShort.PlanFor | ai_diplomacy/long_story_short.py:333-353 | the unsummarised phases in sorted order; the last three are kept intact when there are more than two, otherwise all are kept and nothing is summarised; those to summarise are exactly the others |
| LongStoryShort.PlanKeepsLatest | ai_diplomacy/long_story_short.py:318-348 | the greatest unsummarised phase, as the phases were sorted, is always kept intact and never summarised |
| LongStoryShort.KeptSummariesGet | ai_diplomacy/long_story_short.py:412-417 | an earlier summary entry is kept exactly when it names no phase being summarised |
| LongStoryShort.PutRecentGet | ai_diplomacy/long_story_short.py:427-430 | every intact phase is written with its text and nothing else changes |
| LongStoryShort.KeptOthersGet | ai_diplomacy/long_story_short.py:432-439 | the other regular phases are copied when they are not yet in the result |
| LongStoryShort.SummaryKey | ai_diplomacy/long_story_short.py:420-424 | the new summary's key is a `SUMMARY_UNTIL_` entry |
| LongStoryShort.StagesGet | ai_diplomacy/long_story_short.py:410-439 | what the four stages together leave at any key |
| LongStoryShort.RebuiltGet | ai_diplomacy/long_story_short.py:408-454 | the returned dict at any key: intact phases keep their text, the new key holds the summary, summarised phases are gone, other regular phases are kept, and earlier summaries survive when they name no summarised phase |
| LongStoryShort.RebuiltFacts | ai_diplomacy/long_story_short.py:408-454 | the same facts stated for one key at a time, in the source's terms |
| LongStoryShort.AppendNew | ai_diplomacy/long_story_short.py:402-404 | the list after marking holds the old list as a prefix, all the new phases, no duplicates when it had none |
| LongStoryShort.OutcomeState | ai_diplomacy/long_story_short.py:318-404 | a call keeps the summarised phases free of duplicates and never forgets one; a call that changes the record restarts the cooldown; a call that changes the dict records the new summary |
| LongStoryShort.KeepSummaries | ai_diplomacy/long_story_short.py:412-417 | the loop keeps exactly the earlier summaries the specification keeps |
| LongStoryShort.WriteRecent | ai_diplomacy/long_story_short.py:427-430 | the loop writes the intact phases as specified |
| LongStoryShort.KeepOthers | ai_diplomacy/long_story_short.py:432-439 | the loop copies the other regular phases as specified |
| LongStoryShort.RebuildResult | ai_diplomacy/long_story_short.py:408-454 | the method builds the dict the specification describes |
| LongStoryShort.MarkSummarized | ai_diplomacy/long_story_short.py:402-404 | the loop appends each new phase once |
| LongStoryShort.SummarizePhases | ai_diplomacy/long_story_short.py:318-463 | the method returns the dict and leaves the record that one call of the specification gives |
| LongStoryShort.SplitPoint | ai_diplomacy/long_story_short.py:586-598 | the split point is `max(1, floor(3n/4))`: at least one, at most three quarters of the length and within one of it, and short of the end once there are two items |
| LongStoryShort.LineSplitReassembles | ai_diplomacy/long_story_short.py:583-589 | the older part, a line break and the recent part give back the history |
| LongStoryShort.CharSplitReassembles | ai_diplomacy/long_story_short.py:596-600 | the two parts give back the history, and the recent part is non-empty once there are two characters |
| LongStoryShort.MessageSplitReassembles | ai_diplomacy/long_story_short.py:515-600 | without timestamp sections the two parts give back the history, and the preserved part is non-empty once there are two characters |
| LongStoryShort.TwoYears | ai_diplomacy/long_story_short.py:333 | the five phases of two years up to the second fall |
| LongStoryShort.FirstTwoYears | ai_diplomacy/long_story_short.py:333 | 1901 and 1902 give S1901M, F1901M, W1901A, S1902M, F1902M |
| LongStoryShort.ChronologyOfTwoYears | ai_diplomacy/long_story_short.py:329-333 | the second fall is the chronologically latest of the five |
| LongStoryShort.LexTwoYearsSorted | ai_diplomacy/long_story_short.py:333 | the string order of the five names groups them by season letter |
| LongStoryShort.LexicographicSortOfTwoYears | ai_diplomacy/long_story_short.py:333 | `sorted` on the five names gives that string order |
| LongStoryShort.NoSummaryNames | ai_diplomacy/long_story_short.py:336-338 | none of the five is a summary entry |
| LongStoryShort.LexicographicPlanOfTwoYears | ai_diplomacy/long_story_short.py:333-345 | the source's plan keeps the last three names in string order |
| LongStoryShort.LexicographicPlanSummarizesLatest | ai_diplomacy/long_story_short.py:333-348 | with the string sort, the second fall is summarised and the first winter is taken for the most recent phase |
| LongStoryShort.ChronologicalPlanKeepsLatest | ai_diplomacy/long_story_short.py:329-348 | with the chronological sort, the second fall is kept intact and is the most recent phase |
| LongStoryShort.ContextManager.constructor | ai_diplomacy/long_story_short.py:46-68 | the thresholds and model are stored; no power has a record and the phase record is zeroed |
| LongStoryShort.ContextManager.GetPowerState | ai_diplomacy/long_story_short.py:74-84 | the records become those of the lookup specification, and the power's record is returned |
| LongStoryShort.ContextManager.ShouldSummarizeMessagesFor | ai_diplomacy/long_story_short.py:265-316 | the power's record is created if needed, and the decision is the specified one on that record |
| LongStoryShort.ContextManager.SummarizePhaseHistory | ai_diplomacy/long_story_short.py:318-463 | the result and the new phase record are one call of the specification under the chronological phase order, the corrected order of the Findings row for long_story_short.py:333-341 (the source sorts the names as strings); nothing else changes |
| LongStoryShort.PhaseSummaryOutcome | ai_diplomacy/long_story_short.py:318-463 | the reference for `summarize_phase_history` under a given phase order: the dict and the record one call leaves; RebuiltGet and OutcomeState characterise it |
| LongStoryShort.MessageSplit | ai_diplomacy/long_story_short.py:515-604 | the choice among the timestamp split, the line split and the character split; MessageSplitReassembles characterises it |
| LongStoryShort.LineSplit | ai_diplomacy/long_story_short.py:583-589 | the split of the lines at about three quarters; LineSplitReassembles characterises it |
| LongStoryShort.CharSplit | ai_diplomacy/long_story_short.py:596-600 | the split of the characters at about three quarters; CharSplitReassembles characterises it |
| ModelLoader.SelectProvider | ai_diplomacy/model_loader.py:23-39 | Claude exactly when the lower-cased id contains "claude"; Gemini when it contains "gemini" but not "claude"; DeepSeek when it contains "deepseek" and neither of those; OpenAI otherwise |
| ModelLoader.LoadModelClient | ai_diplomacy/model_loader.py:14-39 | the client is of the selected provider and gets the id, the power and the empty-system flag unchanged |
| ModelLoader.CaseInsensitive | ai_diplomacy/model_loader.py:23 | the choice does not depend on the id's case |
| ModelLoader.FirstCheckWins | ai_diplomacy/model_loader.py:27-35 | an id naming two providers goes to the one checked first |
| ErrorStats.Stats.constructor | lm_game.py:90-92 | no key has counters yet; every key reads as zero errors of both kinds |
| ErrorStats.Stats.Bump | lm_game.py:90-92 | one counter of one key grows by one; every other key reads as before |
| Powers.PowersListed | ai_diplomacy/utils.py:39 | the seven great powers, distinct, and GLOBAL is not one of them |
| PhaseOrder.SeasonOrder | analyze_game_moments.py:825 | at most three; zero exactly for a letter other than S, F and W |
| PhaseOrder.PhaseSortKey | analyze_game_moments.py:813-829 | a name shorter than six characters gets the least key; otherwise the key holds the season's rank and the phase type |
| PhaseOrder.KeyLessIrreflexive | analyze_game_moments.py:813-829 | no key sorts before itself |
| PhaseOrder.KeyLessTransitive | analyze_game_moments.py:813-829 | the order on keys is transitive |
| PhaseOrder.KeyLessTotal | analyze_game_moments.py:813-829 | any two different keys are ordered |
| PhaseOrder.SeasonsInOrder | analyze_game_moments.py:824-825 | in a year, spring comes before fall and fall before winter |
| PhaseOrder.YearsInOrder | analyze_game_moments.py:821 | every phase of a year comes before every phase of a later year |
| PhaseOrder.BeforeIrreflexive | analyze_game_moments.py:813-829 | no name sorts before itself, in either order |
| PhaseOrder.BeforeTransitive | analyze_game_moments.py:813-829 | both orders on names are transitive |
| PhaseOrder.BeforeTotal | analyze_game_moments.py:813-829 | any two different names are ordered, in either order |
| PhaseOrder.BeforeStrict | analyze_game_moments.py:813-829 | both orders are strict orders, as the sort needs |
| PhaseOrder.SortBy | ai_diplomacy/long_story_short.py:333 | sorting keeps the names and puts them in order |
| PhaseOrder.SortedUnique | ai_diplomacy/long_story_short.py:333 | there is only one sorted arrangement of given names |
| PhaseOrder.SortByMembers | ai_diplomacy/long_story_short.py:333 | sorting keeps exactly the names it was given |
| PhaseOrder.MaxBy | ai_diplomacy/long_story_short.py:341 | `max` returns a name of the list that no other name follows (also line 421) |
| PhaseOrder.MaxOfSorted | ai_diplomacy/long_story_short.py:341 | the greatest name of a sorted list is its last |
| Sorting.SortSorted | analyze_game_moments_llm_new.py:629 | Python's sort is stable: a list already in order comes back unchanged |
| Sorting.SortByIdempotent | analyze_game_moments_llm_new.py:725 | sorting a second time by the same key changes nothing |
| Sorting.FilterPermutation | analyze_game_moments_llm_new.py:616-629 | filtering a permutation gives a permutation of the filtered list |
| Json.QuoteStringRoundTrip | ai_diplomacy/agent.py:144 | `repr` of a string in a journal line opens and closes with the chosen quote, and its inside reads back as the string |
| Json.UnescapeEscaped | ai_diplomacy/agent.py:144 | evaluating the escaped text gives the string back, so it holds no bare quote |
| Json.QuotePlain | ai_diplomacy/agent.py:144 | text without quotes, backslashes or control characters is written as it is, in single quotes |
| Json.QuoteApostrophe | ai_diplomacy/agent.py:275 | text holding an apostrophe and no double quote is written as it is, in double quotes |
| RlAnalysis.Strs | analyze_rl_json.py:22 | one `str` per item, in order |
| RlAnalysis.Processed | analyze_rl_json.py:21-28 | a list is joined by line breaks, a string is taken as it is, and any other value yields no text (the extractor then returns no orders) |
| RlAnalysis.StrippedNonEmpty | analyze_rl_json.py:62 | no more lines than given; each kept line is stripped and non-empty |
| RlAnalysis.StrippedKept | analyze_rl_json.py:62 | every line with text left after stripping is kept |
| RlAnalysis.StrippedFrom | analyze_rl_json.py:62 | every kept line is the stripped form of some given line |
| RlAnalysis.Cleaned | analyze_rl_json.py:37-52 | no more orders than items; each is stripped and non-empty |
| RlAnalysis.TopLevel | analyze_rl_json.py:43-56 | a decoded top-level list is taken exactly when it yields some order and every order has fewer than ten words, and then as its cleaned items; an undecodable response yields nothing |
| RlAnalysis.SplitLines | analyze_rl_json.py:62 | `splitlines` gives at least one piece |
| RlAnalysis.LineOrders | analyze_rl_json.py:63-73 | exactly the lines that look like orders, in order |
| RlAnalysis.FilterOrderLines | analyze_rl_json.py:63-73 | the loop keeps exactly the lines the heuristic accepts |
| RlAnalysis.ExtractOrders | analyze_rl_json.py:13-81 | a value that is neither list nor string yields no orders; every order returned is stripped and non-empty |
| RlAnalysis.BlockFirst | analyze_rl_json.py:31-39 | a `PARSABLE OUTPUT:` block that decodes to a list decides the result, even when empty |
| RlAnalysis.TopLevelListHeuristic | analyze_rl_json.py:43-62 | with no block, a top-level list is used when it yields short orders, and otherwise the lines decide |
| RlAnalysis.LineFallback | analyze_rl_json.py:58-81 | when no JSON path yields orders, an order is returned exactly when it is a non-empty stripped line of the response that looks like an order |
| RlAnalysis.PartsOfSpaced | analyze_rl_json.py:183 | an order written as words with single spaces splits back into those words |
| RlAnalysis.ConvoyExample | analyze_rl_json.py:184-185 | "F ENG C A LVP - BEL" counts as a convoy |
| RlAnalysis.SupportExample | analyze_rl_json.py:193-196 | "F ENG S F NTH" counts as a support |
| RlAnalysis.SupportHoldExample | analyze_rl_json.py:197-200 | "F ENG S F NTH H" counts as a support |
| RlAnalysis.SupportMoveExample | analyze_rl_json.py:201-205 | "F ENG S F NTH - BEL" counts as a support |
| RlAnalysis.MoveExample | analyze_rl_json.py:184-205 | a plain move is neither a convoy nor a support |
| RlAnalysis.CountWhere | analyze_rl_json.py:182-210 | no more convoys, or supports, than orders |
| RlAnalysis.CountsBounded | analyze_rl_json.py:182-210 | no order counts as both: convoys and supports together are at most the orders |
| RlAnalysis.CountOrders | analyze_rl_json.py:182-210 | the loop counts exactly the convoys and the supports of the set |
| RlAnalysis.EntryOrders | analyze_rl_json.py:155-179 | only an `order_generation` entry whose success is `True` or "success" in any case, and whose response is present, contributes orders |
| RlAnalysis.TallyBounded | analyze_rl_json.py:154-210 | a model has counters only once a non-empty set of its orders was counted, and its convoys and supports never exceed the orders of its sets (the defaultdict is made at line 114) |
| RlAnalysis.RecordOrderSet | analyze_rl_json.py:178-210 | one non-empty set bumps its model's set count and adds its convoys and supports |
| RlAnalysis.TallyEntries | analyze_rl_json.py:154-210 | the entry loop yields the specified tally |
| RlAnalysis.LooksLikeOrder | analyze_rl_json.py:66-73 | the line heuristic: two to seven words, an `A` or `F` first, and none of the excluded markers; LineOrders characterises the filter |
| RlAnalysis.IsConvoy | analyze_rl_json.py:183-185 | the seven-part convoy shape; ConvoyExample and CountsBounded use it |
| RlAnalysis.IsSupport | analyze_rl_json.py:189-205 | the three support shapes, tested only when the order is not a convoy; the support examples and CountsBounded use it |
| GameMoments.FormatPowerWithModel | analyze_game_moments.py:808-811 | the label starts with the power's name |
| GameMoments.FormatPowerWithModelMeaning | analyze_game_moments.py:808-811 | the label is the bare name exactly when no model, or an empty one, is known; otherwise it is the name, " (", the model and ")" |
| GameMoments.Lowered | analyze_game_moments.py:508 | every order lower-cased, in order |
| GameMoments.FirstFound | analyze_game_moments.py:529-533 | the first pattern that occurs in the orders text, or none when no pattern occurs (also lines 552-556, 578-582, 606-608) |
| GameMoments.FirstFoundMeaning | analyze_game_moments.py:529-533 | no pattern is found exactly when none occurs |
| GameMoments.FirstMentioning | analyze_game_moments.py:560-564 | an order that mentions the unit, the first one, when there is one; "Unknown" otherwise (also lines 588-592, 610-615) |
| GameMoments.FindPattern | analyze_game_moments.py:529-533 | the flag-and-break loop finds the first pattern present |
| GameMoments.FindOrder | analyze_game_moments.py:560-564 | the search loop returns the first order that mentions the unit |
| GameMoments.CheckPromiseAgainstOrders | analyze_game_moments.py:499-637 | the method returns the lie the promise checker specifies |
| GameMoments.MovePromiseChecked | analyze_game_moments.py:539-566 | a move promise is a lie exactly when none of its four spellings occurs; the lie names the sender, the recipient and the phase (also lines 622-635) |
| GameMoments.HoldPromiseChecked | analyze_game_moments.py:568-595 | a hold promise is a lie exactly when none of its four spellings occurs |
| GameMoments.NoAttackPromiseChecked | analyze_game_moments.py:597-620 | a no-attack promise is a lie exactly when one of the attack spellings occurs |
| GameMoments.UncheckedPromisesPass | analyze_game_moments.py:513-620 | a promise with too few details, or of an unchecked kind, is never a lie |
| GameMoments.OrderInText | analyze_game_moments.py:507 | an order that is, in any case, a checked spelling occurs in the lower-cased joined orders |
| GameMoments.MoveKeptByOrder | analyze_game_moments.py:539-566 | the order "A <unit> - <destination>" keeps a move promise |
| GameMoments.HoldKeptByOrder | analyze_game_moments.py:568-595 | the order "F <unit> H" keeps a hold promise |
| GameMoments.SupportKeptByOrder | analyze_game_moments.py:514-537 | the order "<unit> S <from> - <target>" keeps a support promise |
| GameMoments.NoAttackBrokenByOrder | analyze_game_moments.py:597-620 | any order moving into the target breaks a no-attack promise, and the lie quotes an order with the first attack spelling |
| GameMoments.SummaryEnd | analyze_game_moments.py:690-692 | the summary ends within the diary, at or after its start |
| GameMoments.IntentionalIndicators | analyze_game_moments.py:641-658 | an empty diary shows no intent; any deception indicator, in any case, shows intent |
| GameMoments.IntentionalIgnoresCase | analyze_game_moments.py:645 | the judgement does not depend on the diary's case |
| GameMoments.SummaryRunsToEnd | analyze_game_moments.py:689-700 | corrected: with no "intent:" after it, the summary runs to the end of the diary, and a promise the summary records is never contradicted by it |
| GameMoments.ExampleDiaryHonest | analyze_game_moments.py:647-658 | the example diary contains no deception indicator |
| GameMoments.ExampleDiaryQuiet | analyze_game_moments.py:665-686 | the example diary states no contradicting plan and no deceit about the promise's details (also lines 705-711) |
| GameMoments.ExampleSummaryFound | analyze_game_moments.py:689-692 | the example's summary starts the diary and no "intent:" follows |
| GameMoments.ExampleSectionAsWritten | analyze_game_moments.py:692-700 | the summary cut one character short still says "agreed" but no longer holds the whole promise |
| GameMoments.SummarySliceDropsLastCharacter | analyze_game_moments.py:689-700 | as written, a diary whose summary records the agreement the promise came from is taken as deliberate deception; the corrected reading is not |
| GameMoments.Relevant | analyze_game_moments.py:721-727 | the stripped sentences that mention a word of the promise, no more than there are sentences, and some exactly when any sentence does |
| GameMoments.ChosenSentences | analyze_game_moments.py:729-730 | at most two sentences are quoted |
| GameMoments.DiaryExcerpt | analyze_game_moments.py:715-733 | "No diary entry" for no diary; the first two relevant sentences joined by ". " when there are any; otherwise the first hundred characters, with "..." when cut |
| GameMoments.SplitPieceInText | analyze_game_moments.py:721 | every piece of the split occurs in the text |
| GameMoments.ChosenFromDiary | analyze_game_moments.py:721-730 | every quoted sentence is a stretch of the diary: a stripped sentence of it that mentions a word of the promise |
| GameMoments.ExcerptFallback | analyze_game_moments.py:731-733 | with no relevant sentence, the excerpt is the diary's start |
| GameMoments.ExcerptQuotes | analyze_game_moments.py:729-730 | with a relevant sentence, the excerpt quotes the chosen sentences |
| GameMoments.BumpAsLoop | analyze_game_moments.py:795-801 | the loop body, which first adds a zeroed row for a new model, is one bump of the tally |
| GameMoments.TallyKeys | analyze_game_moments.py:792-801 | the tally has a row exactly for the models it started with and those a lie is attributed to ("Unknown" for a power without a model) |
| GameMoments.TallyCounts | analyze_game_moments.py:792-801 | each row grows by the number of that model's intentional, and unintentional, lies |
| GameMoments.AttributedSplit | analyze_game_moments.py:797-801 | every lie is either intentional or not |
| GameMoments.TallyTotals | analyze_game_moments.py:792-801 | from an empty tally, a model's two counts add up to the lies attributed to it |
| GameMoments.CountLiesByModel | analyze_game_moments.py:792-801 | the loop yields the specified tally |
| GameMoments.GameAnalyzer.constructor | analyze_game_moments.py:65-78 | no lies and an empty tally at the start |
| GameMoments.GameAnalyzer.RecordLies | analyze_game_moments.py:787-790 | the lies of each phase are appended in phase order; nothing else changes |
| GameMoments.GameAnalyzer.CountLies | analyze_game_moments.py:792-801 | the tally becomes the specified one over the recorded lies; the lies do not change |
| GameMoments.ActualAction | analyze_game_moments.py:513-620 | the reference for the promise checks: an action text exactly when the promise is broken; MovePromiseChecked, HoldPromiseChecked, NoAttackPromiseChecked and UncheckedPromisesPass characterise it |
| GameMoments.LieFor | analyze_game_moments.py:622-637 | a lie exactly when ActualAction reports a broken promise, carrying the phase, liar, recipient, the promise with its context, the diary excerpt, the action, and the explanation that matches its intent flag; intent is judged by the corrected IsLieIntentional |
| GameMoments.IntentionalBy | analyze_game_moments.py:639-713 | `check_if_lie_intentional`, with a flag choosing the as-written or the corrected end of the negotiation summary; IntentionalIndicators and IntentionalIgnoresCase hold in both readings |
| GameMoments.IsLieIntentionalAsWritten | analyze_game_moments.py:689-694 | the as-written reading: the summary is cut at the -1 of `find`; SummarySliceDropsLastCharacter shows the example lie judged intentional |
| GameMoments.IsLieIntentional | analyze_game_moments.py:689-694 | the corrected reading: with no "intent:" the summary runs to the end of the diary; SummaryRunsToEnd shows that a promise the summary records is never contradicted by it |
| GameMomentsLlm.ScoreThenPhaseStrict | analyze_game_moments_llm_new.py:621-625 | the key `(interest_score, phase_sort_key(phase))`, descending, is a strict order |
| GameMomentsLlm.ByScoreStrict | analyze_game_moments_llm_new.py:629 | ordering by descending score is a strict order (also line 725) |
| GameMomentsLlm.GroupByCategory | analyze_game_moments_llm_new.py:602-613 | the loop gives each of the five categories, and no other, its moments in input order |
| GameMomentsLlm.FilterTopMoments | analyze_game_moments_llm_new.py:600-631 | the method returns the moments the selection specification keeps |
| GameMomentsLlm.CategoryTopMembers | analyze_game_moments_llm_new.py:617-627 | a category keeps only its own moments from the input |
| GameMomentsLlm.KeptMembers | analyze_game_moments_llm_new.py:616-627 | the survivors come from the input and from a category visited |
| GameMomentsLlm.CategoriesDistinct | analyze_game_moments_llm_new.py:603-609 | the five categories are distinct |
| GameMomentsLlm.CategoryTopOfCategory | analyze_game_moments_llm_new.py:617-627 | a category's survivors hold nothing of another category |
| GameMomentsLlm.KeptOfCategory | analyze_game_moments_llm_new.py:616-627 | the survivors of a category are the ones its own visit kept, or none when it is not visited |
| GameMomentsLlm.TopMomentsFromInput | analyze_game_moments_llm_new.py:600-631 | the result holds moments of the input of known categories only, highest score first |
| GameMomentsLlm.TopMomentsPerCategory | analyze_game_moments_llm_new.py:600-631 | for a known category, the result holds exactly that category's kept moments; of any other category, nothing |
| GameMomentsLlm.TopMomentsCap | analyze_game_moments_llm_new.py:627 | a category contributes the smaller of `max_per_category` and its number of moments |
| GameMomentsLlm.CategoryTopIsBest | analyze_game_moments_llm_new.py:619-627 | the kept moments are a prefix of the category sorted by score and phase, and none kept scores below one dropped |
| GameMomentsLlm.QuickScan | analyze_game_moments_llm_new.py:369-415 | the score is capped at ten points; a phase without messages or orders scores nothing; otherwise the score is the sum of the keyword, supply-centre, message-volume and year points when that stays under the cap |
| GameMomentsLlm.QuickScanPhase | analyze_game_moments_llm_new.py:369-415 | the method computes that score, with its keyword loop |
| GameMomentsLlm.KeywordPointsCount | analyze_game_moments_llm_new.py:392-394 | each distinct keyword found is worth two points |
| GameMomentsLlm.SummaryKeywords | analyze_game_moments_llm_new.py:383-394 | the nine keywords are distinct, so each the summary names adds two points |
| GameMomentsLlm.KeywordPointsExtended | analyze_game_moments_llm_new.py:392-394 | more summary text never loses a keyword |
| GameMomentsLlm.QuickScanGrowsWithSummary | analyze_game_moments_llm_new.py:369-415 | more summary text never lowers a phase's score |
| GameMomentsLlm.QuickScanGrowsWithMessages | analyze_game_moments_llm_new.py:369-415 | more messages never lower a phase's score |
| GameMomentsLlm.NoKeywordsInEmpty | analyze_game_moments_llm_new.py:392-394 | an empty summary names no keyword |
| GameMomentsLlm.QuickScanYears | analyze_game_moments_llm_new.py:406-412 | a quiet 1901 phase with one message scores one point; a quiet 1921 phase with orders scores two |
| GameMomentsLlm.ImpactfulOfAll | analyze_game_moments_llm_new.py:701-707 | keeping the lies with impact phase by phase keeps those of all phases, in order |
| GameMomentsLlm.EarlierPhaseStrict | analyze_game_moments_llm_new.py:710 | ordering lies by the phase key alone is a strict order |
| GameMomentsLlm.EarliestLiesMeaning | analyze_game_moments_llm_new.py:710-711 | at most ten lies are kept, fewer only when there were fewer; all are lies of the input, in phase order |
| GameMomentsLlm.EarliestLiesFirst | analyze_game_moments_llm_new.py:710-711 | the kept lies are the first of the sorted list, and no dropped lie is from an earlier phase than a kept one |
| GameMomentsLlm.FindWinner | analyze_game_moments_llm_new.py:774-783 | the loop returns the winner the specification names |
| GameMomentsLlm.FirstNamedMeaning | analyze_game_moments_llm_new.py:780-783 | the power returned is the first in the list that the summary names; none when it names none |
| GameMomentsLlm.WinnerMeaning | analyze_game_moments_llm_new.py:774-783 | a winner exists exactly when the final summary claims a victory and names a power, and it is the first of the seven it names |
| GameMomentsLlm.GameAnalyzer.constructor | analyze_game_moments_llm_new.py:68-81 | no moments, no lies and an empty tally at the start |
| GameMomentsLlm.GameAnalyzer.RecordImpactfulLies | analyze_game_moments_llm_new.py:701-707 | the impactful lies of each phase are appended in order; nothing else changes |
| GameMomentsLlm.GameAnalyzer.KeepTopMoments | analyze_game_moments_llm_new.py:697 | the moments become the top five per category |
| GameMomentsLlm.GameAnalyzer.KeepEarliestLies | analyze_game_moments_llm_new.py:710-711 | the lies become the ten earliest |
| GameMomentsLlm.GameAnalyzer.CountLies | analyze_game_moments_llm_new.py:713-722 | the tally becomes the specified one over the kept lies |
| GameMomentsLlm.GameAnalyzer.SortMoments | analyze_game_moments_llm_new.py:725 | the moments are stably sorted by descending score |
| GameMomentsLlm.GameAnalyzer.FinishAnalysis | analyze_game_moments_llm_new.py:697-725 | the end of the analysis leaves the top moments, the ten earliest impactful lies, and their tally; the final re-sort changes nothing |
| GameMomentsLlm.TopMoments | analyze_game_moments_llm_new.py:600-631 | the reference for `filter_top_moments`; TopMomentsPerCategory, TopMomentsCap and CategoryTopIsBest characterise it |
| GameMomentsLlm.Winner | analyze_game_moments_llm_new.py:774-783 | the winner read from the final summary; WinnerMeaning characterises it |
| GameMomentsLlm.ScanPoints | analyze_game_moments_llm_new.py:369-415 | the uncapped points of `quick_scan_phase`; QuickScan states the cap and the parts |
| GameMomentsLlm.EarliestLies | analyze_game_moments_llm_new.py:710-711 | the ten earliest lies by phase key; EarliestLiesMeaning and EarliestLiesFirst characterise it |

## Left out

- The providers' `generate_response` methods (ai_diplomacy/clients.py:617-805) are network calls. A reply is a string parameter, and an error is the empty string.
- Prompt building (`build_context_prompt`, `build_prompt`, `build_conversation_prompt`, `load_prompt`, `set_system_prompt`) is template-file I/O and formatting over the engine. It is not modelled.
- lm_game.py and planning.py are outside the model: they cover thread-pool fan-out, file output and engine mutation. Only the `model_error_stats` table of lm_game.py is modelled, as `ErrorStats.Stats`.
- Negotiations.ConductNegotiations: with `max_workers=1` a round is a sequential loop. The `as_completed` ordering and the thread pool are not modelled.
- Negotiations.ConductNegotiations: each agent's journal, the engine and the history are fields of one value. The model does not capture updating the agent objects in place or their aliasing.
- Negotiations.TurnsRequests: a reply that raises leaves the rest of that round's requests running, since they were all submitted before any result is read and the pool's shutdown waits for them (ai_diplomacy/negotiations.py:46-73). The model's request log stops at the raising reply; the same holds for Negotiations.RoundsRequests and Negotiations.RequestsMade.
- Utils.OfCategory: orders are filed by the corrected hold test `Utils.Classify` (an order ending in `" H"`), not by the `" H" in order` of ai_diplomacy/utils.py:314-315. A move such as `A BEL - HOL` into an unowned Holland is OFFENSIVE here and DEFENSIVE in the source; `Utils.ClassifyAsWritten` and `Utils.HoldTestMisfiles` give the source's filing.
- Utils.Untyped: orders are filed by the corrected hold test `Utils.Classify` (an order ending in `" H"`), not by the `" H" in order` of ai_diplomacy/utils.py:314-315. A move such as `A BEL - HOL` into an unowned Holland is OFFENSIVE here and DEFENSIVE in the source; `Utils.ClassifyAsWritten` and `Utils.HoldTestMisfiles` give the source's filing.
- Utils.Sorted: orders are filed by the corrected hold test `Utils.Classify` (an order ending in `" H"`), not by the `" H" in order` of ai_diplomacy/utils.py:314-315. A move such as `A BEL - HOL` into an unowned Holland is OFFENSIVE here and DEFENSIVE in the source; `Utils.ClassifyAsWritten` and `Utils.HoldTestMisfiles` give the source's filing.
- Utils.SortedStep: orders are filed by the corrected hold test `Utils.Classify` (an order ending in `" H"`), not by the `" H" in order` of ai_diplomacy/utils.py:314-315. A move such as `A BEL - HOL` into an unowned Holland is OFFENSIVE here and DEFENSIVE in the source; `Utils.ClassifyAsWritten` and `Utils.HoldTestMisfiles` give the source's filing.
- Utils.SortedPartition: orders are filed by the corrected hold test `Utils.Classify` (an order ending in `" H"`), not by the `" H" in order` of ai_diplomacy/utils.py:314-315. A move such as `A BEL - HOL` into an unowned Holland is OFFENSIVE here and DEFENSIVE in the source; `Utils.ClassifyAsWritten` and `Utils.HoldTestMisfiles` give the source's filing.
- Utils.FileOrders: orders are filed by the corrected hold test `Utils.Classify` (an order ending in `" H"`), not by the `" H" in order` of ai_diplomacy/utils.py:314-315. A move such as `A BEL - HOL` into an unowned Holland is OFFENSIVE here and DEFENSIVE in the source; `Utils.ClassifyAsWritten` and `Utils.HoldTestMisfiles` give the source's filing.
- Utils.SortPossibleOrders: orders are filed by the corrected hold test `Utils.Classify` (an order ending in `" H"`), not by the `" H" in order` of ai_diplomacy/utils.py:314-315. A move such as `A BEL - HOL` into an unowned Holland is OFFENSIVE here and DEFENSIVE in the source; `Utils.ClassifyAsWritten` and `Utils.HoldTestMisfiles` give the source's filing.
- Negotiations.DeliverOne: each journal line goes to the sender's own agent, the corrected routing. ai_diplomacy/negotiations.py:107 writes every line to the agent last bound at line 51, the last active power with an agent; `Negotiations.JournalHolder` and `Negotiations.JournalAsWritten` give the source's routing.
- Negotiations.Deliver: each journal line goes to the sender's own agent, the corrected routing. ai_diplomacy/negotiations.py:107 writes every line to the agent last bound at line 51, the last active power with an agent; `Negotiations.JournalHolder` and `Negotiations.JournalAsWritten` give the source's routing.
- Negotiations.Journals: each journal line goes to the sender's own agent, the corrected routing. ai_diplomacy/negotiations.py:107 writes every line to the agent last bound at line 51, the last active power with an agent; `Negotiations.JournalHolder` and `Negotiations.JournalAsWritten` give the source's routing.
- Negotiations.Expected: each journal line goes to the sender's own agent, the corrected routing. ai_diplomacy/negotiations.py:107 writes every line to the agent last bound at line 51, the last active power with an agent; `Negotiations.JournalHolder` and `Negotiations.JournalAsWritten` give the source's routing.
- Negotiations.JournalForTurn: each journal line goes to the sender's own agent, the corrected routing. ai_diplomacy/negotiations.py:107 writes every line to the agent last bound at line 51, the last active power with an agent; `Negotiations.JournalHolder` and `Negotiations.JournalAsWritten` give the source's routing.
- Negotiations.DeliveredIs: each journal line goes to the sender's own agent, the corrected routing. ai_diplomacy/negotiations.py:107 writes every line to the agent last bound at line 51, the last active power with an agent; `Negotiations.JournalHolder` and `Negotiations.JournalAsWritten` give the source's routing.
- Negotiations.DeliveredFields: each journal line goes to the sender's own agent, the corrected routing. ai_diplomacy/negotiations.py:107 writes every line to the agent last bound at line 51, the last active power with an agent; `Negotiations.JournalHolder` and `Negotiations.JournalAsWritten` give the source's routing.
- Negotiations.JournalsAfterReply: each journal line goes to the sender's own agent, the corrected routing. ai_diplomacy/negotiations.py:107 writes every line to the agent last bound at line 51, the last active power with an agent; `Negotiations.JournalHolder` and `Negotiations.JournalAsWritten` give the source's routing.
- Negotiations.ExpectedAfterReply: each journal line goes to the sender's own agent, the corrected routing. ai_diplomacy/negotiations.py:107 writes every line to the agent last bound at line 51, the last active power with an agent; `Negotiations.JournalHolder` and `Negotiations.JournalAsWritten` give the source's routing.
- Negotiations.TurnExpected: each journal line goes to the sender's own agent, the corrected routing. ai_diplomacy/negotiations.py:107 writes every line to the agent last bound at line 51, the last active power with an agent; `Negotiations.JournalHolder` and `Negotiations.JournalAsWritten` give the source's routing.
- Negotiations.TakeTurn: each journal line goes to the sender's own agent, the corrected routing. ai_diplomacy/negotiations.py:107 writes every line to the agent last bound at line 51, the last active power with an agent; `Negotiations.JournalHolder` and `Negotiations.JournalAsWritten` give the source's routing.
- Negotiations.RunRound: each journal line goes to the sender's own agent, the corrected routing. ai_diplomacy/negotiations.py:107 writes every line to the agent last bound at line 51, the last active power with an agent; `Negotiations.JournalHolder` and `Negotiations.JournalAsWritten` give the source's routing.
- Negotiations.NegotiationWorld: each journal line goes to the sender's own agent, the corrected routing. ai_diplomacy/negotiations.py:107 writes every line to the agent last bound at line 51, the last active power with an agent; `Negotiations.JournalHolder` and `Negotiations.JournalAsWritten` give the source's routing.
- Negotiations.ConductNegotiations: each journal line goes to the sender's own agent, the corrected routing. ai_diplomacy/negotiations.py:107 writes every line to the agent last bound at line 51, the last active power with an agent; `Negotiations.JournalHolder` and `Negotiations.JournalAsWritten` give the source's routing.
- LongStoryShort.ContextManager.SummarizePhaseHistory: the plan runs under the chronological phase order. ai_diplomacy/long_story_short.py:333, 341 and 421 sort and take the maximum of the phase names as strings, which the method would do if given `Lexicographic`; `LongStoryShort.LexicographicPlanSummarizesLatest` shows the source summarising F1902M where the method keeps it.
- GameMoments.LieFor: intent is judged by the corrected `GameMoments.IsLieIntentional`, with the negotiation summary running to the end of the diary. analyze_game_moments.py:691-692 cuts the summary one character short when no "intent:" follows; `GameMoments.IsLieIntentionalAsWritten` gives the source's judgement, and `GameMoments.SummarySliceDropsLastCharacter` shows a lie it calls intentional that the model does not.
- GameMoments.CheckPromiseAgainstOrders: intent is judged by the corrected `GameMoments.IsLieIntentional`, with the negotiation summary running to the end of the diary. analyze_game_moments.py:691-692 cuts the summary one character short when no "intent:" follows; `GameMoments.IsLieIntentionalAsWritten` gives the source's judgement, and `GameMoments.SummarySliceDropsLastCharacter` shows a lie it calls intentional that the model does not.
- Json.QuoteString: `repr` escapes characters as Python does up to U+00FF. Characters above U+00FF that Python does not think printable, such as U+2028, are written as themselves instead of as `\u` or `\U` escapes.
- Json.Value: floats are not modelled. A decoded reply holding a float has no counterpart, so its goals and relationship values cannot contain one.
- Agent.DiplomacyAgent.AddJournalEntry: the journal text renders goals and relationship tables with `Json.Repr`. It matches Python's `str` except for the two limits of Json.QuoteString and Json.Value above.
- Agent.DiplomacyAgent.UpdateGoals: the journal text renders goals and relationship tables with `Json.Repr`. It matches Python's `str` except for the two limits of Json.QuoteString and Json.Value above.
- Agent.DiplomacyAgent.InitializeAgentState: the journal text renders goals and relationship tables with `Json.Repr`. It matches Python's `str` except for the two limits of Json.QuoteString and Json.Value above.
- Agent.DiplomacyAgent.AnalyzePhaseAndUpdateState: the journal text renders goals and relationship tables with `Json.Repr`. It matches Python's `str` except for the two limits of Json.QuoteString and Json.Value above.
- RlAnalysis.TallyEntries: an entry whose "model" is JSON null is tallied under "UNKNOWN_MODEL". Python's `entry.get('model', 'UNKNOWN_MODEL')` at analyze_rl_json.py:161 gives `None`, a key of its own, there (also RlAnalysis.TallyBounded).
- MapGraph.DiplomacyGraph.Edges: the contract gives each unordered pair once, with its first direction's unit types, but not the order in which the pairs are listed. Nothing else in the model depends on that order.
- Clients and Agent methods that call a client pass it arguments `get_conversation_reply` does not accept, and `set_system_prompt` is not defined on the base client. The model is at the call's boundary: the reply is a parameter.
- The game engine is a parameter: order validity, orderable locations and the current phase name. `build_diplomacy_graph` (ai_diplomacy/map_utils.py:188-264) depends on the engine's map, and `MapGraph` starts from an empty graph built by `add_node`/`add_edge`.
- Regular expressions are not interpreted. Each search is a parameter that returns its capture. `json.loads` and `ast.literal_eval` are parameters that return a decoded value or nothing.
- `format_location_with_expansion`, `format_convoy_paths`, `generate_threat_assessment` and the description strings of `generate_order_description` in ai_diplomacy/utils.py are left out: they are presentation over engine objects. Only the classification and the counts are modelled.
- `get_agent_state_summary`, `generate_plan` and the logging in ai_diplomacy/agent.py are left out: they are formatting and model calls.
- `analyze_game_state` in ai_diplomacy/cicero_agent_enhanced.py is left out: it draws its scores with `random.uniform`. The model picks an order as a nondeterministic choice among the legal ones, and `random.choice` in `assign_models_to_powers` is the same kind of choice.
- `count_tokens` of long_story_short.py uses only the `len // 4` fallback; tiktoken is not modelled. `time.time()` and the summaries the model writes are parameters.
- LongStoryShort.MessageSplitReassembles: the timestamp sections of `summarize_message_history` (ai_diplomacy/long_story_short.py:515-579) come in as a parameter. Only the line fallback, the character default and the choice among them are modelled.
- `get_optimized_phase_summaries`, `get_optimized_message_history` and the module-level wrappers of long_story_short.py are not modelled. They are configuration and fallbacks around the summarising calls.
- `ConversationHistory.add_messages` (ai_diplomacy/conversation_history.py:35-39) is not modelled: it reads an undefined `self.data` and always raises.
- ai_animation/src/components/twoPowerConversation.ts (the browser UI), ai_diplomacy/cicero_client.py and cicero_bridge.py (subprocess bridges) and ai_diplomacy/test_recursive_summarization.py are not part of this model.
- In the analysers, the following are not modelled: the async batching, CSV and pandas parsing, and report writing; the model calls of `analyze_turn` and `generate_narrative`; the regex promise table of `extract_promises_from_message`; and `detect_lies_in_phase`. Lies enter `GameAnalyzer` as given lists per phase.
- The moments of analyze_game_moments.py come from model calls. Their final sort by score (analyze_game_moments.py:804) is modelled only for the other analyser (`GameMomentsLlm.GameAnalyzer.SortMoments`).
- The `score >= 8` and `[:5]` selections of `generate_narrative` only feed a prompt. They are not modelled.
- GameMomentsLlm.EarliestLiesMeaning: the source's comment speaks of the "top 10 most impactful" lies, but the code keeps the ten earliest by phase key. The model follows the code.
- A moment's `raw_messages` and `diary_context` are omitted: they only feed the report. `interest_score` is a real number, so the model has no NaN.
- `check_if_lie_intentional` takes `actual_action` but never reads it. The model drops that parameter.
- Clients.Deduplicate: `list(set(...))` leaves the order of the distinct messages to Python's hashing. The contract states only the members and that none is repeated.
- MapGraph.BfsShortestPath: the contract states that the path is a simple walk over allowed edges from the start, that its last node matches, and that no walk reaches a match when none is found. It does not state that the path is a shortest one.
- `str.upper`, `str.lower` and `str.isdigit` are modelled on ASCII. `int()` accepts ASCII digits only, not other Unicode digits.
- Error counters are keyed by model name in clients.py and by power name in utils.py and negotiations.py. The key is a parameter of every member that bumps a counter, so both uses are covered.

## Findings

| source | as written | input that shows it | evidently intended | confidence | as-written member | corrected member |
|---|---|---|---|---|---|---|
| ai_diplomacy/utils.py:314-315 | an order is DEFENSIVE when it contains `" H"` anywhere | `A BEL - HOL` with Holland not owned: the move's destination contains `" H"`, so it is filed DEFENSIVE | a hold is an order ending in `" H"`, so the move is OFFENSIVE | not executed | Utils.HoldTestMisfiles | Utils.Classify |
| ai_diplomacy/negotiations.py:107 | the journal line of a sent message goes to `agent`, the variable last assigned in the submission loop at line 51 | AUSTRIA and ENGLAND active with agents; AUSTRIA replies with one message "hi", ENGLAND with none: the line about AUSTRIA's message lands in ENGLAND's journal | each power's own agent records the messages it sent | not executed | Negotiations.JournalMisrouted | Negotiations.JournalOfSender |
| ai_diplomacy/long_story_short.py:333-341 | phases are sorted as strings, which groups them by season letter, while the code's comments ask for chronological order and for the most recent phase to stay intact | S1901M, F1901M, W1901A, S1902M, F1902M with nothing summarised: F1902M, the latest phase, is summarised, and W1901A is taken for the most recent | phases sorted by year, then season, so that the latest phase is kept | not executed | LongStoryShort.LexicographicPlanSummarizesLatest | LongStoryShort.ChronologicalPlanKeepsLatest |
| analyze_game_moments.py:691-694 | the negotiation summary ends at `find('intent:', start)`, and the -1 it returns when no "intent:" follows cuts the diary's last character | the diary `negotiation_summary agreed a ven s a mun - ruh` against the support promise `a ven s a mun - ruh` made in an agreement: the cut summary no longer contains the promise, so the lie is judged intentional | the summary runs to the end of the diary when no "intent:" follows | not executed | GameMoments.SummarySliceDropsLastCharacter | GameMoments.SummaryRunsToEnd |
