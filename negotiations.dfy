/**
 * `conduct_negotiations` (ai_diplomacy/negotiations.py): `max_rounds` rounds in
 * which every active power with an agent and something to order is asked for a
 * reply, and every message of a reply is sent to the engine, recorded in the game
 * history and journalled. The thread pool has one worker, so a round is a
 * sequential loop; each reply is an oracle input indexed by round and power.
 *
 * The journal entry goes to the sender's agent. The source writes it through the
 * variable `agent` left over from the submission loop (see `JournalHolder`).
 */
module Negotiations {
  import opened Wrappers
  import opened Text
  import opened ODict
  import opened Seqs
  import opened Powers
  import opened History
  import ErrorStats
  import Clients

  /** A message dict as `get_conversation_reply` returns it. */
  type Reply = Dict<string>

  /** What is fixed during the negotiation: the powers of the game (eliminated ones too),
      the current short phase and the reply each request gets (or its exception). */
  datatype Table = Table(gamePowers: set<string>, phase: string, replies: (nat, string) -> Outcome<seq<Reply>>)

  // ---------------------------------------------------------------------
  // One message

  /** The recipient the engine message is sent to. */
  function Recipient(m: Reply, gamePowers: set<string>): (r: string)
    ensures r in gamePowers || r == GLOBAL
  {
    if Get(m, "message_type") == Some("private") then
      var rcp := GetOr(m, "recipient", GLOBAL);
      if rcp !in gamePowers && rcp != GLOBAL then GLOBAL else rcp
    else GLOBAL
  }

  /** `message.get("content", "")`. */
  function Content(m: Reply): string
  {
    GetOr(m, "content", "")
  }

  /** The journal line of a sent message: the recipient (or "globally"), the phase and the
      first 100 characters of the content. */
  function JournalEntry(recipient: string, phase: string, content: string): string
  {
    "Sent message " + (if recipient != GLOBAL then "to " + recipient else "globally")
    + " in " + phase + ": " + Take(content, 100) + "..."
  }

  /** A private message keeps a recipient that is a power of the game or `GLOBAL`; any
      other recipient, and every message that is not private, goes to `GLOBAL`. */
  lemma RecipientRules(m: Reply, gamePowers: set<string>)
    ensures Get(m, "message_type") != Some("private") ==> Recipient(m, gamePowers) == GLOBAL
    ensures Get(m, "message_type") == Some("private") && !HasKey(m, "recipient") ==> Recipient(m, gamePowers) == GLOBAL
    ensures Get(m, "message_type") == Some("private") && Get(m, "recipient") == Some(GLOBAL) ==> Recipient(m, gamePowers) == GLOBAL
    ensures Get(m, "message_type") == Some("private") && HasKey(m, "recipient") ==>
      var rcp := Get(m, "recipient").value;
      (Recipient(m, gamePowers) == rcp <==> rcp in gamePowers || rcp == GLOBAL)
  {
  }

  /** The dict `get_conversation_reply` builds for a record: sender, recipient and content. */
  function AsReply(r: Clients.Record): Reply
  {
    [("sender", r.sender), ("recipient", r.recipient), ("content", r.content)]
  }

  /** Those dicts carry no `message_type`, so every message the client returns is sent to
      `GLOBAL`, whatever its recipient, and its content is the record's. */
  lemma ClientRepliesGoGlobal(r: Clients.Record, gamePowers: set<string>)
    ensures Recipient(AsReply(r), gamePowers) == GLOBAL
    ensures Content(AsReply(r)) == r.content
  {
    var m := AsReply(r);
    assert Keys(m) == ["sender", "recipient", "content"];
    assert "message_type" !in Keys(m) by {
      assert "message_type"[0] == 'm' && "sender"[0] == 's' && "recipient"[0] == 'r' && "content"[0] == 'c';
    }
    assert Get(m, "content") == Some(r.content) by {
      assert "content"[0] == 'c' && "sender"[0] == 's' && "recipient"[0] == 'r';
    }
  }

  // ---------------------------------------------------------------------
  // What the negotiation does, as a value

  /** Everything the negotiation has done so far: the reply requests made (round, power),
      the non-empty replies (with the power that gave each), the powers whose reply was
      empty (one per empty reply) and whether a reply raised. */
  datatype Effects = Effects(
    requests: seq<(nat, string)>,
    answered: seq<(string, seq<Reply>)>,
    failures: seq<string>,
    raised: bool)

  const Start := Effects([], [], [], false)

  /** What the negotiation changes: the messages given to the engine (`game.add_message`),
      the game history's phases, the error table (`model_error_stats`) and the private
      journal of each agent, keyed by its power; the keys of `journals` are those of
      `agents`. */
  datatype World = World(
    engine: seq<Message>,
    phases: seq<PhaseView>,
    counts: map<string, ErrorStats.Counters>,
    journals: map<string, seq<string>>)

  /** The negotiation part way through: what it has done and the world it has left. */
  datatype State = State(effects: Effects, world: World)

  /** The powers asked in each round, in the order of `active_powers`: those with an agent
      and at least one orderable location. */
  function Submitted(active: seq<string>, agents: set<string>, orderable: string -> bool): (r: seq<string>)
    ensures forall p :: p in r <==> p in active && p in agents && orderable(p)
    ensures IsSubsequence(r, active)
  {
    if active == [] then []
    else
      var p := active[|active| - 1];
      var r := Submitted(active[..|active| - 1], agents, orderable);
      if p in agents && orderable(p) then r + [p] else r
  }

  /** The engine messages for the dicts of one reply from `p`, in order. */
  function Sends(p: string, ms: seq<Reply>, gamePowers: set<string>): (r: seq<Message>)
    ensures |r| == |ms| && forall i | 0 <= i < |r| :: r[i].sender == p
  {
    if ms == [] then [] else Sends(p, ms[..|ms| - 1], gamePowers) + [ToMessage(p, ms[|ms| - 1], gamePowers)]
  }

  /** The engine message for one dict of a reply from `p`. */
  function ToMessage(p: string, m: Reply, gamePowers: set<string>): (r: Message)
    ensures r.sender == p
  {
    Message(p, Recipient(m, gamePowers), Content(m))
  }

  /** The journal line of a sent message. */
  function Line(m: Message, phase: string): string
  {
    JournalEntry(m.recipient, phase, m.content)
  }

  /** The lines of a run of messages, in order. */
  function Lines(ms: seq<Message>, phase: string): (r: seq<string>)
    ensures |r| == |ms|
  {
    seq(|ms|, i requires 0 <= i < |ms| => Line(ms[i], phase))
  }

  /** The phases after `game_history.add_message` for every message of `ms`. */
  function AppendAll(vs: seq<PhaseView>, phase: string, ms: seq<Message>): seq<PhaseView>
  {
    if ms == [] then vs else AppendMessage(AppendAll(vs, phase, ms[..|ms| - 1]), phase, ms[|ms| - 1])
  }

  /** The world after the messages `ms` of `p` are delivered one by one. */
  function Delivered(w: World, p: string, ms: seq<Message>, phase: string): World
  {
    if ms == [] then w else DeliverOne(Delivered(w, p, ms[..|ms| - 1], phase), p, ms[|ms| - 1], phase)
  }

  /** The world after one message `m` of `p`: given to the engine, added to the history
      and journalled for `p`'s agent. */
  function DeliverOne(w: World, p: string, m: Message, phase: string): World
  {
    w.(engine := w.engine + [m], phases := AppendMessage(w.phases, phase, m),
       journals := if p in w.journals then w.journals[p := w.journals[p] + [Line(m, phase)]] else w.journals)
  }

  /** The world after one more conversation error for `p`. */
  function Failed(w: World, p: string): World
  {
    w.(counts := w.counts[p := ErrorStats.Bumped(ErrorStats.CountersOf(w.counts, p), ErrorStats.ConversationError)])
  }

  /** One power's turn in round `r`: the request is made; an exception ends the
      negotiation, an empty reply is one conversation error, any other reply is sent. */
  function Turn(s: State, r: nat, p: string, t: Table): State
  {
    State(TurnEffects(s.effects, r, p, t), TurnWorld(s, r, p, t))
  }

  /** What a turn does, as effects. */
  function TurnEffects(e: Effects, r: nat, p: string, t: Table): Effects
  {
    if e.raised then e
    else
      var e1 := e.(requests := e.requests + [(r, p)]);
      match t.replies(r, p)
      case Raised => e1.(raised := true)
      case Returned(ms) =>
        if ms == [] then e1.(failures := e1.failures + [p])
        else e1.(answered := e1.answered + [(p, ms)])
  }

  /** What a turn does to the world. */
  function TurnWorld(s: State, r: nat, p: string, t: Table): World
  {
    if s.effects.raised then s.world
    else
      match t.replies(r, p)
      case Raised => s.world
      case Returned(ms) =>
        if ms == [] then Failed(s.world, p)
        else Delivered(s.world, p, Sends(p, ms, t.gamePowers), t.phase)
  }

  /** The first `k` turns of round `r`. */
  function Turns(s: State, r: nat, sub: seq<string>, k: nat, t: Table): State
    requires k <= |sub|
  {
    if k == 0 then s else Turn(Turns(s, r, sub, k - 1, t), r, sub[k - 1], t)
  }

  /** The first `n` rounds, from the world `w0`. */
  function Rounds(n: nat, sub: seq<string>, w0: World, t: Table): State
  {
    if n == 0 then State(Start, w0) else Turns(Rounds(n - 1, sub, w0, t), n - 1, sub, |sub|, t)
  }

  /** `range(max_rounds)`: no round for a negative count. */
  function RoundCount(maxRounds: int): nat
  {
    if maxRounds < 0 then 0 else maxRounds
  }

  /** The negotiation as a whole. */
  function Negotiation(active: seq<string>, agents: set<string>, orderable: string -> bool, maxRounds: int,
                       w0: World, t: Table): State
  {
    Rounds(RoundCount(maxRounds), Submitted(active, agents, orderable), w0, t)
  }

  /** The messages sent for a run of replies, in order. */
  function SentOf(answered: seq<(string, seq<Reply>)>, gamePowers: set<string>): seq<Message>
  {
    if answered == [] then []
    else
      var x := answered[|answered| - 1];
      SentOf(answered[..|answered| - 1], gamePowers) + Sends(x.0, x.1, gamePowers)
  }

  /** The messages sent so far. */
  function Sent(e: Effects, t: Table): seq<Message>
  {
    SentOf(e.answered, t.gamePowers)
  }

  /** One more reply, from `p`, sends its messages after the earlier ones. */
  lemma SentAfterReply(e: Effects, p: string, ms: seq<Reply>, t: Table)
    ensures Sent(e.(answered := e.answered + [(p, ms)]), t) == Sent(e, t) + Sends(p, ms, t.gamePowers)
  {
    assert (e.answered + [(p, ms)])[..|e.answered|] == e.answered;
  }

  // ---------------------------------------------------------------------
  // Who is asked, and when

  /** The requests of round `r`, one per submitted power. */
  function Row(r: nat, sub: seq<string>): (row: seq<(nat, string)>)
    ensures |row| == |sub| && forall i | 0 <= i < |sub| :: row[i] == (r, sub[i])
  {
    seq(|sub|, i requires 0 <= i < |sub| => (r, sub[i]))
  }

  /** Every submitted power of every round, round after round. */
  function Schedule(n: nat, sub: seq<string>): seq<(nat, string)>
  {
    if n == 0 then [] else Schedule(n - 1, sub) + Row(n - 1, sub)
  }

  /** `n` rounds of one request per submitted power. */
  lemma {:induction false} ScheduleLength(n: nat, sub: seq<string>)
    ensures |Schedule(n, sub)| == n * |sub|
  {
    if n > 0 {
      ScheduleLength(n - 1, sub);
      assert n * |sub| == (n - 1) * |sub| + |sub|;
    }
  }

  lemma {:induction false} ScheduleMembers(n: nat, sub: seq<string>, x: (nat, string))
    requires x in Schedule(n, sub)
    ensures x.0 < n && x.1 in sub
  {
    if x !in Schedule(n - 1, sub) {
      var i :| 0 <= i < |sub| && Row(n - 1, sub)[i] == x;
    } else {
      ScheduleMembers(n - 1, sub, x);
    }
  }

  lemma PrefixTrans<T>(a: seq<T>, b: seq<T>, c: seq<T>)
    requires a <= b && b <= c
    ensures a <= c
  {
    assert c[..|a|] == c[..|b|][..|a|];
  }

  /** Once raised, nothing more happens. */
  lemma {:induction false} TurnsAfterRaise(s: State, r: nat, sub: seq<string>, k: nat, t: Table)
    requires k <= |sub| && s.effects.raised
    ensures Turns(s, r, sub, k, t) == s
  {
    if k > 0 {
      TurnsAfterRaise(s, r, sub, k - 1, t);
    }
  }

  /** The rest of a round after a raise changes nothing. */
  lemma {:induction false} RaisedRest(s0: State, r: nat, sub: seq<string>, k: nat, t: Table)
    requires 0 < k <= |sub| && Turns(s0, r, sub, k, t).effects.raised
    ensures Turns(s0, r, sub, |sub|, t) == Turns(s0, r, sub, k, t)
    decreases |sub| - k
  {
    if k < |sub| {
      RaisedRest(s0, r, sub, k + 1, t);
    }
  }

  /** A property of the turns of round `r`, indexed by the number taken, that every turn
      keeps holds after any number of them. */
  lemma {:induction false} TurnsKeep(inv: (State, nat) -> bool, s: State, r: nat, sub: seq<string>, k: nat, t: Table)
    requires k <= |sub| && inv(s, 0)
    requires forall x, i | 0 <= i < |sub| && inv(x, i) :: inv(Turn(x, r, sub[i], t), i + 1)
    ensures inv(Turns(s, r, sub, k, t), k)
  {
    if k > 0 {
      TurnsKeep(inv, s, r, sub, k - 1, t);
    }
  }

  /** A property of the rounds, indexed by the number run, that every round keeps holds
      after any number of them. */
  lemma {:induction false} RoundsKeep(inv: (State, nat) -> bool, n: nat, sub: seq<string>, w0: World, t: Table)
    requires inv(State(Start, w0), 0)
    requires forall x, r: nat | inv(x, r) :: inv(Turns(x, r, sub, |sub|, t), r + 1)
    ensures inv(Rounds(n, sub, w0, t), n)
  {
    if n > 0 {
      RoundsKeep(inv, n - 1, sub, w0, t);
    }
  }

  /** Within a round the submitted powers are asked in order, each once, up to the first
      reply that raises. */
  lemma TurnsRequests(s: State, r: nat, sub: seq<string>, k: nat, t: Table)
    requires k <= |sub| && !s.effects.raised
    ensures var x := Turns(s, r, sub, k, t).effects;
      s.effects.requests <= x.requests && x.requests <= s.effects.requests + Row(r, sub)[..k]
      && (!x.raised ==> x.requests == s.effects.requests + Row(r, sub)[..k])
  {
    var q := s.effects.requests;
    var row := Row(r, sub);
    var inv := (x: State, i: nat) =>
      i <= |sub| && q <= x.effects.requests && x.effects.requests <= q + row[..i]
      && (!x.effects.raised ==> x.effects.requests == q + row[..i]);
    forall x, i | 0 <= i < |sub| && inv(x, i)
      ensures inv(Turn(x, r, sub[i], t), i + 1)
    {
      assert row[..i + 1] == row[..i] + [(r, sub[i])];
      if x.effects.raised {
        PrefixTrans(x.effects.requests, q + row[..i], q + row[..i + 1]);
      } else {
        assert x.effects.requests + [(r, sub[i])] == q + row[..i + 1];
      }
    }
    assert q + row[..0] == q;
    TurnsKeep(inv, s, r, sub, k, t);
  }

  /** The rounds run one after another: the requests made are a prefix of the schedule of
      `n` rounds over the submitted powers, and all of it unless a reply raised. */
  lemma RoundsRequests(n: nat, sub: seq<string>, w0: World, t: Table)
    ensures Rounds(n, sub, w0, t).effects.requests <= Schedule(n, sub)
    ensures !Rounds(n, sub, w0, t).effects.raised ==> Rounds(n, sub, w0, t).effects.requests == Schedule(n, sub)
  {
    var inv := (x: State, m: nat) =>
      x.effects.requests <= Schedule(m, sub) && (!x.effects.raised ==> x.effects.requests == Schedule(m, sub));
    forall x, r: nat | inv(x, r)
      ensures inv(Turns(x, r, sub, |sub|, t), r + 1)
    {
      assert Schedule(r + 1, sub) == Schedule(r, sub) + Row(r, sub);
      assert Row(r, sub)[..|sub|] == Row(r, sub);
      if x.effects.raised {
        TurnsAfterRaise(x, r, sub, |sub|, t);
        PrefixTrans(x.effects.requests, Schedule(r, sub), Schedule(r + 1, sub));
      } else {
        TurnsRequests(x, r, sub, |sub|, t);
      }
    }
    RoundsKeep(inv, n, sub, w0, t);
  }

  /** Exactly `max_rounds` rounds of one request per submitted power unless a reply
      raised, and never a request to a power without an agent or without orderable
      locations. */
  lemma RequestsMade(active: seq<string>, agents: set<string>, orderable: string -> bool, maxRounds: int, w0: World, t: Table)
    ensures var e := Negotiation(active, agents, orderable, maxRounds, w0, t).effects;
      var sub := Submitted(active, agents, orderable);
      (!e.raised ==> e.requests == Schedule(RoundCount(maxRounds), sub)
                     && |e.requests| == RoundCount(maxRounds) * |sub|)
      && forall x | x in e.requests :: x.0 < RoundCount(maxRounds) && x.1 in active && x.1 in agents && orderable(x.1)
  {
    var sub := Submitted(active, agents, orderable);
    var n := RoundCount(maxRounds);
    var e := Rounds(n, sub, w0, t).effects;
    RoundsRequests(n, sub, w0, t);
    ScheduleLength(n, sub);
    forall x | x in e.requests
      ensures x.0 < n && x.1 in active && x.1 in agents && orderable(x.1)
    {
      var s := Schedule(n, sub);
      var i :| 0 <= i < |e.requests| && e.requests[i] == x;
      assert s[i] == x;
      ScheduleMembers(n, sub, x);
    }
  }

  /** A turn counts one conversation error exactly when the reply is empty, and sends
      exactly the reply's messages, from the power asked. */
  lemma TurnOutcome(s: State, r: nat, p: string, t: Table)
    requires !s.effects.raised
    ensures var x := Turn(s, r, p, t).effects;
      x.failures == if t.replies(r, p) == Returned([]) then s.effects.failures + [p] else s.effects.failures
    ensures var x := Turn(s, r, p, t).effects;
      t.replies(r, p).Returned? ==> Sent(x, t) == Sent(s.effects, t) + Sends(p, t.replies(r, p).value, t.gamePowers)
    ensures var x := Sent(Turn(s, r, p, t).effects, t);
      Sent(s.effects, t) <= x && forall i | |Sent(s.effects, t)| <= i < |x| :: x[i].sender == p
    ensures Turn(s, r, p, t).effects.raised <==> t.replies(r, p).Raised?
  {
  }

  // ---------------------------------------------------------------------
  // The journal

  /** The sent messages whose sender is `q`, in order. */
  function SentBy(sent: seq<Message>, q: string): (r: seq<Message>)
    ensures |r| <= |sent|
  {
    if sent == [] then []
    else
      var m := sent[|sent| - 1];
      SentBy(sent[..|sent| - 1], q) + (if m.sender == q then [m] else [])
  }

  /** The journal lines that reach the agent of power `q`. */
  function JournalFor(sent: seq<Message>, q: string, phase: string): seq<string>
  {
    Lines(SentBy(sent, q), phase)
  }

  /** A power's agent is told of exactly the messages that power sent. */
  lemma {:induction false} JournalOfSender(sent: seq<Message>, q: string, m: Message)
    ensures m in SentBy(sent, q) <==> m in sent && m.sender == q
  {
    if sent != [] {
      var init := sent[..|sent| - 1];
      JournalOfSender(init, q, m);
      assert sent == init + [sent[|sent| - 1]];
    }
  }

  lemma {:induction false} SentByAppend(s1: seq<Message>, s2: seq<Message>, q: string)
    ensures SentBy(s1 + s2, q) == SentBy(s1, q) + SentBy(s2, q)
  {
    if s2 == [] {
      assert s1 + s2 == s1;
    } else {
      var init := s2[..|s2| - 1];
      assert (s1 + s2)[..|s1 + s2| - 1] == s1 + init;
      SentByAppend(s1, init, q);
    }
  }

  lemma {:induction false} SendsSnoc(p: string, ms: seq<Reply>, j: nat, gamePowers: set<string>)
    requires j < |ms|
    ensures Sends(p, ms[..j + 1], gamePowers)
      == Sends(p, ms[..j], gamePowers) + [ToMessage(p, ms[j], gamePowers)]
  {
    assert ms[..j + 1][..j] == ms[..j];
  }

  lemma LinesAppend(a: seq<Message>, b: seq<Message>, phase: string)
    ensures Lines(a + b, phase) == Lines(a, phase) + Lines(b, phase)
  {
  }

  /** All the messages of one reply from `p` reach `p`'s agent, and no other. */
  lemma {:induction false} SentBySends(p: string, ms: seq<Reply>, q: string, gamePowers: set<string>)
    ensures SentBy(Sends(p, ms, gamePowers), q) == if p == q then Sends(p, ms, gamePowers) else []
  {
    if ms != [] {
      var n := |ms| - 1;
      SentBySends(p, ms[..n], q, gamePowers);
      SendsSnoc(p, ms, n, gamePowers);
      assert ms[..n + 1] == ms;
      var s := Sends(p, ms[..n], gamePowers);
      var m := ToMessage(p, ms[n], gamePowers);
      assert (s + [m])[..|s|] == s;
    }
  }

  /** The journal of power `q`'s agent after a reply from `p` is sent. */
  lemma JournalForTurn(sent: seq<Message>, p: string, ms: seq<Reply>, q: string, t: Table)
    ensures JournalFor(sent + Sends(p, ms, t.gamePowers), q, t.phase)
      == JournalFor(sent, q, t.phase) + if p == q then Lines(Sends(p, ms, t.gamePowers), t.phase) else []
  {
    SentByAppend(sent, Sends(p, ms, t.gamePowers), q);
    SentBySends(p, ms, q, t.gamePowers);
    LinesAppend(SentBy(sent, q), SentBy(Sends(p, ms, t.gamePowers), q), t.phase);
  }

  lemma Reassociate<T>(a: seq<T>, b: seq<T>, c: seq<T>)
    ensures (a + b) + c == a + (b + c) && b + [] == b
  {
  }

  // ---------------------------------------------------------------------
  // The world the effects stand for

  lemma {:induction false} AppendAllConcat(vs: seq<PhaseView>, phase: string, a: seq<Message>, b: seq<Message>)
    ensures AppendAll(vs, phase, a + b) == AppendAll(AppendAll(vs, phase, a), phase, b)
  {
    if b == [] {
      assert a + b == a;
    } else {
      var init := b[..|b| - 1];
      assert (a + b)[..|a + b| - 1] == a + init;
      AppendAllConcat(vs, phase, a, init);
    }
  }

  lemma AppendAllSnoc(vs: seq<PhaseView>, phase: string, ms: seq<Message>, m: Message)
    ensures AppendAll(vs, phase, ms + [m]) == AppendMessage(AppendAll(vs, phase, ms), phase, m)
  {
    assert (ms + [m])[..|ms|] == ms;
  }

  /** The error table after `conversation_errors += 1` for every failure, keyed by power. */
  function Bumps(counts: map<string, ErrorStats.Counters>, fs: seq<string>): map<string, ErrorStats.Counters>
  {
    if fs == [] then counts
    else
      var c := Bumps(counts, fs[..|fs| - 1]);
      var p := fs[|fs| - 1];
      c[p := ErrorStats.Bumped(ErrorStats.CountersOf(c, p), ErrorStats.ConversationError)]
  }

  /** A power's conversation errors grow by the number of its failures; nothing else moves. */
  lemma {:induction false} BumpsCount(counts: map<string, ErrorStats.Counters>, fs: seq<string>, p: string)
    ensures ErrorStats.CountersOf(Bumps(counts, fs), p).conversationErrors
      == ErrorStats.CountersOf(counts, p).conversationErrors + multiset(fs)[p]
    ensures ErrorStats.CountersOf(Bumps(counts, fs), p).orderDecodingErrors
      == ErrorStats.CountersOf(counts, p).orderDecodingErrors
  {
    if fs != [] {
      var init := fs[..|fs| - 1];
      assert fs == init + [fs[|fs| - 1]];
      BumpsCount(counts, init, p);
    }
  }

  /** Every agent's journal with the lines of the messages its power sent. */
  function Journals(j0: map<string, seq<string>>, sent: seq<Message>, phase: string): (r: map<string, seq<string>>)
    ensures r.Keys == j0.Keys
  {
    map q | q in j0 :: j0[q] + JournalFor(sent, q, phase)
  }

  /** The world the effects `e` leave behind from `w0`, read off the effects alone:
      every sent message given to the engine and added to the history, every failure
      counted, and every agent told of its own power's messages. */
  function Expected(e: Effects, w0: World, t: Table): World
  {
    var s := Sent(e, t);
    World(w0.engine + s, AppendAll(w0.phases, t.phase, s), Bumps(w0.counts, e.failures), Journals(w0.journals, s, t.phase))
  }

  /** Nothing has happened at the start. */
  lemma ExpectedStart(w0: World, t: Table)
    ensures Expected(Start, w0, t) == w0
  {
    assert w0.engine + [] == w0.engine;
    var j := Journals(w0.journals, [], t.phase);
    forall q | q in w0.journals
      ensures j[q] == w0.journals[q]
    {
      assert w0.journals[q] + [] == w0.journals[q];
    }
  }

  /** Delivering a run of messages appends it to the engine's messages and to `p`'s
      journal (as lines), adds each to the history and leaves the error table alone. */
  lemma DeliveredIs(w: World, p: string, ms: seq<Message>, phase: string)
    requires p in w.journals
    ensures Delivered(w, p, ms, phase)
      == w.(engine := w.engine + ms, phases := AppendAll(w.phases, phase, ms),
            journals := w.journals[p := w.journals[p] + Lines(ms, phase)])
  {
    DeliveredFields(w, p, ms, phase);
  }

  lemma {:induction false} DeliveredFields(w: World, p: string, ms: seq<Message>, phase: string)
    requires p in w.journals
    ensures Delivered(w, p, ms, phase).engine == w.engine + ms
    ensures Delivered(w, p, ms, phase).phases == AppendAll(w.phases, phase, ms)
    ensures Delivered(w, p, ms, phase).counts == w.counts
    ensures Delivered(w, p, ms, phase).journals.Keys == w.journals.Keys
    ensures Delivered(w, p, ms, phase).journals[p] == w.journals[p] + Lines(ms, phase)
    ensures forall q | q in w.journals && q != p :: Delivered(w, p, ms, phase).journals[q] == w.journals[q]
  {
    if ms == [] {
      assert w.engine + [] == w.engine && w.journals[p] + [] == w.journals[p];
    } else {
      var init := ms[..|ms| - 1];
      var m := ms[|ms| - 1];
      assert init + [m] == ms;
      DeliveredFields(w, p, init, phase);
      Reassociate(w.engine, init, [m]);
      AppendAllSnoc(w.phases, phase, init, m);
      LinesAppend(init, [m], phase);
      assert Lines([m], phase) == [Line(m, phase)];
      Reassociate(w.journals[p], Lines(init, phase), [Line(m, phase)]);
    }
  }

  /** The journals after a reply from `p`: only `p`'s grows, by the reply's lines. */
  lemma JournalsAfterReply(j0: map<string, seq<string>>, s: seq<Message>, p: string, ms: seq<Reply>, t: Table)
    requires p in j0
    ensures var d := Sends(p, ms, t.gamePowers);
      var j := Journals(j0, s, t.phase);
      Journals(j0, s + d, t.phase) == j[p := j[p] + Lines(d, t.phase)]
  {
    var d := Sends(p, ms, t.gamePowers);
    var j1 := Journals(j0, s + d, t.phase);
    var j2 := Journals(j0, s, t.phase);
    forall q | q in j0
      ensures j1[q] == j2[p := j2[p] + Lines(d, t.phase)][q]
    {
      JournalForTurn(s, p, ms, q, t);
      Reassociate(j0[q], JournalFor(s, q, t.phase), if p == q then Lines(d, t.phase) else []);
    }
  }

  /** A non-empty reply from `p` delivers its messages. */
  lemma ExpectedAfterReply(e: Effects, p: string, ms: seq<Reply>, w0: World, t: Table)
    requires p in w0.journals
    ensures Expected(e.(answered := e.answered + [(p, ms)]), w0, t)
      == Delivered(Expected(e, w0, t), p, Sends(p, ms, t.gamePowers), t.phase)
  {
    var s := Sent(e, t);
    var d := Sends(p, ms, t.gamePowers);
    SentAfterReply(e, p, ms, t);
    AppendAllConcat(w0.phases, t.phase, s, d);
    Reassociate(w0.engine, s, d);
    JournalsAfterReply(w0.journals, s, p, ms, t);
    DeliveredIs(Expected(e, w0, t), p, d, t.phase);
  }

  /** An empty reply from `p` is one more conversation error for `p`. */
  lemma ExpectedAfterFailure(e: Effects, p: string, w0: World, t: Table)
    ensures Expected(e.(failures := e.failures + [p]), w0, t) == Failed(Expected(e, w0, t), p)
  {
    assert (e.failures + [p])[..|e.failures|] == e.failures;
  }

  /** A turn keeps the world what the effects say. */
  lemma TurnExpected(s: State, r: nat, p: string, w0: World, t: Table)
    requires p in w0.journals && s.world == Expected(s.effects, w0, t)
    ensures Turn(s, r, p, t).world == Expected(Turn(s, r, p, t).effects, w0, t)
  {
    if !s.effects.raised {
      var e1 := s.effects.(requests := s.effects.requests + [(r, p)]);
      assert Expected(e1, w0, t) == s.world;
      match t.replies(r, p)
      case Raised =>
      case Returned(ms) =>
        if ms == [] {
          ExpectedAfterFailure(e1, p, w0, t);
        } else {
          ExpectedAfterReply(e1, p, ms, w0, t);
        }
    }
  }

  /** After the negotiation the engine has every sent message, the history every sent
      message, the error table one conversation error per empty reply, and each agent's
      journal the lines of its own power's messages. */
  lemma NegotiationWorld(active: seq<string>, orderable: string -> bool, maxRounds: int, w0: World, t: Table)
    ensures var s := Negotiation(active, w0.journals.Keys, orderable, maxRounds, w0, t);
      s.world == Expected(s.effects, w0, t)
  {
    var sub := Submitted(active, w0.journals.Keys, orderable);
    var inv := (x: State, i: nat) => x.world == Expected(x.effects, w0, t);
    ExpectedStart(w0, t);
    forall x, r: nat, i | 0 <= i < |sub| && inv(x, i)
      ensures inv(Turn(x, r, sub[i], t), i + 1)
    {
      TurnExpected(x, r, sub[i], w0, t);
    }
    forall x, r: nat | inv(x, r)
      ensures inv(Turns(x, r, sub, |sub|, t), r + 1)
    {
      TurnsKeep(inv, x, r, sub, |sub|, t);
    }
    RoundsKeep(inv, RoundCount(maxRounds), sub, w0, t);
  }

  // ---------------------------------------------------------------------
  // The negotiation

  /** `conduct_negotiations`: the world after the negotiation is the one `Negotiation`
      reaches (which `NegotiationWorld` reads off its effects), and `raised` tells whether
      a reply raised. */
  method ConductNegotiations(active: seq<string>, w0: World, maxRounds: int, orderable: string -> bool, t: Table)
    returns (w: World, raised: bool)
    ensures var s := Negotiation(active, w0.journals.Keys, orderable, maxRounds, w0, t);
      w == s.world && raised == s.effects.raised
  {
    var n := RoundCount(maxRounds);
    var sub := SubmittedPowers(active, w0.journals.Keys, orderable);
    w, raised := w0, false;
    for r := 0 to n
      invariant !raised && !Rounds(r, sub, w0, t).effects.raised
      invariant w == Rounds(r, sub, w0, t).world && w.journals.Keys == w0.journals.Keys
    {
      w, raised := RunRound(r, sub, t, Rounds(r, sub, w0, t), w);
      if raised {
        ghost var k := r + 1;
        while k < n
          invariant r + 1 <= k <= n && Rounds(k, sub, w0, t) == Rounds(r + 1, sub, w0, t)
        {
          TurnsAfterRaise(Rounds(k, sub, w0, t), k, sub, |sub|, t);
          k := k + 1;
        }
        return;
      }
    }
  }

  /** The submission loop: the powers with an agent and orderable locations, in order. */
  method SubmittedPowers(active: seq<string>, agents: set<string>, orderable: string -> bool)
    returns (sub: seq<string>)
    ensures sub == Submitted(active, agents, orderable)
  {
    sub := [];
    for i := 0 to |active|
      invariant sub == Submitted(active[..i], agents, orderable)
    {
      assert active[..i + 1][..i] == active[..i];
      var p := active[i];
      if p !in agents {
        continue;
      }
      if !orderable(p) {
        continue;
      }
      sub := sub + [p];
    }
    assert active[..|active|] == active;
  }

  /** One round: the submitted powers' replies taken in turn. */
  method RunRound(r: nat, sub: seq<string>, t: Table, ghost s0: State, w1: World)
    returns (w: World, raised: bool)
    requires !s0.effects.raised && w1 == s0.world && forall p | p in sub :: p in w1.journals
    ensures raised == Turns(s0, r, sub, |sub|, t).effects.raised
    ensures w == Turns(s0, r, sub, |sub|, t).world && w.journals.Keys == w1.journals.Keys
  {
    w, raised := w1, false;
    for i := 0 to |sub|
      invariant !raised && !Turns(s0, r, sub, i, t).effects.raised
      invariant w == Turns(s0, r, sub, i, t).world && w.journals.Keys == w1.journals.Keys
    {
      w, raised := TakeTurn(r, sub[i], t, Turns(s0, r, sub, i, t), w);
      if raised {
        RaisedRest(s0, r, sub, i + 1, t);
        return;
      }
    }
  }

  /** The reply of power `p`: an exception ends the negotiation, an empty reply is
      counted, the messages of any other are delivered. */
  method TakeTurn(r: nat, p: string, t: Table, ghost s: State, w1: World)
    returns (w: World, raised: bool)
    requires !s.effects.raised && w1 == s.world && p in w1.journals
    ensures raised == Turn(s, r, p, t).effects.raised
    ensures w == Turn(s, r, p, t).world && w.journals.Keys == w1.journals.Keys
  {
    var reply := t.replies(r, p);
    w, raised := w1, false;
    if reply.Raised? {
      raised := true;
      return;
    }
    var messages := reply.value;
    if messages == [] {
      w := w.(counts := w.counts[p := ErrorStats.Bumped(ErrorStats.CountersOf(w.counts, p), ErrorStats.ConversationError)]);
    } else {
      w := Deliver(p, messages, t, w);
    }
  }

  /** The messages of one reply, in order: each given to the engine, added to the
      history and journalled for the sender's agent. */
  method Deliver(p: string, messages: seq<Reply>, t: Table, w0: World) returns (w: World)
    requires p in w0.journals
    ensures w == Delivered(w0, p, Sends(p, messages, t.gamePowers), t.phase)
    ensures w.journals.Keys == w0.journals.Keys
  {
    w := w0;
    for i := 0 to |messages|
      invariant w == Delivered(w0, p, Sends(p, messages[..i], t.gamePowers), t.phase)
      invariant w.journals.Keys == w0.journals.Keys
    {
      var recipient := Recipient(messages[i], t.gamePowers);
      var content := Content(messages[i]);
      var msg := Message(p, recipient, content);
      w := w.(engine := w.engine + [msg], phases := AppendMessage(w.phases, t.phase, msg),
              journals := w.journals[p := w.journals[p] + [JournalEntry(recipient, t.phase, content)]]);
      SendsSnoc(p, messages, i, t.gamePowers);
      assert (Sends(p, messages[..i], t.gamePowers) + [msg])[..i] == Sends(p, messages[..i], t.gamePowers);
    }
    assert messages[..|messages|] == messages;
  }

  // ---------------------------------------------------------------------
  // The journal as the source writes it

  /** The power whose agent the source's journal lines reach: `agent` is last assigned in
      the submission loop, for the last active power that has an agent (whether or not
      it then has orders). */
  function JournalHolder(active: seq<string>, agents: set<string>): (r: Option<string>)
    ensures r.Some? ==> r.value in active && r.value in agents
    ensures r.Some? ==> forall i | 0 <= i < |active| && active[i] in agents :: i <= LastIndex(active, r.value)
    ensures r.None? ==> forall p | p in active :: p !in agents
  {
    if active == [] then None
    else if active[|active| - 1] in agents then Some(active[|active| - 1])
    else JournalHolder(active[..|active| - 1], agents)
  }

  /** The last position of `x` in `s`. */
  function LastIndex(s: seq<string>, x: string): (i: int)
    ensures x in s ==> 0 <= i < |s| && s[i] == x && forall j | i < j < |s| :: s[j] != x
  {
    if s == [] then -1
    else if s[|s| - 1] == x then |s| - 1
    else LastIndex(s[..|s| - 1], x)
  }

  /** The journal lines power `q`'s agent gets as the source writes them: every sent
      line goes to the holder's agent. */
  function JournalAsWritten(sent: seq<Message>, active: seq<string>, agents: set<string>, q: string, phase: string): seq<string>
  {
    if JournalHolder(active, agents) == Some(q) then Lines(sent, phase) else []
  }

  /** The reply of the example below: one message, neither private nor addressed. */
  const HiReply: Reply := [("content", "hi")]

  /** The replies of the example below: Austria sends `HiReply`, England nothing. */
  const HiTable := Table(ALL_POWERS, "S1901M", (r: nat, p: string) => if p == "AUSTRIA" then Returned([HiReply]) else Returned([]))

  /** Every power has orderable locations. */
  function AllOrderable(p: string): bool
  {
    true
  }

  /** The one message of the example, sent to `GLOBAL`. */
  lemma HiSends()
    ensures Sends("AUSTRIA", [HiReply], ALL_POWERS) == [Message("AUSTRIA", GLOBAL, "hi")]
  {
    assert Get(HiReply, "message_type") == None by {
      assert "message_type"[0] == 'm' && "content"[0] == 'c';
    }
    assert Content(HiReply) == "hi";
    assert [HiReply][..0] == [];
  }

  /** Both active powers with agents are asked. */
  lemma HiSubmitted(agents: set<string>)
    requires "AUSTRIA" in agents && "ENGLAND" in agents
    ensures Submitted(["AUSTRIA", "ENGLAND"], agents, AllOrderable) == ["AUSTRIA", "ENGLAND"]
  {
    var active := ["AUSTRIA", "ENGLAND"];
    assert active[..1] == ["AUSTRIA"];
    assert Submitted(active[..1], agents, AllOrderable) == ["AUSTRIA"];
  }

  /** With Austria and England active and with agents, the example's negotiation of one
      round sends Austria's message and nothing else. */
  lemma HiNegotiation(agents: set<string>, w0: World)
    requires "AUSTRIA" in agents && "ENGLAND" in agents
    ensures Sent(Negotiation(["AUSTRIA", "ENGLAND"], agents, AllOrderable, 1, w0, HiTable).effects, HiTable)
      == [Message("AUSTRIA", GLOBAL, "hi")]
  {
    var active := ["AUSTRIA", "ENGLAND"];
    var sub := Submitted(active, agents, AllOrderable);
    HiSubmitted(agents);
    var s0 := State(Start, w0);
    assert Turns(s0, 0, sub, 1, HiTable) == Turn(s0, 0, "AUSTRIA", HiTable);
    var e1 := TurnEffects(Start, 0, "AUSTRIA", HiTable);
    assert Turn(s0, 0, "AUSTRIA", HiTable).effects == e1;
    assert e1.answered == [("AUSTRIA", [HiReply])];
    var e2 := TurnEffects(e1, 0, "ENGLAND", HiTable);
    assert e2.answered == e1.answered;
    assert Turns(s0, 0, sub, 2, HiTable).effects == e2;
    assert RoundCount(1) == 1;
    assert Rounds(1, sub, w0, HiTable) == Turns(s0, 0, sub, 2, HiTable);
    assert Negotiation(active, agents, AllOrderable, 1, w0, HiTable) == Rounds(1, sub, w0, HiTable);
    assert Negotiation(active, agents, AllOrderable, 1, w0, HiTable).effects == e2;
    HiSends();
    assert e2.answered[..0] == [] && e2.answered[0] == ("AUSTRIA", [HiReply]);
    assert SentOf(e2.answered, ALL_POWERS) == SentOf([], ALL_POWERS) + Sends("AUSTRIA", [HiReply], ALL_POWERS);
  }

  /** The journal line of the example's message. */
  lemma HiLine()
    ensures Line(Message("AUSTRIA", GLOBAL, "hi"), "S1901M") == "Sent message globally in S1901M: hi..."
  {
    assert Take("hi", 100) == "hi";
    assert JournalEntry(GLOBAL, "S1901M", "hi") == "Sent message " + "globally" + " in " + "S1901M" + ": " + "hi" + "...";
  }

  /** Austria and England active with agents, Austria replying with one message and
      England with none: the line about Austria's message belongs in Austria's journal,
      but the source writes it into England's. */
  lemma JournalMisrouted(agents: set<string>, w0: World)
    requires "AUSTRIA" in agents && "ENGLAND" in agents
    ensures var active := ["AUSTRIA", "ENGLAND"];
      var sent := Sent(Negotiation(active, agents, AllOrderable, 1, w0, HiTable).effects, HiTable);
      var line := "Sent message globally in S1901M: hi...";
      sent == [Message("AUSTRIA", GLOBAL, "hi")]
      && JournalAsWritten(sent, active, agents, "ENGLAND", HiTable.phase) == [line]
      && JournalAsWritten(sent, active, agents, "AUSTRIA", HiTable.phase) == []
      && JournalFor(sent, "AUSTRIA", HiTable.phase) == [line]
      && JournalFor(sent, "ENGLAND", HiTable.phase) == []
  {
    HiNegotiation(agents, w0);
    HiLine();
    var active := ["AUSTRIA", "ENGLAND"];
    var msg := Message("AUSTRIA", GLOBAL, "hi");
    assert [msg][..0] == [];
    assert SentBy([msg], "AUSTRIA") == [msg];
    assert SentBy([msg], "ENGLAND") == [];
    assert active[..1] == ["AUSTRIA"];
    assert JournalHolder(active, agents) == Some("ENGLAND");
  }
}
