/** Chains of cues between same-chat agents, as steps: a human-triggered reply starts a chain, a wake-up takes
    everything unread, each cue taken may be answered and relayed, and a process may die with cues in hand. */
module PeerChain {
  import opened PeerInbox

  const MAX_AGENT_CHAIN_DEPTH := 6
  const DEFAULT_CHAIN_BUDGET := 8

  /** One delivery of a cue: a line in `to`'s inbox. The number and the kickoff it goes back to are for the
      statements only. */
  datatype Copy = Copy(uid: nat, origin: nat, to: Soul, cue: Cue)

  /** `unread` are the unread lines of all inboxes, oldest first; `hand` are cues read but not dealt with yet;
      `taken` the cues dealt with, `replies` the origin of each agent reply. */
  datatype State = State(unread: seq<Copy>, hand: seq<Copy>, nextUid: nat, nextOrigin: nat, taken: seq<nat>,
                         replies: seq<nat>)

  const QUIET := State([], [], 0, 0, [], [])

  /** What comes of a cue in hand: passed over (rate limit, error, silence, bare acknowledgement), or answered;
      a relay reaches the first `reached` peers before the process dies, or all of them. */
  datatype Outcome = Passed | Answered(message: string, reached: nat)

  datatype Step =
    | Kickoff(from: Soul, chat: Chat, topic: string, message: string, reached: nat)
    | Wake(soul: Soul)
    | Take(i: nat, outcome: Outcome)
    | Die(soul: Soul)

  function Deliver(peers: seq<Soul>, cue: Cue, origin: nat, uid: nat): seq<Copy> {
    if peers == [] then [] else [Copy(uid, origin, peers[0], cue)] + Deliver(peers[1..], cue, origin, uid + 1)
  }

  function For(copies: seq<Copy>, soul: Soul, mine: bool): seq<Copy> {
    if copies == [] then []
    else (if (copies[0].to == soul) == mine then [copies[0]] else []) + For(copies[1..], soul, mine)
  }

  /** The watcher's map: a later cue of a chat takes the place of an earlier one. */
  function Latest(copies: seq<Copy>): seq<Copy> {
    if copies == [] then [] else Replace(Latest(copies[..|copies| - 1]), copies[|copies| - 1])
  }

  function Replace(kept: seq<Copy>, c: Copy): seq<Copy> {
    if kept == [] then [c]
    else if kept[0].cue.chat == c.cue.chat then [c] + kept[1..]
    else [kept[0]] + Replace(kept[1..], c)
  }

  predicate MayAnswer(c: Cue) {
    !(c.depth >= MAX_AGENT_CHAIN_DEPTH || c.budget <= 0)
  }

  predicate MayRelay(c: Cue) {
    c.depth + 1 < MAX_AGENT_CHAIN_DEPTH && c.budget - 1 > 0
  }

  predicate Enabled(s: State, st: Step) {
    match st
    case Kickoff(_, _, _, _, _) => true
    case Wake(soul) => For(s.unread, soul, true) != []
    case Take(i, outcome) => i < |s.hand| && (outcome.Answered? ==> MayAnswer(s.hand[i].cue))
    case Die(soul) => For(s.hand, soul, true) != []
  }

  function Sent(roster: seq<Agent>, s: State, cue: Cue, origin: nat, reached: nat): State {
    var peers := First(Peers(roster, cue.chat, cue.from), reached);
    s.(unread := s.unread + Deliver(peers, cue, origin, s.nextUid), nextUid := s.nextUid + |peers|)
  }

  function Relayed(soul: Soul, cue: Cue, message: string): Cue {
    Cue(soul, cue.chat, cue.topic, message, cue.budget - 1, cue.depth + 1)
  }

  /** The state once the i-th cue in hand is dealt with, before any relay. */
  function Taken(s: State, i: nat, answered: bool): State
    requires i < |s.hand|
  {
    s.(hand := s.hand[..i] + s.hand[i + 1..], taken := s.taken + [s.hand[i].uid],
       replies := if answered then s.replies + [s.hand[i].origin] else s.replies)
  }

  function Apply(roster: seq<Agent>, s: State, st: Step): State
    requires Enabled(s, st)
  {
    match st
    case Kickoff(from, chat, topic, message, reached) =>
      Sent(roster, s, Cue(from, chat, topic, message, DEFAULT_CHAIN_BUDGET, 1), s.nextOrigin, reached)
        .(nextOrigin := s.nextOrigin + 1)
    case Wake(soul) =>
      s.(unread := For(s.unread, soul, false), hand := s.hand + Latest(For(s.unread, soul, true)))
    case Take(i, outcome) =>
      var c := s.hand[i];
      var next := Taken(s, i, outcome.Answered?);
      if outcome.Answered? && MayRelay(c.cue) then
        Sent(roster, next, Relayed(c.to, c.cue, outcome.message), c.origin, outcome.reached)
      else next
    case Die(soul) => s.(hand := For(s.hand, soul, false))
  }

  predicate IsTrace(roster: seq<Agent>, s: State, steps: seq<Step>)
    decreases |steps|
  {
    steps != [] ==> Enabled(s, steps[0]) && IsTrace(roster, Apply(roster, s, steps[0]), steps[1..])
  }

  function After(roster: seq<Agent>, s: State, steps: seq<Step>): State
    requires IsTrace(roster, s, steps)
    decreases |steps|
  {
    if steps == [] then s else After(roster, Apply(roster, s, steps[0]), steps[1..])
  }

  /***** Sums over copies *****/

  function Sum(f: Copy -> nat, copies: seq<Copy>): nat {
    if copies == [] then 0 else f(copies[0]) + Sum(f, copies[1..])
  }

  lemma {:induction false} SumOfTwo(f: Copy -> nat, a: seq<Copy>, b: seq<Copy>)
    ensures Sum(f, a + b) == Sum(f, a) + Sum(f, b)
  {
    if a == [] {
      assert a + b == b;
    } else {
      assert (a + b)[1..] == a[1..] + b;
      SumOfTwo(f, a[1..], b);
    }
  }

  lemma {:induction false} SumSplits(f: Copy -> nat, copies: seq<Copy>, soul: Soul)
    ensures Sum(f, copies) == Sum(f, For(copies, soul, true)) + Sum(f, For(copies, soul, false))
  {
    if copies != [] {
      SumSplits(f, copies[1..], soul);
      var c, rest := copies[0], copies[1..];
      SumOfTwo(f, [c], For(rest, soul, c.to == soul));
      assert Sum(f, [c]) == f(c) by { assert [c][1..] == []; }
      assert For(copies, soul, c.to == soul) == [c] + For(rest, soul, c.to == soul);
      assert For(copies, soul, c.to != soul) == For(rest, soul, c.to != soul);
    }
  }

  lemma {:induction false} SumReplace(f: Copy -> nat, kept: seq<Copy>, c: Copy)
    ensures Sum(f, Replace(kept, c)) <= Sum(f, kept) + f(c)
  {
    if kept != [] {
      SumReplace(f, kept[1..], c);
    }
  }

  lemma {:induction false} SumLatest(f: Copy -> nat, copies: seq<Copy>)
    ensures Sum(f, Latest(copies)) <= Sum(f, copies)
  {
    if copies != [] {
      var n := |copies| - 1;
      SumLatest(f, copies[..n]);
      SumReplace(f, Latest(copies[..n]), copies[n]);
      assert copies == copies[..n] + [copies[n]];
      SumOfTwo(f, copies[..n], [copies[n]]);
      assert [copies[n]][1..] == [];
    }
  }

  lemma SumWithout(f: Copy -> nat, hand: seq<Copy>, i: nat)
    requires i < |hand|
    ensures Sum(f, hand) == f(hand[i]) + Sum(f, hand[..i] + hand[i + 1..])
  {
    assert hand == hand[..i] + hand[i..];
    SumOfTwo(f, hand[..i], hand[i..]);
    SumOfTwo(f, hand[..i], hand[i + 1..]);
  }

  lemma {:induction false} SumDelivered(f: Copy -> nat, peers: seq<Soul>, cue: Cue, origin: nat, uid: nat, w: nat)
    requires forall u: nat, to :: f(Copy(u, origin, to, cue)) == w
    ensures Sum(f, Deliver(peers, cue, origin, uid)) == |peers| * w
  {
    if peers != [] {
      SumDelivered(f, peers[1..], cue, origin, uid + 1, w);
      assert |peers| * w == w + |peers[1..]| * w;
    }
  }

  /***** Depth and budget *****/

  predicate CueOk(c: Cue) {
    c.budget + c.depth == DEFAULT_CHAIN_BUDGET + 1 && 1 <= c.depth < MAX_AGENT_CHAIN_DEPTH
  }

  predicate AllOk(copies: seq<Copy>) {
    forall c :: c in copies ==> CueOk(c.cue)
  }

  predicate ChainsOk(s: State) {
    AllOk(s.unread) && AllOk(s.hand)
  }

  lemma {:induction false} ForIsPart(copies: seq<Copy>, soul: Soul, mine: bool)
    ensures forall c :: c in For(copies, soul, mine) <==> c in copies && (c.to == soul) == mine
  {
    if copies != [] {
      ForIsPart(copies[1..], soul, mine);
      assert copies == [copies[0]] + copies[1..];
    }
  }

  lemma {:induction false} ReplaceIsPart(kept: seq<Copy>, c: Copy)
    ensures forall d :: d in Replace(kept, c) ==> d == c || d in kept
  {
    if kept != [] {
      ReplaceIsPart(kept[1..], c);
    }
  }

  lemma {:induction false} LatestIsPart(copies: seq<Copy>)
    ensures forall c :: c in Latest(copies) ==> c in copies
  {
    if copies != [] {
      LatestIsPart(copies[..|copies| - 1]);
      ReplaceIsPart(Latest(copies[..|copies| - 1]), copies[|copies| - 1]);
    }
  }

  lemma {:induction false} DeliveredAreThatCue(peers: seq<Soul>, cue: Cue, origin: nat, uid: nat)
    ensures forall c :: c in Deliver(peers, cue, origin, uid) ==> c.cue == cue && c.origin == origin && c.to in peers
  {
    if peers != [] {
      DeliveredAreThatCue(peers[1..], cue, origin, uid + 1);
      assert peers == [peers[0]] + peers[1..];
    }
  }

  lemma SentOk(roster: seq<Agent>, s: State, cue: Cue, origin: nat, reached: nat)
    requires ChainsOk(s) && CueOk(cue)
    ensures ChainsOk(Sent(roster, s, cue, origin, reached))
  {
    DeliveredAreThatCue(First(Peers(roster, cue.chat, cue.from), reached), cue, origin, s.nextUid);
  }

  lemma StepKeepsChainsOk(roster: seq<Agent>, s: State, st: Step)
    requires ChainsOk(s) && Enabled(s, st)
    ensures ChainsOk(Apply(roster, s, st))
  {
    match st
    case Kickoff(from, chat, topic, message, reached) =>
      SentOk(roster, s, Cue(from, chat, topic, message, DEFAULT_CHAIN_BUDGET, 1), s.nextOrigin, reached);
    case Wake(soul) =>
      ForIsPart(s.unread, soul, true);
      ForIsPart(s.unread, soul, false);
      LatestIsPart(For(s.unread, soul, true));
    case Take(i, outcome) =>
      var c := s.hand[i];
      assert CueOk(c.cue);
      if outcome.Answered? && MayRelay(c.cue) {
        SentOk(roster, Taken(s, i, true), Relayed(c.to, c.cue, outcome.message), c.origin, outcome.reached);
      }
    case Die(soul) => ForIsPart(s.hand, soul, false);
  }

  lemma {:induction false} TraceKeepsChainsOk(roster: seq<Agent>, s: State, steps: seq<Step>)
    requires ChainsOk(s) && IsTrace(roster, s, steps)
    ensures ChainsOk(After(roster, s, steps))
    decreases |steps|
  {
    if steps != [] {
      StepKeepsChainsOk(roster, s, steps[0]);
      TraceKeepsChainsOk(roster, Apply(roster, s, steps[0]), steps[1..]);
    }
  }

  /** In every run, budget and depth of every cue add up to 9 and the depth is 1 to 5. So the watcher's first
      guard never fires, and whether an answer is relayed is decided by the depth alone. */
  lemma DepthAloneDecides(roster: seq<Agent>, steps: seq<Step>, c: Copy)
    requires IsTrace(roster, QUIET, steps)
    requires c in After(roster, QUIET, steps).unread || c in After(roster, QUIET, steps).hand
    ensures c.cue.budget + c.cue.depth == 9 && 1 <= c.cue.depth <= 5
    ensures MayAnswer(c.cue) && (MayRelay(c.cue) <==> c.cue.depth < 5)
  {
    TraceKeepsChainsOk(roster, QUIET, steps);
  }

  /***** Where cues go *****/

  /** A cue is under way to a peer of its sender in its chat, and all cues of a chain are in one chat. */
  predicate Addressed(roster: seq<Agent>, chats: seq<Chat>, copies: seq<Copy>) {
    forall c :: c in copies ==>
                  && c.to in Peers(roster, c.cue.chat, c.cue.from)
                  && c.origin < |chats| && c.cue.chat == chats[c.origin]
  }

  /** `chats` lists the chat of every kickoff so far. */
  predicate WellAddressed(roster: seq<Agent>, chats: seq<Chat>, s: State) {
    |chats| == s.nextOrigin && Addressed(roster, chats, s.unread) && Addressed(roster, chats, s.hand)
  }

  function ChatsAfter(chats: seq<Chat>, st: Step): seq<Chat> {
    if st.Kickoff? then chats + [st.chat] else chats
  }

  lemma SentAddressed(roster: seq<Agent>, chats: seq<Chat>, s: State, cue: Cue, origin: nat, reached: nat)
    requires Addressed(roster, chats, s.unread) && origin < |chats| && cue.chat == chats[origin]
    ensures Addressed(roster, chats, Sent(roster, s, cue, origin, reached).unread)
  {
    var peers := Peers(roster, cue.chat, cue.from);
    DeliveredAreThatCue(First(peers, reached), cue, origin, s.nextUid);
    assert forall soul :: soul in First(peers, reached) ==> soul in peers;
  }

  lemma StepAddresses(roster: seq<Agent>, chats: seq<Chat>, s: State, st: Step)
    requires WellAddressed(roster, chats, s) && Enabled(s, st)
    ensures WellAddressed(roster, ChatsAfter(chats, st), Apply(roster, s, st))
  {
    match st
    case Kickoff(from, chat, topic, message, reached) =>
      var longer := chats + [chat];
      assert Addressed(roster, longer, s.unread) && Addressed(roster, longer, s.hand);
      SentAddressed(roster, longer, s, Cue(from, chat, topic, message, DEFAULT_CHAIN_BUDGET, 1), s.nextOrigin, reached);
    case Wake(soul) =>
      ForIsPart(s.unread, soul, true);
      ForIsPart(s.unread, soul, false);
      LatestIsPart(For(s.unread, soul, true));
    case Take(i, outcome) =>
      var c := s.hand[i];
      assert c in s.hand;
      if outcome.Answered? && MayRelay(c.cue) {
        SentAddressed(roster, chats, Taken(s, i, true), Relayed(c.to, c.cue, outcome.message), c.origin,
                      outcome.reached);
      }
    case Die(soul) => ForIsPart(s.hand, soul, false);
  }

  lemma {:induction false} TraceAddresses(roster: seq<Agent>, chats: seq<Chat>, s: State, steps: seq<Step>)
    returns (later: seq<Chat>)
    requires WellAddressed(roster, chats, s) && IsTrace(roster, s, steps)
    ensures WellAddressed(roster, later, After(roster, s, steps))
    decreases |steps|
  {
    if steps == [] {
      return chats;
    }
    StepAddresses(roster, chats, s, steps[0]);
    later := TraceAddresses(roster, ChatsAfter(chats, steps[0]), Apply(roster, s, steps[0]), steps[1..]);
  }

  /** In every run: a chain never leaves the chat it began in, and no agent is ever handed its own words. */
  lemma ChainsStayInTheirChat(roster: seq<Agent>, steps: seq<Step>, c: Copy, d: Copy)
    requires IsTrace(roster, QUIET, steps)
    requires var s := After(roster, QUIET, steps); (c in s.unread || c in s.hand) && (d in s.unread || d in s.hand)
    ensures c.origin == d.origin ==> c.cue.chat == d.cue.chat
    ensures c.to != c.cue.from
  {
    var chats := TraceAddresses(roster, [], QUIET, steps);
    PeersAreTheHearers(roster, c.cue.chat, c.cue.from);
  }

  /***** How a chain goes on *****/

  lemma {:induction false} DeliveredLength(peers: seq<Soul>, cue: Cue, origin: nat, uid: nat)
    ensures |Deliver(peers, cue, origin, uid)| == |peers|
  {
    if peers != [] {
      DeliveredLength(peers[1..], cue, origin, uid + 1);
    }
  }

  lemma {:induction false} DeliveredAt(peers: seq<Soul>, cue: Cue, origin: nat, uid: nat, k: nat)
    requires k < |peers| == |Deliver(peers, cue, origin, uid)|
    ensures Deliver(peers, cue, origin, uid)[k] == Copy(uid + k, origin, peers[k], cue)
  {
    if k > 0 {
      DeliveredAt(peers[1..], cue, origin, uid + 1, k - 1);
    }
  }

  /** `cue` waits, last of all, with each of the first `reached` agents of its chat but its sender, and nothing else is
      new. */
  ghost predicate Broadcast(roster: seq<Agent>, before: seq<Copy>, after: seq<Copy>, cue: Cue, reached: nat) {
    var peers, n := Peers(roster, cue.chat, cue.from), |before|;
    && n <= |after| && after[..n] == before
    && |after| - n == (if reached < |peers| then reached else |peers|)
    && forall k :: n <= k < |after| ==> after[k].to == peers[k - n] && after[k].cue == cue
  }

  lemma SentIsBroadcast(roster: seq<Agent>, s: State, cue: Cue, origin: nat, reached: nat)
    ensures Broadcast(roster, s.unread, Sent(roster, s, cue, origin, reached).unread, cue, reached)
  {
    hide Peers, Deliver;
    var all, n := Peers(roster, cue.chat, cue.from), |s.unread|;
    var peers := First(all, reached);
    var sent := Deliver(peers, cue, origin, s.nextUid);
    var after := Sent(roster, s, cue, origin, reached).unread;
    DeliveredLength(peers, cue, origin, s.nextUid);
    assert after == s.unread + sent && after[..n] == s.unread;
    assert |after| - n == |peers| == (if reached < |all| then reached else |all|);
    forall k | n <= k < |after| ensures after[k].to == all[k - n] && after[k].cue == cue {
      DeliveredAt(peers, cue, origin, s.nextUid, k - n);
      assert after[k] == sent[k - n] && peers[k - n] == all[k - n];
    }
  }

  /** A reply to a human starts a chain at depth 1 with a budget of 8, in its chat, among the colleagues there. */
  lemma KickoffIsBroadcast(roster: seq<Agent>, s: State, from: Soul, chat: Chat, topic: string, message: string,
                           reached: nat)
    ensures var t := Apply(roster, s, Kickoff(from, chat, topic, message, reached));
      Broadcast(roster, s.unread, t.unread, Cue(from, chat, topic, message, 8, 1), reached) && t.hand == s.hand
  {
    SentIsBroadcast(roster, s, Cue(from, chat, topic, message, 8, 1), s.nextOrigin, reached);
  }

  /** In every run: a cue that is answered leaves the hand and is one reply more of its chain; below depth 5 the answer
      goes on to the colleagues of whoever gave it, in the same chat and on the same topic, one deeper and with one less
      to spend; at depth 5 it goes no further. A cue that is passed over leaves the hand, and nothing else happens. */
  lemma AnswersAreRelayed(roster: seq<Agent>, steps: seq<Step>, s: State, i: nat, message: string, reached: nat)
    requires IsTrace(roster, QUIET, steps) && s == After(roster, QUIET, steps) && i < |s.hand|
    ensures Enabled(s, Take(i, Answered(message, reached)))
    ensures var c, t := s.hand[i], Apply(roster, s, Take(i, Answered(message, reached)));
      && t.hand == s.hand[..i] + s.hand[i + 1..] && t.replies == s.replies + [c.origin] && t.taken == s.taken + [c.uid]
      && (if c.cue.depth == 5 then t.unread == s.unread
          else Broadcast(roster, s.unread, t.unread,
                         Cue(c.to, c.cue.chat, c.cue.topic, message, c.cue.budget - 1, c.cue.depth + 1), reached))
    ensures var t := Apply(roster, s, Take(i, Passed));
      && t.hand == s.hand[..i] + s.hand[i + 1..] && t.replies == s.replies && t.unread == s.unread
      && t.taken == s.taken + [s.hand[i].uid]
  {
    hide Peers, First, Broadcast;
    var c := s.hand[i];
    DepthAloneDecides(roster, steps, c);
    if c.cue.depth < 5 {
      SentIsBroadcast(roster, Taken(s, i, true), Relayed(c.to, c.cue, message), c.origin, reached);
    }
  }

  /***** How far a chain can go *****/

  /** The most replies a cue at this depth can lead to, itself included, if a chat has at most m peers. */
  function Reach(m: nat, depth: int): nat
    decreases MAX_AGENT_CHAIN_DEPTH - depth
  {
    if depth + 1 >= MAX_AGENT_CHAIN_DEPTH then 1 else 1 + m * Reach(m, depth + 1)
  }

  function ReachOf(m: nat, origin: nat): Copy -> nat {
    (c: Copy) => if c.origin == origin then Reach(m, c.cue.depth) else 0
  }

  function Count(log: seq<nat>, x: nat): nat {
    if log == [] then 0 else Count(log[..|log| - 1], x) + (if log[|log| - 1] == x then 1 else 0)
  }

  lemma CountAdd(log: seq<nat>, y: nat, x: nat)
    ensures Count(log + [y], x) == Count(log, x) + (if x == y then 1 else 0)
  {
    assert (log + [y])[..|log|] == log;
  }

  /** Replies given so far, plus all that the cues under way can still lead to. */
  function Potential(m: nat, s: State, origin: nat): nat {
    Count(s.replies, origin) + Sum(ReachOf(m, origin), s.unread) + Sum(ReachOf(m, origin), s.hand)
  }

  ghost predicate AtMostPeers(roster: seq<Agent>, m: nat) {
    forall chat, self :: |Peers(roster, chat, self)| <= m
  }

  lemma Scaled(a: nat, b: nat, w: nat)
    requires a <= b
    ensures a * w <= b * w
  {
  }

  lemma SentPotential(roster: seq<Agent>, m: nat, s: State, cue: Cue, origin: nat, reached: nat, o: nat)
    requires AtMostPeers(roster, m)
    ensures Potential(m, Sent(roster, s, cue, origin, reached), o)
         <= Potential(m, s, o) + (if o == origin then m * Reach(m, cue.depth) else 0)
  {
    var peers := First(Peers(roster, cue.chat, cue.from), reached);
    var w := if o == origin then Reach(m, cue.depth) else 0;
    SumOfTwo(ReachOf(m, o), s.unread, Deliver(peers, cue, origin, s.nextUid));
    SumDelivered(ReachOf(m, o), peers, cue, origin, s.nextUid, w);
    Scaled(|peers|, m, w);
  }

  lemma WakePotential(f: Copy -> nat, s: State, soul: Soul)
    requires Enabled(s, Wake(soul))
    ensures var mine, rest := For(s.unread, soul, true), For(s.unread, soul, false);
      Sum(f, rest) + Sum(f, s.hand + Latest(mine)) <= Sum(f, s.unread) + Sum(f, s.hand)
  {
    SumSplits(f, s.unread, soul);
    SumLatest(f, For(s.unread, soul, true));
    SumOfTwo(f, s.hand, Latest(For(s.unread, soul, true)));
  }

  /** No step lets a chain grow beyond what its cues promised; a kickoff promises m full chains. */
  lemma StepPotential(roster: seq<Agent>, m: nat, s: State, st: Step, o: nat)
    requires AtMostPeers(roster, m) && Enabled(s, st)
    ensures Potential(m, Apply(roster, s, st), o)
         <= Potential(m, s, o) + (if st.Kickoff? && o == s.nextOrigin then m * Reach(m, 1) else 0)
  {
    var f := ReachOf(m, o);
    match st
    case Kickoff(from, chat, topic, message, reached) =>
      SentPotential(roster, m, s, Cue(from, chat, topic, message, DEFAULT_CHAIN_BUDGET, 1), s.nextOrigin, reached, o);
    case Wake(soul) => WakePotential(f, s, soul);
    case Take(i, outcome) => TakePotential(roster, m, s, i, outcome, o);
    case Die(soul) => SumSplits(f, s.hand, soul);
  }

  lemma TakenPotential(m: nat, s: State, i: nat, answered: bool, o: nat)
    requires i < |s.hand|
    ensures Potential(m, Taken(s, i, answered), o)
            + (if s.hand[i].origin == o then Reach(m, s.hand[i].cue.depth) else 0)
         == Potential(m, s, o) + (if answered && s.hand[i].origin == o then 1 else 0)
  {
    SumWithout(ReachOf(m, o), s.hand, i);
    CountAdd(s.replies, s.hand[i].origin, o);
  }

  /** An answer is one reply, and its relay promises what is left of the cue's reach. */
  lemma TakePotential(roster: seq<Agent>, m: nat, s: State, i: nat, outcome: Outcome, o: nat)
    requires AtMostPeers(roster, m) && Enabled(s, Take(i, outcome))
    ensures Potential(m, Apply(roster, s, Take(i, outcome)), o) <= Potential(m, s, o)
  {
    hide Reach, Potential, AtMostPeers, Sent, Peers, Taken;
    var c := s.hand[i];
    ReachPositive(m, c.cue.depth);
    TakenPotential(m, s, i, outcome.Answered?, o);
    if outcome.Answered? && MayRelay(c.cue) {
      SentPotential(roster, m, Taken(s, i, true), Relayed(c.to, c.cue, outcome.message), c.origin, outcome.reached, o);
      ReachStep(m, c.cue.depth);
    }
  }

  lemma ReachPositive(m: nat, depth: int)
    ensures Reach(m, depth) >= 1
  {
    if depth + 1 < MAX_AGENT_CHAIN_DEPTH {
      ReachStep(m, depth);
    }
  }

  lemma ReachStep(m: nat, depth: int)
    requires depth + 1 < MAX_AGENT_CHAIN_DEPTH
    ensures Reach(m, depth) == 1 + m * Reach(m, depth + 1)
  {
  }

  /** Origins not yet given out have no cues and no replies. */
  lemma StepKeepsFuture(roster: seq<Agent>, m: nat, s: State, st: Step, o: nat)
    requires AtMostPeers(roster, m) && Enabled(s, st)
    requires o >= s.nextOrigin ==> Potential(m, s, o) == 0
    ensures o >= Apply(roster, s, st).nextOrigin ==> Potential(m, Apply(roster, s, st), o) == 0
  {
    StepPotential(roster, m, s, st, o);
  }

  lemma {:induction false} TracePotential(roster: seq<Agent>, m: nat, s: State, steps: seq<Step>, o: nat)
    requires AtMostPeers(roster, m) && IsTrace(roster, s, steps)
    requires Potential(m, s, o) <= m * Reach(m, 1)
    requires o >= s.nextOrigin ==> Potential(m, s, o) == 0
    ensures Potential(m, After(roster, s, steps), o) <= m * Reach(m, 1)
    decreases |steps|
  {
    if steps != [] {
      StepPotential(roster, m, s, steps[0], o);
      StepKeepsFuture(roster, m, s, steps[0], o);
      TracePotential(roster, m, Apply(roster, s, steps[0]), steps[1..], o);
    }
  }

  function Power(m: nat, k: nat): nat {
    if k == 0 then 1 else m * Power(m, k - 1)
  }

  lemma FiveLevels(m: nat)
    ensures m * Reach(m, 1) == Power(m, 1) + Power(m, 2) + Power(m, 3) + Power(m, 4) + Power(m, 5)
  {
    hide Reach, Power;
    var p1, p2, p3, p4, p5 := m, m * m, m * (m * m), m * (m * (m * m)), m * (m * (m * (m * m)));
    Powers(m);
    Levels(m, 5, 1);
    Levels(m, 4, 1 + p1);
    assert m * (1 + p1) == p1 + p2;
    Levels(m, 3, 1 + p1 + p2);
    assert m * (1 + p1 + p2) == p1 + p2 + p3;
    Levels(m, 2, 1 + p1 + p2 + p3);
    assert m * (1 + p1 + p2 + p3) == p1 + p2 + p3 + p4;
    Levels(m, 1, 1 + p1 + p2 + p3 + p4);
    assert m * (1 + p1 + p2 + p3 + p4) == p1 + p2 + p3 + p4 + p5;
  }

  lemma Powers(m: nat)
    ensures Power(m, 1) == m && Power(m, 2) == m * m && Power(m, 3) == m * (m * m)
    ensures Power(m, 4) == m * (m * (m * m)) && Power(m, 5) == m * (m * (m * (m * m)))
  {
    assert Power(m, 0) == 1;
    assert Power(m, 1) == m * 1;
    assert Power(m, 2) == m * Power(m, 1);
    assert Power(m, 3) == m * Power(m, 2);
    assert Power(m, 4) == m * Power(m, 3);
  }

  lemma Levels(m: nat, depth: nat, r: nat)
    requires depth <= 5 && r == (if depth == 5 then 1 else 1 + m * Reach(m, depth + 1))
    ensures Reach(m, depth) == r
  {
  }

  /** With at most m peers in a chat, one kickoff leads to at most m + m^2 + m^3 + m^4 + m^5 agent replies, whatever the
      processes do and whenever they die. */
  lemma RepliesPerKickoff(roster: seq<Agent>, m: nat, steps: seq<Step>, origin: nat)
    requires AtMostPeers(roster, m) && IsTrace(roster, QUIET, steps)
    ensures Count(After(roster, QUIET, steps).replies, origin)
         <= Power(m, 1) + Power(m, 2) + Power(m, 3) + Power(m, 4) + Power(m, 5)
  {
    assert Potential(m, QUIET, origin) == 0;
    var bound := m * Reach(m, 1);
    FiveLevels(m);
    TracePotential(roster, m, QUIET, steps, origin);
    RepliesWithinPotential(m, After(roster, QUIET, steps), origin);
  }

  lemma RepliesWithinPotential(m: nat, s: State, origin: nat)
    ensures Count(s.replies, origin) <= Potential(m, s, origin)
  {
  }

  /***** Termination *****/

  function UnreadWork(m: nat): Copy -> nat {
    (c: Copy) => 2 * Reach(m, c.cue.depth)
  }

  function HandWork(m: nat): Copy -> nat {
    (c: Copy) => 2 * Reach(m, c.cue.depth) - 1
  }

  function Work(m: nat, s: State): nat {
    Sum(UnreadWork(m), s.unread) + Sum(HandWork(m), s.hand)
  }

  lemma {:induction false} HandIsLess(m: nat, copies: seq<Copy>)
    ensures Sum(HandWork(m), copies) + |copies| == Sum(UnreadWork(m), copies)
  {
    if copies != [] {
      HandIsLess(m, copies[1..]);
    }
  }

  /** Between kickoffs every step uses up work, so a chain left to itself ends. */
  lemma StepUsesWork(roster: seq<Agent>, m: nat, s: State, st: Step)
    requires AtMostPeers(roster, m) && Enabled(s, st) && !st.Kickoff?
    ensures Work(m, Apply(roster, s, st)) < Work(m, s)
  {
    match st
    case Wake(soul) =>
      var mine := For(s.unread, soul, true);
      SumSplits(UnreadWork(m), s.unread, soul);
      SumLatest(HandWork(m), mine);
      SumOfTwo(HandWork(m), s.hand, Latest(mine));
      HandIsLess(m, mine);
    case Take(i, outcome) => TakeUsesWork(roster, m, s, i, outcome);
    case Die(soul) => SumSplits(HandWork(m), s.hand, soul);
  }

  lemma TakeUsesWork(roster: seq<Agent>, m: nat, s: State, i: nat, outcome: Outcome)
    requires AtMostPeers(roster, m) && Enabled(s, Take(i, outcome))
    ensures Work(m, Apply(roster, s, Take(i, outcome))) < Work(m, s)
  {
    var c := s.hand[i];
    SumWithout(HandWork(m), s.hand, i);
    assert HandWork(m)(c) == 2 * Reach(m, c.cue.depth) - 1;
    if outcome.Answered? && MayRelay(c.cue) {
      var cue := Relayed(c.to, c.cue, outcome.message);
      var peers := First(Peers(roster, cue.chat, cue.from), outcome.reached);
      var sent := Deliver(peers, cue, c.origin, s.nextUid);
      SumOfTwo(UnreadWork(m), s.unread, sent);
      RelayWork(m, peers, cue, c.origin, s.nextUid);
      assert Reach(m, c.cue.depth) == 1 + m * Reach(m, cue.depth);
    }
  }

  lemma RelayWork(m: nat, peers: seq<Soul>, cue: Cue, origin: nat, uid: nat)
    requires |peers| <= m
    ensures Sum(UnreadWork(m), Deliver(peers, cue, origin, uid)) <= 2 * (m * Reach(m, cue.depth))
  {
    var r := Reach(m, cue.depth);
    SumDelivered(UnreadWork(m), peers, cue, origin, uid, 2 * r);
    Scaled(|peers|, m, 2 * r);
    assert m * (2 * r) == 2 * (m * r);
  }

  predicate NoKickoff(steps: seq<Step>) {
    forall i :: 0 <= i < |steps| ==> !steps[i].Kickoff?
  }

  /** After the last kickoff at most Work more steps can happen, however they are scheduled. */
  lemma {:induction false} ChainsEnd(roster: seq<Agent>, m: nat, s: State, steps: seq<Step>)
    requires AtMostPeers(roster, m) && IsTrace(roster, s, steps) && NoKickoff(steps)
    ensures |steps| + Work(m, After(roster, s, steps)) <= Work(m, s)
    decreases |steps|
  {
    if steps != [] {
      StepUsesWork(roster, m, s, steps[0]);
      ChainsEnd(roster, m, Apply(roster, s, steps[0]), steps[1..]);
    }
  }

  /***** Each delivery is dealt with at most once *****/

  function Is(uid: nat): Copy -> nat {
    (c: Copy) => if c.uid == uid then 1 else 0
  }

  /** How many places a delivery is in: an inbox unread, in a hand, or dealt with. */
  function Places(s: State, uid: nat): nat {
    Sum(Is(uid), s.unread) + Sum(Is(uid), s.hand) + Count(s.taken, uid)
  }

  predicate Once(s: State, uid: nat) {
    Places(s, uid) <= (if uid < s.nextUid then 1 else 0)
  }

  lemma {:induction false} DeliveredOnce(peers: seq<Soul>, cue: Cue, origin: nat, first: nat, uid: nat)
    ensures Sum(Is(uid), Deliver(peers, cue, origin, first)) == (if first <= uid < first + |peers| then 1 else 0)
  {
    if peers != [] {
      DeliveredOnce(peers[1..], cue, origin, first + 1, uid);
    }
  }

  lemma SentOnce(roster: seq<Agent>, s: State, cue: Cue, origin: nat, reached: nat, uid: nat)
    requires Once(s, uid)
    ensures Once(Sent(roster, s, cue, origin, reached), uid)
  {
    var peers := First(Peers(roster, cue.chat, cue.from), reached);
    SumOfTwo(Is(uid), s.unread, Deliver(peers, cue, origin, s.nextUid));
    DeliveredOnce(peers, cue, origin, s.nextUid, uid);
  }

  lemma TakenOnce(s: State, i: nat, answered: bool, uid: nat)
    requires i < |s.hand| && Once(s, uid)
    ensures Once(Taken(s, i, answered), uid)
  {
    SumWithout(Is(uid), s.hand, i);
    CountAdd(s.taken, s.hand[i].uid, uid);
  }

  lemma TakeKeepsOnce(roster: seq<Agent>, s: State, i: nat, outcome: Outcome, uid: nat)
    requires Once(s, uid) && Enabled(s, Take(i, outcome))
    ensures Once(Apply(roster, s, Take(i, outcome)), uid)
  {
    hide Once, Taken, Sent, Peers;
    var c := s.hand[i];
    TakenOnce(s, i, outcome.Answered?, uid);
    if outcome.Answered? && MayRelay(c.cue) {
      SentOnce(roster, Taken(s, i, true), Relayed(c.to, c.cue, outcome.message), c.origin, outcome.reached, uid);
    }
  }

  lemma KickoffKeepsOnce(roster: seq<Agent>, s: State, st: Step, uid: nat)
    requires Once(s, uid) && st.Kickoff?
    ensures Once(Apply(roster, s, st), uid)
  {
    hide Sent, Peers;
    var cue := Cue(st.from, st.chat, st.topic, st.message, DEFAULT_CHAIN_BUDGET, 1);
    SentOnce(roster, s, cue, s.nextOrigin, st.reached, uid);
  }

  lemma WakeKeepsOnce(roster: seq<Agent>, s: State, soul: Soul, uid: nat)
    requires Once(s, uid) && Enabled(s, Wake(soul))
    ensures Once(Apply(roster, s, Wake(soul)), uid)
  {
    WakePotential(Is(uid), s, soul);
  }

  lemma DieKeepsOnce(roster: seq<Agent>, s: State, soul: Soul, uid: nat)
    requires Once(s, uid) && Enabled(s, Die(soul))
    ensures Once(Apply(roster, s, Die(soul)), uid)
  {
    SumSplits(Is(uid), s.hand, soul);
  }

  lemma StepKeepsOnce(roster: seq<Agent>, s: State, st: Step, uid: nat)
    requires Once(s, uid) && Enabled(s, st)
    ensures Once(Apply(roster, s, st), uid)
  {
    hide Apply, Enabled, Once;
    match st
    case Kickoff(_, _, _, _, _) => KickoffKeepsOnce(roster, s, st, uid);
    case Wake(soul) => WakeKeepsOnce(roster, s, soul, uid);
    case Take(i, outcome) => TakeKeepsOnce(roster, s, i, outcome, uid);
    case Die(soul) => DieKeepsOnce(roster, s, soul, uid);
  }

  lemma {:induction false} TraceKeepsOnce(roster: seq<Agent>, s: State, steps: seq<Step>, uid: nat)
    requires Once(s, uid) && IsTrace(roster, s, steps)
    ensures Once(After(roster, s, steps), uid)
    decreases |steps|
  {
    if steps != [] {
      StepKeepsOnce(roster, s, steps[0], uid);
      TraceKeepsOnce(roster, Apply(roster, s, steps[0]), steps[1..], uid);
    }
  }

  /** No delivered cue is dealt with twice, and none is dealt with while it still waits somewhere. */
  lemma DealtWithAtMostOnce(roster: seq<Agent>, steps: seq<Step>, uid: nat)
    requires IsTrace(roster, QUIET, steps)
    ensures Places(After(roster, QUIET, steps), uid) <= 1
  {
    TraceKeepsOnce(roster, QUIET, steps, uid);
  }

  /***** The files behind the steps *****/

  function Cues(copies: seq<Copy>): seq<Cue> {
    if copies == [] then [] else Cues(copies[..|copies| - 1]) + [copies[|copies| - 1].cue]
  }

  /** The inbox of a soul holds, unread, exactly the copies under way to it, in order. */
  predicate Holds(lines: seq<Line>, s: State, soul: Soul) {
    Unread(lines) == Cues(For(s.unread, soul, true))
  }

  lemma ForNone(soul: Soul, mine: bool)
    ensures For([], soul, mine) == []
  {
  }

  lemma ForFirst(a: seq<Copy>, soul: Soul, mine: bool)
    requires a != []
    ensures For(a, soul, mine) == (if (a[0].to == soul) == mine then [a[0]] else []) + For(a[1..], soul, mine)
  {
  }

  lemma {:induction false} ForOfTwo(a: seq<Copy>, b: seq<Copy>, soul: Soul, mine: bool)
    ensures For(a + b, soul, mine) == For(a, soul, mine) + For(b, soul, mine)
  {
    hide For;
    if a == [] {
      ForNone(soul, mine);
      assert a + b == b;
    } else {
      ForOfTwo(a[1..], b, soul, mine);
      ForFirst(a, soul, mine);
      ForFirst(a + b, soul, mine);
      assert (a + b)[1..] == a[1..] + b;
    }
  }

  lemma {:induction false} DeliveredTo(peers: seq<Soul>, cue: Cue, origin: nat, uid: nat, soul: Soul)
    requires Distinct(peers)
    ensures |For(Deliver(peers, cue, origin, uid), soul, true)| == (if soul in peers then 1 else 0)
    ensures soul in peers ==> For(Deliver(peers, cue, origin, uid), soul, true)[0].cue == cue
  {
    if peers != [] {
      DeliveredTo(peers[1..], cue, origin, uid + 1, soul);
      assert peers == [peers[0]] + peers[1..];
      assert soul == peers[0] ==> soul !in peers[1..];
    }
  }

  /** What a broadcast, whole or cut short, appends to a file is what the step delivers to that soul. */
  lemma BroadcastDelivers(roster: seq<Agent>, lines: seq<Line>, s: State, cue: Cue, origin: nat, reached: nat,
                          soul: Soul)
    requires Holds(lines, s, soul)
    ensures var peers := First(Peers(roster, cue.chat, cue.from), reached);
      var appended := if soul in peers then [Stored(cue, false)] else [];
      Holds(lines + appended, Sent(roster, s, cue, origin, reached), soul)
  {
    var peers := First(Peers(roster, cue.chat, cue.from), reached);
    PeersAreTheHearers(roster, cue.chat, cue.from);
    var appended := if soul in peers then [Stored(cue, false)] else [];
    var sent := Deliver(peers, cue, origin, s.nextUid);
    DeliveredTo(peers, cue, origin, s.nextUid, soul);
    ForOfTwo(s.unread, sent, soul, true);
    UnreadOfTwo(lines, appended);
    OneMoreCue(For(s.unread, soul, true), For(sent, soul, true), cue);
    assert soul in peers ==> appended[1..] == [];
    assert soul !in peers ==> lines + appended == lines;
  }

  lemma OneMoreCue(before: seq<Copy>, one: seq<Copy>, cue: Cue)
    requires |one| <= 1 && (one != [] ==> one[0].cue == cue)
    ensures Cues(before + one) == Cues(before) + (if one == [] then [] else [cue])
  {
    if one == [] {
      assert before + one == before;
    } else {
      assert (before + one)[..|before|] == before;
    }
  }

  lemma {:induction false} CuesReplace(kept: seq<Copy>, c: Copy)
    ensures Cues(Replace(kept, c)) == Put(Cues(kept), c.cue)
  {
    if kept == [] {
      assert [c][..0] == [];
    } else {
      CuesFront(kept);
      if kept[0].cue.chat == c.cue.chat {
        CuesFront([c] + kept[1..]);
        assert ([c] + kept[1..])[1..] == kept[1..];
      } else {
        CuesReplace(kept[1..], c);
        CuesFront([kept[0]] + Replace(kept[1..], c));
        assert ([kept[0]] + Replace(kept[1..], c))[1..] == Replace(kept[1..], c);
      }
    }
  }

  lemma {:induction false} CuesFront(copies: seq<Copy>)
    requires copies != []
    ensures Cues(copies) == [copies[0].cue] + Cues(copies[1..])
  {
    var n := |copies| - 1;
    if n == 0 {
      assert copies[..0] == [] && copies[1..] == [];
    } else {
      var front, tail, last := copies[..n], copies[1..], copies[n].cue;
      CuesFront(front);
      assert front[1..] == tail[..n - 1] && front[0] == copies[0] && tail[n - 1] == copies[n];
      assert ([copies[0].cue] + Cues(front[1..])) + [last] == [copies[0].cue] + (Cues(tail[..n - 1]) + [last]);
    }
  }

  /** The cues a wake-up puts in hand are those the watcher's map keeps. */
  lemma {:induction false} LatestIsCollapse(copies: seq<Copy>)
    ensures Cues(Latest(copies)) == Collapse(Cues(copies))
  {
    if copies != [] {
      LatestIsCollapse(copies[..|copies| - 1]);
      CuesReplace(Latest(copies[..|copies| - 1]), copies[|copies| - 1]);
    }
  }
}
