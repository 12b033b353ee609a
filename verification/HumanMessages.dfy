/** What one human message can lead to: the bots that answer it, their restarts and re-runs (ReplyMachine), and the
    chains that their answers start (PeerChain), as one system. */
module HumanMessages {
  import opened PeerInbox
  import C = PeerChain
  import R = ReplyMachine

  datatype Option<T> = None | Some(value: T)

  /** The reply a bot owes to a message: the bot and the message's number there. */
  datatype Owed = Owed(soul: Soul, id: nat)

  /** What the code broadcasts once a genuine group reply is sent; `reached` peers hear it before the process dies. */
  datatype Spoken = Spoken(chat: Chat, topic: string, message: string, reached: nat)

  /** `kicked` says for each chain so far, in order, after which reply it was started. */
  datatype Community = Community(bots: map<Soul, R.State>, chain: C.State, kicked: seq<Owed>)

  const SILENT := Community(map[], C.QUIET, [])

  datatype Step =
    | Work(soul: Soul, did: R.Step, spoken: Option<Spoken>)
    | Listen(heard: C.Step)

  function BotOf(s: Community, soul: Soul): R.State {
    if soul in s.bots then s.bots[soul] else R.INITIAL
  }

  /** A chain is started right after sending, and only for an answer. A re-run no longer knows whether its message came
      from a group, so it may start one whatever the first run did. */
  predicate Enabled(s: Community, st: Step) {
    match st
    case Work(soul, did, spoken) =>
      R.Enabled(BotOf(s, soul), did) && (spoken.Some? ==> did.Send? && BotOf(s, soul).active[did.f].answered)
    case Listen(heard) => (heard.Wake? || heard.Take?) && C.Enabled(s.chain, heard)
  }

  /** What happens to the chains: a bot that dies takes the cues in its hand with it. */
  function ChainStep(s: Community, st: Step): Option<C.Step> {
    match st
    case Work(soul, _, Some(k)) => Some(C.Kickoff(soul, k.chat, k.topic, k.message, k.reached))
    case Work(soul, Restart(_), None) => if C.For(s.chain.hand, soul, true) != [] then Some(C.Die(soul)) else None
    case Work(_, _, None) => None
    case Listen(heard) => Some(heard)
  }

  function NextChain(roster: seq<Agent>, s: Community, st: Step): C.State
    requires Enabled(s, st)
  {
    match ChainStep(s, st)
    case None => s.chain
    case Some(step) => C.Apply(roster, s.chain, step)
  }

  function Apply(roster: seq<Agent>, s: Community, st: Step): Community
    requires Enabled(s, st)
  {
    match st
    case Work(soul, did, spoken) =>
      var bot := BotOf(s, soul);
      Community(s.bots[soul := R.Apply(bot, did)], NextChain(roster, s, st),
                if spoken.Some? then s.kicked + [Owed(soul, bot.active[did.f].job.id)] else s.kicked)
    case Listen(_) => s.(chain := NextChain(roster, s, st))
  }

  predicate IsTrace(roster: seq<Agent>, s: Community, steps: seq<Step>)
    decreases |steps|
  {
    steps != [] ==> Enabled(s, steps[0]) && IsTrace(roster, Apply(roster, s, steps[0]), steps[1..])
  }

  function After(roster: seq<Agent>, s: Community, steps: seq<Step>): Community
    requires IsTrace(roster, s, steps)
    decreases |steps|
  {
    if steps == [] then s else After(roster, Apply(roster, s, steps[0]), steps[1..])
  }

  /** Every bot and the chains go on as they do alone; only two things join them: an answer that is sent may start a
      chain, which starts with its words, and a bot that dies forgets the cues it holds. */
  lemma EachGoesOnAsAlone(roster: seq<Agent>, s: Community, soul: Soul, did: R.Step, k: Spoken, heard: C.Step)
    ensures (heard.Wake? || heard.Take?) && C.Enabled(s.chain, heard) ==>
              && Enabled(s, Listen(heard))
              && Apply(roster, s, Listen(heard)) == Community(s.bots, C.Apply(roster, s.chain, heard), s.kicked)
    ensures R.Enabled(BotOf(s, soul), did) ==>
              && Enabled(s, Work(soul, did, None))
              && var t := Apply(roster, s, Work(soul, did, None));
                 && t.bots == s.bots[soul := R.Apply(BotOf(s, soul), did)] && t.kicked == s.kicked
                 && t.chain.unread == s.chain.unread && t.chain.replies == s.chain.replies
                 && forall c :: c in t.chain.hand <==> c in s.chain.hand && !(did.Restart? && c.to == soul)
    ensures did.Send? && R.Enabled(BotOf(s, soul), did) && BotOf(s, soul).active[did.f].answered ==>
              && Enabled(s, Work(soul, did, Some(k)))
              && var t := Apply(roster, s, Work(soul, did, Some(k)));
                 && C.Broadcast(roster, s.chain.unread, t.chain.unread,
                                Cue(soul, k.chat, k.topic, k.message, 8, 1), k.reached)
                 && t.kicked == s.kicked + [Owed(soul, BotOf(s, soul).active[did.f].job.id)]
  {
    hide R.Apply, C.Apply, C.Broadcast;
    C.KickoffIsBroadcast(roster, s.chain, soul, k.chat, k.topic, k.message, k.reached);
    DyingForgets(roster, s.chain, soul);
  }

  lemma DyingForgets(roster: seq<Agent>, chain: C.State, soul: Soul)
    ensures C.For(chain.hand, soul, true) != [] ==>
              var t := C.Apply(roster, chain, C.Die(soul));
              && t.unread == chain.unread && t.replies == chain.replies
              && forall c :: c in t.hand <==> c in chain.hand && c.to != soul
    ensures C.For(chain.hand, soul, true) == [] ==> forall c :: c in chain.hand ==> c.to != soul
  {
    C.ForIsPart(chain.hand, soul, true);
    C.ForIsPart(chain.hand, soul, false);
    if C.For(chain.hand, soul, true) == [] {
      forall c | c in chain.hand ensures c.to != soul {
        assert c !in C.For(chain.hand, soul, true);
      }
    }
  }

  /***** How often a reply starts a chain *****/

  function Kicks(kicked: seq<Owed>, owed: Owed): nat {
    if kicked == [] then 0
    else Kicks(kicked[..|kicked| - 1], owed) + (if kicked[|kicked| - 1] == owed then 1 else 0)
  }

  /** 1 while a run of the message has yet to send. */
  function YetToSend(bot: R.State, id: nat): nat {
    if |bot.active| == 1 && bot.active[0].job.id == id && !bot.active[0].stage.Closing? then 1 else 0
  }

  predicate Sends(bot: R.State, did: R.Step, id: nat) {
    did.Send? && did.f < |bot.active| && bot.active[did.f].job.id == id
  }

  /** How many more times a start of the message can be followed by a send. */
  function Unspent(bot: R.State, id: nat): int {
    R.Acc(bot, id).starts - YetToSend(bot, id)
  }

  predicate Serial(bot: R.State) {
    |bot.active| == if bot.processing then 1 else 0
  }

  lemma PumpUnspent(bot: R.State, id: nat)
    requires Serial(bot)
    ensures Unspent(R.Pump(bot), id) == Unspent(bot, id)
  {
  }

  lemma ClosingUnspent(bot: R.State, f: nat, removed: bool, id: nat)
    requires Serial(bot) && R.Enabled(bot, R.Close(f, removed))
    ensures Serial(R.Ended(bot, f, removed)) && Unspent(R.Ended(bot, f, removed), id) == Unspent(bot, id)
  {
    assert R.Ended(bot, f, removed).active == [];
  }

  /** Every send uses up a start. */
  lemma SendUsesAStart(bot: R.State, did: R.Step, id: nat)
    requires R.Placed(bot) && R.Enabled(bot, did)
    ensures Unspent(R.Apply(bot, did), id) >= Unspent(bot, id) + (if Sends(bot, did, id) then 1 else 0)
  {
    hide R.IdsKnown, R.ArrivingOk, R.QueueOk, R.TodoOk, R.Pump;
    match did
    case Enqueue(job) => PumpUnspent(R.Push(bot.(arriving := bot.arriving - {job}), job), id);
    case RecoverPump => PumpUnspent(bot, id);
    case Close(f, removed) =>
      ClosingUnspent(bot, f, removed, id);
      PumpUnspent(R.Ended(bot, f, removed), id);
    case _ =>
      if R.OfRunning(did) {
        RunningUnspent(bot, did, id);
      } else {
        OtherUnspent(bot, did, id);
      }
  }

  lemma RunningUnspent(bot: R.State, did: R.Step, id: nat)
    requires Serial(bot) && R.Enabled(bot, did) && R.OfRunning(did)
    ensures Unspent(R.ApplyRunning(bot, did), id) >= Unspent(bot, id) + (if Sends(bot, did, id) then 1 else 0)
  {
    assert did.f == 0;
  }

  lemma OtherUnspent(bot: R.State, did: R.Step, id: nat)
    requires R.Enabled(bot, did) && !R.OfRunning(did)
    requires !did.Enqueue? && !did.RecoverPump? && !did.Close?
    ensures Unspent(R.Apply(bot, did), id) >= Unspent(bot, id)
  {
  }

  /***** Every run *****/

  ghost predicate ChainBounded(m: nat, chain: C.State) {
    forall o: nat :: C.Potential(m, chain, o) <= if o < chain.nextOrigin then m * C.Reach(m, 1) else 0
  }

  ghost predicate BotsOk(s: Community) {
    forall soul :: R.Inv(BotOf(s, soul))
  }

  ghost predicate KicksBounded(s: Community) {
    forall owed: Owed :: Kicks(s.kicked, owed) <= Unspent(BotOf(s, owed.soul), owed.id)
  }

  ghost predicate Sound(m: nat, s: Community) {
    ChainBounded(m, s.chain) && BotsOk(s) && KicksBounded(s) && |s.kicked| == s.chain.nextOrigin
  }

  lemma ChainStepBounded(roster: seq<Agent>, m: nat, chain: C.State, st: C.Step)
    requires C.AtMostPeers(roster, m) && ChainBounded(m, chain) && C.Enabled(chain, st)
    ensures ChainBounded(m, C.Apply(roster, chain, st))
    ensures C.Apply(roster, chain, st).nextOrigin == chain.nextOrigin + (if st.Kickoff? then 1 else 0)
  {
    hide C.Potential, C.AtMostPeers, C.Enabled, C.Reach;
    var t := C.Apply(roster, chain, st);
    forall o: nat ensures C.Potential(m, t, o) <= if o < t.nextOrigin then m * C.Reach(m, 1) else 0 {
      C.StepPotential(roster, m, chain, st, o);
    }
  }

  lemma KicksAdd(kicked: seq<Owed>, one: Owed, owed: Owed)
    ensures Kicks(kicked + [one], owed) == Kicks(kicked, owed) + (if one == owed then 1 else 0)
  {
    assert (kicked + [one])[..|kicked|] == kicked;
  }

  lemma WorkKeepsKicks(roster: seq<Agent>, s: Community, st: Step)
    requires BotsOk(s) && KicksBounded(s) && Enabled(s, st) && st.Work?
    ensures KicksBounded(Apply(roster, s, st))
  {
    hide Kicks, Unspent, NextChain, R.Apply, R.Placed;
    var t, bot := Apply(roster, s, st), BotOf(s, st.soul);
    assert R.Inv(bot);
    forall owed: Owed ensures Kicks(t.kicked, owed) <= Unspent(BotOf(t, owed.soul), owed.id) {
      assert Kicks(s.kicked, owed) <= Unspent(BotOf(s, owed.soul), owed.id);
      SendUsesAStart(bot, st.did, owed.id);
      if st.spoken.Some? {
        KicksAdd(s.kicked, Owed(st.soul, bot.active[st.did.f].job.id), owed);
      }
    }
  }

  lemma WorkKeepsBots(roster: seq<Agent>, s: Community, st: Step)
    requires BotsOk(s) && Enabled(s, st) && st.Work?
    ensures BotsOk(Apply(roster, s, st))
  {
    hide R.Inv, R.Apply, R.Enabled, NextChain;
    var t := Apply(roster, s, st);
    R.StepKeepsInv(BotOf(s, st.soul), st.did);
    forall soul ensures R.Inv(BotOf(t, soul)) {
      assert R.Inv(BotOf(s, soul));
    }
  }

  lemma StepKeepsSound(roster: seq<Agent>, m: nat, s: Community, st: Step)
    requires C.AtMostPeers(roster, m) && Sound(m, s) && Enabled(s, st)
    ensures Sound(m, Apply(roster, s, st))
  {
    hide ChainBounded, BotsOk, KicksBounded, C.Apply, R.Apply, C.AtMostPeers;
    var step := ChainStep(s, st);
    if step.Some? {
      ChainStepBounded(roster, m, s.chain, step.value);
    }
    if st.Work? {
      WorkKeepsBots(roster, s, st);
      WorkKeepsKicks(roster, s, st);
    } else {
      SameBots(s, Apply(roster, s, st));
    }
  }

  lemma SameBots(s: Community, t: Community)
    requires BotsOk(s) && KicksBounded(s) && t.bots == s.bots && t.kicked == s.kicked
    ensures BotsOk(t) && KicksBounded(t)
  {
    assert forall soul :: BotOf(t, soul) == BotOf(s, soul);
  }

  lemma {:induction false} TraceKeepsSound(roster: seq<Agent>, m: nat, s: Community, steps: seq<Step>)
    requires C.AtMostPeers(roster, m) && Sound(m, s) && IsTrace(roster, s, steps)
    ensures Sound(m, After(roster, s, steps))
    decreases |steps|
  {
    hide Sound, Apply, Enabled;
    if steps != [] {
      StepKeepsSound(roster, m, s, steps[0]);
      TraceKeepsSound(roster, m, Apply(roster, s, steps[0]), steps[1..]);
    }
  }

  lemma StartsSound(m: nat)
    ensures Sound(m, SILENT)
  {
    R.StartsInv();
  }

  lemma {:induction false} TraceKeepsKicks(roster: seq<Agent>, s: Community, steps: seq<Step>)
    requires BotsOk(s) && KicksBounded(s) && IsTrace(roster, s, steps)
    ensures BotsOk(After(roster, s, steps)) && KicksBounded(After(roster, s, steps))
    decreases |steps|
  {
    hide BotsOk, KicksBounded, Enabled;
    if steps != [] {
      if steps[0].Work? {
        WorkKeepsBots(roster, s, steps[0]);
        WorkKeepsKicks(roster, s, steps[0]);
      } else {
        SameBots(s, Apply(roster, s, steps[0]));
      }
      TraceKeepsKicks(roster, Apply(roster, s, steps[0]), steps[1..]);
    }
  }

  /** A reply starts no more chains than it was started itself, however often it is killed and re-run. */
  lemma KickoffsWithinStarts(roster: seq<Agent>, steps: seq<Step>, s: Community, owed: Owed)
    requires IsTrace(roster, SILENT, steps) && s == After(roster, SILENT, steps)
    ensures var account := R.Acc(BotOf(s, owed.soul), owed.id);
      Kicks(s.kicked, owed) <= account.starts <= 3 + account.lostBumps
  {
    StartsSound(0);
    TraceKeepsKicks(roster, SILENT, steps);
    var bot := BotOf(s, owed.soul);
    assert R.Inv(bot) && R.Bounded(bot, owed.id);
    assert Kicks(s.kicked, owed) <= Unspent(bot, owed.id);
  }

  /***** Replies by message *****/

  /** The agent replies in all chains that the answers to this message started. */
  function RepliesTo(kicked: seq<Owed>, replies: seq<nat>, owed: Owed): nat {
    if kicked == [] then 0
    else
      var n := |kicked| - 1;
      RepliesTo(kicked[..n], replies, owed) + (if kicked[n] == owed then C.Count(replies, n) else 0)
  }

  lemma {:induction false} RepliesPerKick(kicked: seq<Owed>, replies: seq<nat>, owed: Owed, bound: nat)
    requires forall o: nat :: C.Count(replies, o) <= bound
    ensures RepliesTo(kicked, replies, owed) <= Kicks(kicked, owed) * bound
  {
    if kicked != [] {
      var n := |kicked| - 1;
      var before := Kicks(kicked[..n], owed);
      RepliesPerKick(kicked[..n], replies, owed, bound);
      assert (before + 1) * bound == before * bound + bound;
    }
  }

  /** The sum of the replies over all bots that answer the message. */
  function RepliesToAll(s: Community, answers: seq<Owed>): nat {
    if answers == [] then 0
    else RepliesToAll(s, answers[..|answers| - 1]) + RepliesTo(s.kicked, s.chain.replies, answers[|answers| - 1])
  }

  /** Three starts for each of them, and one for each attempt bump it lost. */
  function StartsAllowed(s: Community, answers: seq<Owed>): nat {
    if answers == [] then 0
    else
      var owed := answers[|answers| - 1];
      StartsAllowed(s, answers[..|answers| - 1]) + 3 + R.Acc(BotOf(s, owed.soul), owed.id).lostBumps
  }

  function PerKickoff(m: nat): nat {
    C.Power(m, 1) + C.Power(m, 2) + C.Power(m, 3) + C.Power(m, 4) + C.Power(m, 5)
  }

  lemma AnswerIsBounded(m: nat, s: Community, owed: Owed)
    requires Sound(m, s)
    ensures RepliesTo(s.kicked, s.chain.replies, owed)
         <= (3 + R.Acc(BotOf(s, owed.soul), owed.id).lostBumps) * PerKickoff(m)
  {
    hide C.Power, C.Reach, R.Placed, R.InOrder;
    var bot, kicks := BotOf(s, owed.soul), Kicks(s.kicked, owed);
    assert R.Inv(bot) && R.Bounded(bot, owed.id);
    C.FiveLevels(m);
    forall o: nat ensures C.Count(s.chain.replies, o) <= PerKickoff(m) {
      C.RepliesWithinPotential(m, s.chain, o);
    }
    RepliesPerKick(s.kicked, s.chain.replies, owed, PerKickoff(m));
    C.Scaled(kicks, 3 + R.Acc(bot, owed.id).lostBumps, PerKickoff(m));
  }

  lemma {:induction false} AnswersAreBounded(m: nat, s: Community, answers: seq<Owed>)
    requires Sound(m, s)
    ensures RepliesToAll(s, answers) <= StartsAllowed(s, answers) * PerKickoff(m)
  {
    hide Sound, PerKickoff, RepliesTo;
    if answers != [] {
      var n := |answers| - 1;
      var owed, before := answers[n], StartsAllowed(s, answers[..n]);
      var more := 3 + R.Acc(BotOf(s, owed.soul), owed.id).lostBumps;
      AnswersAreBounded(m, s, answers[..n]);
      AnswerIsBounded(m, s, owed);
      assert (before + more) * PerKickoff(m) == before * PerKickoff(m) + more * PerKickoff(m);
    }
  }

  /** A message that the bots in `answers` reply to leads to at most (3 + lost attempt bumps) * (m + ... + m^5) further
      agent replies for each of them, with at most m peers in a chat, whatever dies and is re-run on the way. */
  lemma RepliesPerHumanMessage(roster: seq<Agent>, m: nat, steps: seq<Step>, s: Community, answers: seq<Owed>)
    requires C.AtMostPeers(roster, m) && IsTrace(roster, SILENT, steps) && s == After(roster, SILENT, steps)
    ensures RepliesToAll(s, answers) <= StartsAllowed(s, answers) * PerKickoff(m)
  {
    StartsSound(m);
    TraceKeepsSound(roster, m, SILENT, steps);
    AnswersAreBounded(m, s, answers);
  }
}
