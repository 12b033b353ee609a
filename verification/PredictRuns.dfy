/** Runs in which bets, cancellations and announcements mix, and what each command does in them. */
module PredictRuns {
  import opened PredictLedger
  import opened PredictEscrow
  import opened PredictConservation
  import opened PredictSettlement

  /** Whatever went before, announcements included, a bet or a cancellation conserves balances and rounded live stakes
      up to the half tenth of its debit. */
  lemma BettingConservesAnytime(links: map<string, string>, balances: map<string, int>, cs: seq<Command>, c: Command)
    requires BalancesOk(balances) && !c.Announce?
    ensures var w := After(Opening(links, balances), cs);
      && RoundedEscrow(Apply(w, c)) <= RoundedEscrow(w) + ShortDebit(w, c)
      && (Faultless(c) ==> RoundedEscrow(Apply(w, c)) == RoundedEscrow(w) + ShortDebit(w, c))
  {
    hide Sound, Apply, RoundedEscrow, ShortDebit;
    OpeningIsSound(links, balances);
    RunKeepsSound(Opening(links, balances), cs);
    BettingStep(After(Opening(links, balances), cs), c);
  }

  /** What an announcement may add, in thousandths: 15.5% of the stakes, what rounding the stakes had taken off them,
      and 0.055 LP. */
  function Premium(w: World, c: Command): int {
    if c.Announce? && MayAnnounce(w, c.judge, c.num, c.option) then
      155 * Sum(StakeOn(c.num), w.bets) + 1000 * (Sum(StakeOn(c.num), w.bets) - Sum(RoundedOn(c.num), w.bets))
      + 550 * TENTH
    else 0
  }

  function Premiums(w: World, cs: seq<Command>): int
    decreases |cs|
  {
    if cs == [] then 0 else Premium(w, cs[0]) + Premiums(Apply(w, cs[0]), cs[1..])
  }

  lemma AnnouncementRounded(w: World, c: Command)
    requires Sound(w) && c.Announce?
    ensures 1000 * (RoundedEscrow(Apply(w, c)) - RoundedEscrow(w)) <= Premium(w, c)
  {
    if MayAnnounce(w, c.judge, c.num, c.option) {
      MintIsBounded(w, c.judge, c.num, c.option, c.grants);
      CloseRounded(w, c.num, Settled);
    }
  }

  /** Over any run from a sound start: balances and rounded live stakes together grow by at most a tenth for every debit
      that ends in half a tenth and the premium of every announcement that takes effect. */
  lemma {:induction false} MixedRunsBounded(w: World, cs: seq<Command>)
    requires Sound(w)
    ensures 1000 * (RoundedEscrow(After(w, cs)) - RoundedEscrow(w)) <= 1000 * ShortDebits(w, cs) + Premiums(w, cs)
    decreases |cs|
  {
    hide Sound, Apply, RoundedEscrow, Premium;
    if cs != [] {
      if cs[0].Announce? {
        AnnouncementRounded(w, cs[0]);
      } else {
        BettingStep(w, cs[0]);
        assert Premium(w, cs[0]) == 0 by { NoPremium(w, cs[0]); }
      }
      StepKeepsSound(w, cs[0]);
      MixedRunsBounded(Apply(w, cs[0]), cs[1..]);
    }
  }

  lemma NoPremium(w: World, c: Command)
    requires !c.Announce?
    ensures Premium(w, c) == 0
  {
  }

  /***** What each command does *****/

  /** The account behind an open_id: what it is linked to, or itself. */
  predicate IsAccountOf(w: World, user: string, account: string) {
    if user in w.links && w.links[user] != "" then account == w.links[user] else account == user
  }

  /** A bet that the debit can pay is taken exactly if the proposal is open, has the option, and the amount is positive,
      no less than the minimum, and no more than what the limit leaves and the balance holds. Otherwise nothing changes.
      What happens to an accepted one is decided by its writes: recorded, rolled back, or debited and lost. */
  lemma BetTakenIff(w: World, user: string, account: string, num: nat, option: string, amount: nat,
                    recording: Recording)
    requires IsAccountOf(w, user, account)
    ensures var t := Apply(w, Place(user, num, option, amount, recording));
      var debited := w.balances[account := Round(Balance(w.balances, account) - amount)];
      if num in w.proposals && w.proposals[num].status == Active && option in w.proposals[num].options
         && 1 <= amount <= Balance(w.balances, account)
         && w.proposals[num].minBet <= amount <= w.proposals[num].maxBet - Sum(StakeOf(user, num), w.bets)
      then
        && t.bets == (if recording == Recorded then w.bets + [Bet(num, user, option, amount, false)] else w.bets)
        && t.balances == (if recording == RolledBack
                          then debited[account := Round(debited[account] + amount)] else debited)
        && t.proposals == w.proposals && t.settled == w.settled
      else t == w
  {
  }

  /** A new member starts with 120 LP; nobody else's balance is touched. */
  lemma FirstContact(balances: map<string, int>, account: string, other: string)
    ensures account in Seeded(balances, account)
    ensures account !in balances ==> Seeded(balances, account)[account] == 1200000
    ensures other in balances ==>
              other in Seeded(balances, account) && Seeded(balances, account)[other] == balances[other]
  {
  }

  /** A number that is new opens a proposal as described; one that is taken changes nothing. */
  lemma ProposalOpens(w: World, num: nat, p: Proposal)
    ensures var t := Apply(w, Propose(num, p));
      && (num in w.proposals ==> t == w)
      && (num !in w.proposals ==>
            && t.bets == w.bets && t.balances == w.balances && t.settled == w.settled
            && t.proposals == w.proposals[num := Proposal(p.options, p.minBet, p.maxBet, Active, p.creator)])
  {
  }

  /** What a refund loop with these outcomes credits an account. */
  function GivenBack(w: World, ids: seq<nat>, refunds: seq<Refunding>, account: string): nat
    requires forall i :: 0 <= i < |ids| ==> ids[i] < |w.bets|
  {
    if ids == [] || refunds == [] then 0
    else
      var b := w.bets[ids[0]];
      (if refunds[0] == Refunded && Account(w, b.user) == account then RoundNat(b.amount) else 0)
      + GivenBack(w, ids[1..], refunds[1..], account)
  }

  lemma {:induction false} SameGivenBack(w: World, t: World, ids: seq<nat>, refunds: seq<Refunding>, account: string)
    requires forall i :: 0 <= i < |ids| ==> ids[i] < |w.bets|
    requires |t.bets| == |w.bets| && t.links == w.links
    requires forall id :: id in ids ==> id < |w.bets| && t.bets[id].user == w.bets[id].user
                                        && t.bets[id].amount == w.bets[id].amount
    ensures GivenBack(t, ids, refunds, account) == GivenBack(w, ids, refunds, account)
    decreases |ids|
  {
    if ids != [] && refunds != [] {
      assert ids[0] in ids && forall id :: id in ids[1..] ==> id in ids;
      SameGivenBack(w, t, ids[1..], refunds[1..], account);
    }
  }

  lemma RefundStep(w: World, id: nat, r: Refunding, account: string)
    requires BalancesOk(w.balances) && id < |w.bets|
    ensures var t := RefundOne(w, id, r);
      && BalancesOk(t.balances) && t.links == w.links
      && t.bets == w.bets[id := if r == MarkThrows then w.bets[id] else w.bets[id].(refunded := true)]
      && Balance(t.balances, account) == Balance(w.balances, account)
         + (if r == Refunded && Account(w, w.bets[id].user) == account then RoundNat(w.bets[id].amount) else 0)
  {
    hide Round, RoundNat;
    CreditMoves(w.balances, Account(w, w.bets[id].user), w.bets[id].amount, account);
    assert w.bets[id := w.bets[id]] == w.bets;
  }

  lemma {:induction false} CreditsByOutcome(w: World, num: nat, ids: seq<nat>, refunds: seq<Refunding>, account: string)
    requires BalancesOk(w.balances) && Refundable(w, num, ids)
    ensures Balance(RefundEach(w, ids, refunds).balances, account)
         == Balance(w.balances, account) + GivenBack(w, ids, refunds, account)
    decreases |ids|
  {
    hide RefundOne, RoundNat, Balance, BalancesOk;
    if ids != [] && refunds != [] {
      var id, next := ids[0], RefundOne(w, ids[0], refunds[0]);
      RefundStep(w, id, refunds[0], account);
      assert Refundable(next, num, ids[1..]);
      CreditsByOutcome(next, num, ids[1..], refunds[1..], account);
      SameGivenBack(w, next, ids[1..], refunds[1..], account);
    }
  }

  lemma {:induction false} MarksByOutcome(w: World, num: nat, ids: seq<nat>, refunds: seq<Refunding>)
    requires Refundable(w, num, ids)
    ensures var t := RefundEach(w, ids, refunds);
      && |t.bets| == |w.bets|
      && (forall i :: 0 <= i < |ids| ==>
            t.bets[ids[i]] == w.bets[ids[i]].(refunded := i < |refunds| && refunds[i] != MarkThrows))
      && (forall id: nat :: id < |w.bets| && id !in ids ==> t.bets[id] == w.bets[id])
    decreases |ids|
  {
    if ids != [] && refunds != [] {
      var id, next := ids[0], RefundOne(w, ids[0], refunds[0]);
      assert forall i :: 0 < i < |ids| ==> ids[i] == ids[1..][i - 1] && ids[i] != id;
      assert forall x :: x in ids <==> x == id || x in ids[1..];
      MarkStep(w, id, refunds[0]);
      assert Refundable(next, num, ids[1..]);
      hide RefundOne, Refundable;
      MarksByOutcome(next, num, ids[1..], refunds[1..]);
    }
  }

  lemma MarkStep(w: World, id: nat, r: Refunding)
    requires id < |w.bets|
    ensures RefundOne(w, id, r).bets
         == w.bets[id := if r == MarkThrows then w.bets[id] else w.bets[id].(refunded := true)]
  {
    assert w.bets[id := w.bets[id]] == w.bets;
  }

  /** A bet the loop got to is marked exactly if its mark did not throw, and paid back exactly if neither that nor the
      grant did; a bet it did not get to is as it was. */
  lemma RefundsByOutcome(w: World, num: nat, ids: seq<nat>, refunds: seq<Refunding>, account: string)
    requires BalancesOk(w.balances) && Refundable(w, num, ids)
    ensures var t := RefundEach(w, ids, refunds);
      && |t.bets| == |w.bets|
      && (forall i :: 0 <= i < |ids| ==>
            t.bets[ids[i]] == w.bets[ids[i]].(refunded := i < |refunds| && refunds[i] != MarkThrows))
      && (forall id: nat :: id < |w.bets| && id !in ids ==> t.bets[id] == w.bets[id])
      && Balance(t.balances, account) == Balance(w.balances, account) + GivenBack(w, ids, refunds, account)
  {
    MarksByOutcome(w, num, ids, refunds);
    CreditsByOutcome(w, num, ids, refunds, account);
  }

  /** An announcement takes effect exactly if a judge makes it on an open proposal for an option it has. The proposal is
      settled then, even if a grant throws, and all its bets that are not refunded are counted. Otherwise nothing
      changes. */
  lemma AnnouncedIff(w: World, judge: bool, num: nat, option: string, grants: nat, id: nat)
    ensures var t := Apply(w, Announce(judge, num, option, grants));
      if judge && num in w.proposals && w.proposals[num].status == Active && option in w.proposals[num].options
      then
        && t.proposals == w.proposals[num := w.proposals[num].(status := Settled)]
        && t.bets == w.bets && t.links == w.links
        && (id in t.settled <==>
              id in w.settled || (id < |w.bets| && w.bets[id].proposal == num && !w.bets[id].refunded))
      else t == w
  {
    OutstandingFacts(w.bets, num, |w.bets|);
  }

  /** Only winners that get something are granted anything. */
  lemma {:induction false} PayoutsArePositive(w: World, num: nat, option: string, total: nat, winning: nat,
                                              bets: seq<Bet>)
    ensures forall g :: g in Payouts(w, num, option, total, winning, bets) ==> g.amount > 0
  {
    if bets != [] {
      PayoutsArePositive(w, num, option, total, winning, bets[..|bets| - 1]);
    }
  }
}
