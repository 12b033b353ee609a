/** What bets and cancellations conserve, for amounts of any precision: balances are rounded to 0.1 LP on every
    write, so the law is about rounded stakes, and a bet that ends in half a tenth is debited a tenth short. */
module PredictConservation {
  import opened PredictLedger
  import opened PredictEscrow

  /** The amounts whose debit and credit round apart. */
  predicate HalfTenth(amount: nat) {
    amount % TENTH == TENTH / 2
  }

  function Short(amount: nat): nat {
    if HalfTenth(amount) then TENTH else 0
  }

  lemma RoundParts(tenths: nat, rest: nat)
    requires rest < TENTH
    ensures RoundNat(TENTH * tenths + rest) == TENTH * tenths + (if rest >= TENTH / 2 then TENTH else 0)
  {
  }

  lemma DebitRounds(balance: int, amount: nat)
    requires OnGrid(balance) && amount <= balance
    ensures balance - Round(balance - amount) == RoundNat(amount) - Short(amount)
  {
    hide RoundNat;
    var q, r, b := amount / TENTH, amount % TENTH, balance / TENTH;
    assert amount == TENTH * q + r && balance == TENTH * b;
    RoundParts(q, r);
    if r == 0 {
      RoundParts(b - q, 0);
    } else {
      assert balance - amount == TENTH * (b - q - 1) + (TENTH - r);
      RoundParts(b - q - 1, TENTH - r);
    }
  }

  lemma CreditRounds(balance: nat, amount: nat)
    requires OnGrid(balance)
    ensures Round(balance + amount) == balance + RoundNat(amount)
  {
    hide RoundNat;
    var q, r, b := amount / TENTH, amount % TENTH, balance / TENTH;
    assert amount == TENTH * q + r && balance == TENTH * b;
    assert balance + amount == TENTH * (b + q) + r;
    RoundParts(q, r);
    RoundParts(b + q, r);
  }

  lemma CreditMoves(balances: map<string, int>, account: string, amount: nat, other: string)
    requires BalancesOk(balances)
    ensures var after := Moved(balances, account, amount);
      && BalancesOk(after) && Total(after) == Total(balances) + RoundNat(amount)
      && Balance(after, other) == Balance(balances, other) + (if other == account then RoundNat(amount) else 0)
  {
    hide RoundNat;
    MovedOk(balances, account, amount);
    CreditRounds(Balance(balances, account), amount);
  }

  lemma DebitMoves(balances: map<string, int>, account: string, amount: nat)
    requires BalancesOk(balances) && Balance(balances, account) >= amount
    ensures var after := Moved(balances, account, -(amount as int));
      && BalancesOk(after) && Total(after) == Total(balances) - RoundNat(amount) + Short(amount)
      && Balance(after, account) == Balance(balances, account) - RoundNat(amount) + Short(amount)
  {
    hide RoundNat;
    MovedOk(balances, account, -(amount as int));
    DebitRounds(Balance(balances, account), amount);
  }

  /** A debit followed by the same credit leaves a balance as it was, exactly unless the amount ends in half a tenth:
      then it has grown by a tenth. */
  lemma RoundTrip(balances: map<string, int>, account: string, amount: nat)
    requires BalancesOk(balances) && Balance(balances, account) >= amount
    ensures var there := Moved(balances, account, -(amount as int));
      var back := Moved(there, account, amount);
      && Balance(back, account) == Balance(balances, account) + Short(amount)
      && (Total(back) == Total(balances) <==> !HalfTenth(amount))
  {
    hide Moved, RoundNat;
    DebitMoves(balances, account, amount);
    CreditMoves(Moved(balances, account, -(amount as int)), account, amount, account);
  }

  const SAMPLE := World(map[], map["a" := 100000], map[1 := Proposal(["x"], 10000, 100000, Active, "a")], [], {})

  /** For instance 10 LP, a bet of 1.25 LP and its cancellation make 10.1 LP. */
  lemma OffGridMints()
    ensures Sound(SAMPLE) && Accepts(SAMPLE, "a", 1, "x", 12500)
    ensures var t := Apply(SAMPLE, Place("a", 1, "x", 12500, Recorded));
      && t.balances == map["a" := 88000]
      && Apply(t, Cancel("a", false, 1, [Refunded], true)).balances == map["a" := 101000]
  {
    var bet := Bet(1, "a", "x", 12500, false);
    forall u, n: nat ensures Capped(SAMPLE, u, n) { }
    assert Sum(StakeOf("a", 1), []) == 0;
    var t := Apply(SAMPLE, Place("a", 1, "x", 12500, Recorded));
    assert t.bets == [bet];
    assert Outstanding([bet], 1, 0) == [];
    assert Outstanding([bet], 1, 1) == [0];
    var done := RefundEach(t, [0], [Refunded]);
    assert done == RefundEach(RefundOne(t, 0, Refunded), [0][1..], [Refunded][1..]);
    assert [0][1..] == [];
  }

  /** What a recorded bet does to balances and exact stakes together: they are conserved exactly for multiples of
      0.1 LP, and do not rise exactly for those and for amounts above a half tenth. */
  lemma PlaceConservesIff(w: World, user: string, num: nat, option: string, amount: nat)
    requires BalancesOk(w.balances) && Accepts(w, user, num, option, amount)
    ensures var t := BetPlaced(w, user, num, option, amount, Recorded);
      && (Escrow(t) == Escrow(w) <==> OnGrid(amount))
      && (Escrow(t) <= Escrow(w) <==> OnGrid(amount) || amount % TENTH > TENTH / 2)
      && Escrow(w) - TENTH / 2 <= Escrow(t) <= Escrow(w) + TENTH / 2
  {
    var account := Account(w, user);
    var b := Balance(w.balances, account);
    MovedOk(w.balances, account, -(amount as int));
    SumOneMore(LiveStake(w.proposals), w.bets, Bet(num, user, option, amount, false));
    DebitRounds(b, amount);
    RoundedAmount(amount);
  }

  /***** Balances and rounded stakes *****/

  function RoundedStake(proposals: map<nat, Proposal>): Bet -> nat {
    (b: Bet) => if !b.refunded && IsActive(proposals, b.proposal) then RoundNat(b.amount) else 0
  }

  function RoundedOn(num: nat): Bet -> nat {
    (b: Bet) => if !b.refunded && b.proposal == num then RoundNat(b.amount) else 0
  }

  ghost function RoundedEscrow(w: World): int {
    Total(w.balances) + Sum(RoundedStake(w.proposals), w.bets)
  }

  /** What a command debits too little. */
  function ShortDebit(w: World, c: Command): nat {
    if c.Place? && Accepts(w, c.user, c.num, c.option, c.amount) && !c.recording.LostInRollback? then Short(c.amount)
    else 0
  }

  function ShortDebits(w: World, cs: seq<Command>): nat
    decreases |cs|
  {
    if cs == [] then 0 else ShortDebit(w, cs[0]) + ShortDebits(Apply(w, cs[0]), cs[1..])
  }

  lemma PlaceRounded(w: World, user: string, num: nat, option: string, amount: nat, recording: Recording)
    requires BalancesOk(w.balances)
    ensures var t, short := BetPlaced(w, user, num, option, amount, recording),
                            ShortDebit(w, Place(user, num, option, amount, recording));
      && RoundedEscrow(t) <= RoundedEscrow(w) + short
      && (!recording.LostInRollback? ==> RoundedEscrow(t) == RoundedEscrow(w) + short)
  {
    hide Accepts, Moved, RoundNat;
    if Accepts(w, user, num, option, amount) {
      DebitTotal(w, user, num, option, amount);
      match recording
      case Recorded => AcceptedOnActive(w, user, num, option, amount);
      case RolledBack =>
      case LostInRollback =>
    }
  }

  lemma AcceptedOnActive(w: World, user: string, num: nat, option: string, amount: nat)
    requires Accepts(w, user, num, option, amount)
    ensures Sum(RoundedStake(w.proposals), w.bets + [Bet(num, user, option, amount, false)])
         == Sum(RoundedStake(w.proposals), w.bets) + RoundNat(amount)
  {
    SumOneMore(RoundedStake(w.proposals), w.bets, Bet(num, user, option, amount, false));
  }

  /** What the debit of an accepted bet, and its rollback, do to all balances together. */
  lemma DebitTotal(w: World, user: string, num: nat, option: string, amount: nat)
    requires BalancesOk(w.balances) && Accepts(w, user, num, option, amount)
    ensures var account := Account(w, user);
      var debited := Moved(w.balances, account, -(amount as int));
      && Total(debited) == Total(w.balances) - RoundNat(amount) + Short(amount) <= Total(w.balances)
      && Total(Moved(debited, account, amount)) == Total(w.balances) + Short(amount)
  {
    hide Moved, RoundNat;
    var account := Account(w, user);
    DebitMoves(w.balances, account, amount);
    RoundedAmount(amount);
    CreditMoves(Moved(w.balances, account, -(amount as int)), account, amount, account);
  }

  lemma RefundOneRounded(w: World, num: nat, id: nat, r: Refunding)
    requires BalancesOk(w.balances) && IsActive(w.proposals, num)
    requires id < |w.bets| && w.bets[id].proposal == num && !w.bets[id].refunded
    ensures BalancesOk(RefundOne(w, id, r).balances) && RoundedEscrow(RefundOne(w, id, r)) <= RoundedEscrow(w)
    ensures r.Refunded? ==> RoundedEscrow(RefundOne(w, id, r)) == RoundedEscrow(w)
  {
    hide Moved, RoundNat;
    var b := w.bets[id];
    CreditMoves(w.balances, Account(w, b.user), b.amount, b.user);
    SumChanged(RoundedStake(w.proposals), w.bets, id, b.(refunded := true));
  }

  predicate AllRefunded(refunds: seq<Refunding>) {
    forall i :: 0 <= i < |refunds| ==> refunds[i].Refunded?
  }

  predicate Refundable(w: World, num: nat, ids: seq<nat>) {
    && (forall i :: 0 <= i < |ids| ==>
          ids[i] < |w.bets| && w.bets[ids[i]].proposal == num && !w.bets[ids[i]].refunded)
    && (forall i, j :: 0 <= i < j < |ids| ==> ids[i] < ids[j])
  }

  lemma {:induction false} RefundEachRounded(w: World, num: nat, ids: seq<nat>, refunds: seq<Refunding>)
    requires BalancesOk(w.balances) && IsActive(w.proposals, num) && Refundable(w, num, ids)
    ensures RoundedEscrow(RefundEach(w, ids, refunds)) <= RoundedEscrow(w)
    ensures AllRefunded(refunds) ==> RoundedEscrow(RefundEach(w, ids, refunds)) == RoundedEscrow(w)
    decreases |ids|
  {
    if ids != [] && refunds != [] {
      RefundOneRounded(w, num, ids[0], refunds[0]);
      var next := RefundOne(w, ids[0], refunds[0]);
      assert Refundable(next, num, ids[1..]);
      RefundEachRounded(next, num, ids[1..], refunds[1..]);
    }
  }

  /** The loop marks the bets it got to and touches no other. */
  lemma {:induction false} RefundEachMarks(w: World, ids: seq<nat>, refunds: seq<Refunding>, id: nat)
    requires id < |w.bets| && forall i :: 0 <= i < |ids| ==> ids[i] < |w.bets|
    ensures var t := RefundEach(w, ids, refunds);
      && |t.bets| == |w.bets|
      && (t.bets[id] == w.bets[id] || t.bets[id] == w.bets[id].(refunded := true))
      && (id !in ids ==> t.bets[id] == w.bets[id])
      && (id in ids && |refunds| >= |ids| && AllRefunded(refunds) ==> t.bets[id].refunded)
    decreases |ids|
  {
    if ids != [] && refunds != [] {
      assert id in ids <==> id == ids[0] || id in ids[1..];
      RefundEachMarks(RefundOne(w, ids[0], refunds[0]), ids[1..], refunds[1..], id);
    }
  }

  /** If it got to all of them, no bet on the proposal is left. */
  lemma AllMarked(w: World, num: nat, refunds: seq<Refunding>)
    requires AllRefunded(refunds) && |refunds| >= |Outstanding(w.bets, num, |w.bets|)|
    requires var ids := Outstanding(w.bets, num, |w.bets|); forall i :: 0 <= i < |ids| ==> ids[i] < |w.bets|
    ensures var done := RefundEach(w, Outstanding(w.bets, num, |w.bets|), refunds).bets;
      forall b :: b in done && b.proposal == num ==> b.refunded
  {
    var ids := Outstanding(w.bets, num, |w.bets|);
    OutstandingFacts(w.bets, num, |w.bets|);
    RefundEachFrame(w, ids, refunds);
    var done := RefundEach(w, ids, refunds);
    forall b | b in done.bets && b.proposal == num ensures b.refunded {
      var id: nat :| id < |done.bets| && done.bets[id] == b;
      RefundEachMarks(w, ids, refunds, id);
    }
  }

  lemma CloseRounded(w: World, num: nat, status: Status)
    requires IsActive(w.proposals, num) && !status.Active?
    ensures RoundedEscrow(WithStatus(w, num, status)) == RoundedEscrow(w) - Sum(RoundedOn(num), w.bets)
  {
    SumAdds(RoundedStake(w.proposals), RoundedStake(WithStatus(w, num, status).proposals), RoundedOn(num), w.bets);
  }

  lemma OutstandingRefundable(w: World, num: nat)
    ensures Refundable(w, num, Outstanding(w.bets, num, |w.bets|))
  {
    OutstandingFacts(w.bets, num, |w.bets|);
    var ids := Outstanding(w.bets, num, |w.bets|);
    forall i | 0 <= i < |ids| ensures w.bets[ids[i]].proposal == num && !w.bets[ids[i]].refunded {
      assert ids[i] in ids;
    }
  }

  lemma CancelRounded(w: World, who: string, judge: bool, num: nat, refunds: seq<Refunding>, closes: bool)
    requires BalancesOk(w.balances)
    ensures var t := ProposalCancelled(w, who, judge, num, refunds, closes);
      && RoundedEscrow(t) <= RoundedEscrow(w)
      && (AllRefunded(refunds) ==> RoundedEscrow(t) == RoundedEscrow(w))
  {
    if MayCancel(w, who, judge, num) {
      var ids := Outstanding(w.bets, num, |w.bets|);
      OutstandingRefundable(w, num);
      RefundEachFrame(w, ids, refunds);
      RefundEachRounded(w, num, ids, refunds);
      var done := RefundEach(w, ids, refunds);
      CloseRounded(done, num, Cancelled);
      if |refunds| >= |ids| && AllRefunded(refunds) {
        AllMarked(w, num, refunds);
        SumNothing(RoundedOn(num), done.bets);
      }
    }
  }

  predicate Faultless(c: Command) {
    (c.Place? ==> !c.recording.LostInRollback?) && (c.Cancel? ==> AllRefunded(c.refunds))
  }

  lemma BettingStep(w: World, c: Command)
    requires Sound(w) && !c.Announce?
    ensures RoundedEscrow(Apply(w, c)) <= RoundedEscrow(w) + ShortDebit(w, c)
    ensures Faultless(c) ==> RoundedEscrow(Apply(w, c)) == RoundedEscrow(w) + ShortDebit(w, c)
  {
    match c
    case Propose(num, p) =>
      var t := Apply(w, c);
      SumAdds(RoundedStake(t.proposals), RoundedStake(w.proposals), (b: Bet) => 0, w.bets);
      SumNothing((b: Bet) => 0, w.bets);
    case Place(user, num, option, amount, recording) => PlaceRounded(w, user, num, option, amount, recording);
    case Cancel(who, judge, num, refunds, closes) => CancelRounded(w, who, judge, num, refunds, closes);
  }

  /** Over any run of bets of any amounts and cancellations: balances and rounded live stakes together grow by one
      tenth for every bet debited that ends in half a tenth, and by nothing else; failing refunds and rollbacks
      only lose LP. */
  lemma {:induction false} EscrowConserved(w: World, cs: seq<Command>)
    requires Sound(w) && forall i :: 0 <= i < |cs| ==> !cs[i].Announce?
    ensures RoundedEscrow(After(w, cs)) <= RoundedEscrow(w) + ShortDebits(w, cs)
    ensures (forall i :: 0 <= i < |cs| ==> Faultless(cs[i])) ==>
              RoundedEscrow(After(w, cs)) == RoundedEscrow(w) + ShortDebits(w, cs)
    decreases |cs|
  {
    if cs != [] {
      BettingStep(w, cs[0]);
      StepKeepsSound(w, cs[0]);
      EscrowConserved(Apply(w, cs[0]), cs[1..]);
    }
  }

  /** So without any such bet nothing is ever gained. */
  lemma NothingGained(w: World, cs: seq<Command>)
    requires Sound(w) && forall i :: 0 <= i < |cs| ==> !cs[i].Announce? && (cs[i].Place? ==> !HalfTenth(cs[i].amount))
    ensures RoundedEscrow(After(w, cs)) <= RoundedEscrow(w)
  {
    EscrowConserved(w, cs);
    NoShortDebits(w, cs);
  }

  lemma {:induction false} NoShortDebits(w: World, cs: seq<Command>)
    requires forall i :: 0 <= i < |cs| ==> cs[i].Place? ==> !HalfTenth(cs[i].amount)
    ensures ShortDebits(w, cs) == 0
    decreases |cs|
  {
    if cs != [] {
      NoShortDebits(Apply(w, cs[0]), cs[1..]);
    }
  }

  /** With multiples of 0.1 LP rounded stakes are the stakes themselves. */
  lemma {:induction false} GridStakes(proposals: map<nat, Proposal>, bets: seq<Bet>)
    requires forall b :: b in bets ==> OnGrid(b.amount)
    ensures Sum(RoundedStake(proposals), bets) == Sum(LiveStake(proposals), bets)
  {
    if bets != [] {
      var b := bets[|bets| - 1];
      GridStakes(proposals, bets[..|bets| - 1]);
      RoundedAmount(b.amount);
    }
  }

  predicate BetsOnGrid(bets: seq<Bet>) {
    forall id :: 0 <= id < |bets| ==> OnGrid(bets[id].amount)
  }

  lemma {:induction false} RunKeepsGrid(w: World, cs: seq<Command>)
    requires BetsOnGrid(w.bets) && forall i :: 0 <= i < |cs| ==> cs[i].Place? ==> OnGrid(cs[i].amount)
    ensures BetsOnGrid(After(w, cs).bets)
    decreases |cs|
  {
    if cs != [] {
      var c := cs[0];
      if c.Cancel? && MayCancel(w, c.who, c.judge, c.num) {
        OutstandingFacts(w.bets, c.num, |w.bets|);
        RefundEachFrame(w, Outstanding(w.bets, c.num, |w.bets|), c.refunds);
        forall id: nat | id < |w.bets| ensures OnGrid(Apply(w, c).bets[id].amount) {
          RefundEachMarks(w, Outstanding(w.bets, c.num, |w.bets|), c.refunds, id);
        }
      }
      RunKeepsGrid(Apply(w, c), cs[1..]);
    }
  }

  /** Then balances and live stakes themselves never rise, and stay the same in faultless runs. */
  lemma GridEscrowConserved(w: World, cs: seq<Command>)
    requires Sound(w) && BetsOnGrid(w.bets)
    requires forall i :: 0 <= i < |cs| ==> !cs[i].Announce? && (cs[i].Place? ==> OnGrid(cs[i].amount))
    ensures Escrow(After(w, cs)) <= Escrow(w)
    ensures (forall i :: 0 <= i < |cs| ==> Faultless(cs[i])) ==> Escrow(After(w, cs)) == Escrow(w)
  {
    EscrowConserved(w, cs);
    NoShortDebits(w, cs);
    RunKeepsGrid(w, cs);
    GridStakes(w.proposals, w.bets);
    GridStakes(After(w, cs).proposals, After(w, cs).bets);
  }

  /***** Who gets what back *****/

  /** A cancellation whose refunds all succeed leaves no stake behind. */
  lemma CancelLeavesNothing(w: World, who: string, judge: bool, num: nat, refunds: seq<Refunding>)
    requires MayCancel(w, who, judge, num) && AllRefunded(refunds)
    requires |refunds| >= |Outstanding(w.bets, num, |w.bets|)|
    ensures var t := ProposalCancelled(w, who, judge, num, refunds, true);
      t.proposals[num].status.Cancelled? && Sum(StakeOn(num), t.bets) == 0
  {
    var ids := Outstanding(w.bets, num, |w.bets|);
    OutstandingRefundable(w, num);
    RefundEachFrame(w, ids, refunds);
    AllMarked(w, num, refunds);
    SumNothing(StakeOn(num), RefundEach(w, ids, refunds).bets);
  }

  /** The refunds due to an account on a proposal, for the bets of all open_ids linked to it. */
  function RefundTo(w: World, account: string, num: nat): Bet -> nat {
    (b: Bet) => if !b.refunded && b.proposal == num && Account(w, b.user) == account then RoundNat(b.amount) else 0
  }

  lemma RefundOneGives(w: World, id: nat, account: string, num: nat)
    requires BalancesOk(w.balances) && id < |w.bets| && w.bets[id].proposal == num && !w.bets[id].refunded
    ensures var t := RefundOne(w, id, Refunded);
      && BalancesOk(t.balances)
      && Balance(t.balances, account) + Sum(RefundTo(w, account, num), t.bets)
         == Balance(w.balances, account) + Sum(RefundTo(w, account, num), w.bets)
  {
    hide Moved, RoundNat;
    var b := w.bets[id];
    CreditMoves(w.balances, Account(w, b.user), b.amount, account);
    SumChanged(RefundTo(w, account, num), w.bets, id, b.(refunded := true));
  }

  lemma {:induction false} RefundEachGives(w: World, num: nat, ids: seq<nat>, refunds: seq<Refunding>, account: string)
    requires BalancesOk(w.balances) && Refundable(w, num, ids) && AllRefunded(refunds)
    ensures var t := RefundEach(w, ids, refunds);
      Balance(t.balances, account) + Sum(RefundTo(w, account, num), t.bets)
      == Balance(w.balances, account) + Sum(RefundTo(w, account, num), w.bets)
    decreases |ids|
  {
    if ids != [] && refunds != [] {
      RefundOneGives(w, ids[0], account, num);
      var next := RefundOne(w, ids[0], refunds[0]);
      assert Refundable(next, num, ids[1..]);
      RefundEachGives(next, num, ids[1..], refunds[1..], account);
      SameRefunds(w, next, account, num, RefundEach(next, ids[1..], refunds[1..]).bets);
      SameRefunds(w, next, account, num, next.bets);
    }
  }

  lemma SameRefunds(w: World, t: World, account: string, num: nat, bets: seq<Bet>)
    requires w.links == t.links
    ensures Sum(RefundTo(w, account, num), bets) == Sum(RefundTo(t, account, num), bets)
  {
    SumAdds(RefundTo(w, account, num), RefundTo(t, account, num), (b: Bet) => 0, bets);
    SumNothing((b: Bet) => 0, bets);
  }

  /** Everybody gets back what they themselves had put in, each bet rounded to 0.1 LP, and nobody else gets anything. */
  lemma CancelGivesBackToEach(w: World, who: string, judge: bool, num: nat, refunds: seq<Refunding>, account: string)
    requires BalancesOk(w.balances) && MayCancel(w, who, judge, num) && AllRefunded(refunds)
    requires |refunds| >= |Outstanding(w.bets, num, |w.bets|)|
    ensures Balance(ProposalCancelled(w, who, judge, num, refunds, true).balances, account)
         == Balance(w.balances, account) + Sum(RefundTo(w, account, num), w.bets)
  {
    var ids := Outstanding(w.bets, num, |w.bets|);
    OutstandingRefundable(w, num);
    RefundEachFrame(w, ids, refunds);
    RefundEachGives(w, num, ids, refunds, account);
    AllMarked(w, num, refunds);
    SumNothing(RefundTo(w, account, num), RefundEach(w, ids, refunds).bets);
  }
}
