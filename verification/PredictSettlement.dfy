/** How a settlement pays out: never more than 105% of the stakes to winners, short of it by less than a tenth
    per winner, and a bounded extra for the public-welfare chest. */
module PredictSettlement {
  import opened PredictLedger
  import opened PredictEscrow

  function GrantSum(grants: seq<Grant>): nat {
    if grants == [] then 0 else GrantSum(grants[..|grants| - 1]) + grants[|grants| - 1].amount
  }

  function WinnerCount(num: nat, option: string, bets: seq<Bet>): nat {
    if bets == [] then 0
    else
      WinnerCount(num, option, bets[..|bets| - 1])
      + (if WinningStake(num, option)(bets[|bets| - 1]) > 0 then 1 else 0)
  }

  lemma GrantSumOfTwo(a: seq<Grant>, g: Grant)
    ensures GrantSum(a + [g]) == GrantSum(a) + g.amount
  {
    assert (a + [g])[..|a|] == a;
  }

  /** A payout is the winner's exact share of the pool, less than a tenth of an LP short. */
  lemma PayoutFacts(total: nat, winning: nat, amount: nat)
    requires winning > 0
    ensures OnGrid(Payout(total, winning, amount))
    ensures 100 * (Payout(total, winning, amount) * winning) <= 105 * (total * amount)
    ensures 105 * (total * amount) < 100 * ((Payout(total, winning, amount) + TENTH) * winning)
  {
    var n, d := 105 * (total * amount), 100 * TENTH * winning;
    var q := Quotient(n, d);
    assert q * d == 100 * ((q * TENTH) * winning);
    assert q * d + d == 100 * ((q * TENTH + TENTH) * winning);
  }

  lemma Monotone(a: int, b: int, c: nat)
    ensures a <= b ==> a * c <= b * c
  {
    assert b * c == a * c + (b - a) * c;
  }

  lemma GridBelow(x: nat, y: nat)
    requires OnGrid(x) && OnGrid(y)
    ensures x < y ==> x + TENTH <= y
  {
  }

  function RoundUp(amount: nat): nat {
    (amount + TENTH - 1) / TENTH * TENTH
  }

  lemma RoundUpFacts(amount: nat)
    ensures OnGrid(RoundUp(amount)) && amount <= RoundUp(amount) < amount + TENTH
    ensures OnGrid(amount) ==> RoundUp(amount) == amount
  {
  }

  /** Whoever backed the announced option gets at least the stake back exactly if the share of the pool, before it is
      floored, reaches the stake rounded up to 0.1 LP. */
  lemma WinnersNeverLoseIff(total: nat, winning: nat, amount: nat)
    requires winning > 0
    ensures Payout(total, winning, amount) >= amount
       <==> 105 * (total * amount) >= 100 * (RoundUp(amount) * winning)
  {
    PayoutFacts(total, winning, amount);
    RoundUpFacts(amount);
    var p, up := Payout(total, winning, amount), RoundUp(amount);
    GridBelow(p, up);
    Monotone(p + TENTH, up, winning);
    Monotone(up, p, winning);
    if amount <= p {
      GridBelow(p, up);
    }
  }

  /** Stakes in multiples of 0.1 LP always come back. */
  lemma WinnersNeverLose(total: nat, winning: nat, amount: nat)
    requires 0 < winning <= total && OnGrid(amount)
    ensures Payout(total, winning, amount) >= amount
  {
    WinnersNeverLoseIff(total, winning, amount);
    RoundUpFacts(amount);
    Monotone(winning, total, amount);
    assert winning * amount == amount * winning;
  }

  /** A lone winning bet of 1.01 LP is paid 1.0 LP. */
  lemma LoneWinnerLoses()
    ensures Payout(10100, 10100, 10100) == 10000
  {
    PayoutFacts(10100, 10100, 10100);
  }

  /** `paid` is what `count` winners with `stake` between them are due, each less than a tenth short. */
  predicate Shares(total: nat, winning: nat, paid: nat, stake: nat, count: nat) {
    && 100 * (paid * winning) <= 105 * (total * stake)
    && (if count == 0 then stake == 0 else 105 * (total * stake) < 100 * ((paid + TENTH * count) * winning))
  }

  lemma SharesAdd(total: nat, winning: nat, paid: nat, p: nat, stake: nat, amount: nat, count: nat)
    requires Shares(total, winning, paid, stake, count)
    requires 100 * (p * winning) <= 105 * (total * amount) < 100 * ((p + TENTH) * winning)
    ensures Shares(total, winning, paid + p, stake + amount, count + 1)
  {
    assert (paid + p) * winning == paid * winning + p * winning;
    assert total * (stake + amount) == total * stake + total * amount;
    assert (paid + p + TENTH * (count + 1)) * winning == (paid + TENTH * count) * winning + (p + TENTH) * winning;
  }

  /** What the last bet adds to what is paid. */
  lemma PayoutsLast(w: World, num: nat, option: string, total: nat, winning: nat, bets: seq<Bet>)
    requires winning > 0 && bets != []
    ensures var n := |bets| - 1;
      GrantSum(Payouts(w, num, option, total, winning, bets))
      == GrantSum(Payouts(w, num, option, total, winning, bets[..n]))
         + (if WinningStake(num, option)(bets[n]) > 0 then Payout(total, winning, bets[n].amount) else 0)
  {
    hide Payout;
    var n := |bets| - 1;
    var before := Payouts(w, num, option, total, winning, bets[..n]);
    GrantSumOfTwo(before, Grant(Account(w, bets[n].user), Payout(total, winning, bets[n].amount)));
    assert before + [] == before;
  }

  lemma SharesStep(total: nat, winning: nat, paid: nat, stake: nat, amount: nat, count: nat)
    requires winning > 0 && Shares(total, winning, paid, stake, count)
    ensures Shares(total, winning, paid + Payout(total, winning, amount), stake + amount, count + 1)
  {
    hide Payout;
    PayoutFacts(total, winning, amount);
    SharesAdd(total, winning, paid, Payout(total, winning, amount), stake, amount, count);
  }

  lemma NoShares(total: nat, winning: nat)
    ensures Shares(total, winning, 0, 0, 0)
  {
  }

  lemma {:induction false} PayoutsSum(w: World, num: nat, option: string, total: nat, winning: nat, bets: seq<Bet>)
    requires winning > 0
    ensures Shares(total, winning, GrantSum(Payouts(w, num, option, total, winning, bets)),
                   Sum(WinningStake(num, option), bets), WinnerCount(num, option, bets))
  {
    hide Shares, Payout;
    if bets == [] {
      NoShares(total, winning);
    } else {
      hide Payouts, GrantSum;
      var n := |bets| - 1;
      PayoutsSum(w, num, option, total, winning, bets[..n]);
      PayoutsLast(w, num, option, total, winning, bets);
      if WinningStake(num, option)(bets[n]) > 0 {
        SharesStep(total, winning, GrantSum(Payouts(w, num, option, total, winning, bets[..n])),
                   Sum(WinningStake(num, option), bets[..n]), bets[n].amount, WinnerCount(num, option, bets[..n]));
      }
    }
  }

  /** All winners together get at most 105% of all stakes, and all of it but less than 0.1 LP for each of them. */
  lemma WinnersShareThePool(w: World, num: nat, option: string)
    ensures var total, winning := Sum(StakeOn(num), w.bets), Sum(WinningStake(num, option), w.bets);
      var paid := GrantSum(Payouts(w, num, option, total, winning, w.bets));
      && 100 * paid <= 105 * total
      && (winning > 0 ==> 105 * total < 100 * (paid + TENTH * WinnerCount(num, option, w.bets)))
  {
    var total, winning := Sum(StakeOn(num), w.bets), Sum(WinningStake(num, option), w.bets);
    if winning > 0 {
      PayoutsSum(w, num, option, total, winning, w.bets);
      WholePool(total, winning, GrantSum(Payouts(w, num, option, total, winning, w.bets)),
                WinnerCount(num, option, w.bets));
    } else {
      NobodyPaid(w, num, option, total, w.bets);
    }
  }

  lemma WholePool(total: nat, winning: nat, paid: nat, count: nat)
    requires winning > 0 && Shares(total, winning, paid, winning, count)
    ensures 100 * paid <= 105 * total < 100 * (paid + TENTH * count)
  {
    var up := 100 * (paid + TENTH * count);
    assert 100 * (paid * winning) == (100 * paid) * winning;
    assert 105 * (total * winning) == (105 * total) * winning;
    assert 100 * ((paid + TENTH * count) * winning) == up * winning;
    Cancels(100 * paid, 105 * total, winning);
    StrictlyCancels(105 * total, up, winning);
  }

  lemma StrictlyCancels(a: int, b: int, c: nat)
    requires a * c < b * c
    ensures a < b
  {
    Monotone(b, a, c);
  }

  lemma Cancels(a: int, b: int, c: nat)
    requires c > 0 && a * c <= b * c
    ensures a <= b
  {
    Monotone(b + 1, a, c);
    assert (b + 1) * c == b * c + c;
  }

  lemma {:induction false} NobodyPaid(w: World, num: nat, option: string, total: nat, bets: seq<Bet>)
    ensures GrantSum(Payouts(w, num, option, total, 0, bets)) == 0
  {
    if bets != [] {
      NobodyPaid(w, num, option, total, bets[..|bets| - 1]);
      assert Payouts(w, num, option, total, 0, bets) == Payouts(w, num, option, total, 0, bets[..|bets| - 1]);
    }
  }

  lemma {:induction false} PayoutsOnGrid(w: World, num: nat, option: string, total: nat, winning: nat, bets: seq<Bet>)
    ensures forall g :: g in Payouts(w, num, option, total, winning, bets) ==> OnGrid(g.amount)
  {
    if bets != [] {
      PayoutsOnGrid(w, num, option, total, winning, bets[..|bets| - 1]);
      if winning > 0 {
        PayoutFacts(total, winning, bets[|bets| - 1].amount);
      }
    }
  }

  /** Grants on the grid land exactly; any last grant lands within half a tenth. */
  lemma {:induction false} GrantAllTotal(balances: map<string, int>, grants: seq<Grant>)
    requires BalancesOk(balances) && forall g :: g in grants ==> OnGrid(g.amount)
    ensures Total(GrantAll(balances, grants)) == Total(balances) + GrantSum(grants)
  {
    if grants != [] {
      var n := |grants| - 1;
      GrantAllTotal(balances, grants[..n]);
      GrantAllOk(balances, grants[..n]);
      MovedOk(GrantAll(balances, grants[..n]), grants[n].account, grants[n].amount);
    }
  }

  lemma {:induction false} PrefixSum(grants: seq<Grant>, n: nat)
    requires n <= |grants|
    ensures GrantSum(grants[..n]) <= GrantSum(grants)
    decreases |grants|
  {
    if n == |grants| {
      assert grants[..n] == grants;
    } else {
      PrefixSum(grants[..|grants| - 1], n);
      assert grants[..|grants| - 1][..n] == grants[..n];
    }
  }

  /** What one account is granted. */
  function Received(grants: seq<Grant>, account: string): nat {
    if grants == [] then 0
    else
      Received(grants[..|grants| - 1], account)
      + (if grants[|grants| - 1].account == account then grants[|grants| - 1].amount else 0)
  }

  /** What the owner of an account is due for winning bets. */
  function Due(w: World, account: string, num: nat, option: string, total: nat, winning: nat): Bet -> nat {
    (b: Bet) =>
      if winning > 0 && !b.refunded && b.proposal == num && b.option == option && b.amount > 0
         && Account(w, b.user) == account
      then Payout(total, winning, b.amount) else 0
  }

  lemma ReceivedLast(w: World, account: string, num: nat, option: string, total: nat, winning: nat, bets: seq<Bet>)
    requires winning > 0 && bets != []
    ensures var n := |bets| - 1;
      Received(Payouts(w, num, option, total, winning, bets), account)
      == Received(Payouts(w, num, option, total, winning, bets[..n]), account)
         + Due(w, account, num, option, total, winning)(bets[n])
  {
    hide Payout;
    var n := |bets| - 1;
    var before := Payouts(w, num, option, total, winning, bets[..n]);
    var g := Grant(Account(w, bets[n].user), Payout(total, winning, bets[n].amount));
    assert (before + [g])[..|before|] == before;
    assert before + [] == before;
  }

  lemma {:induction false} PayoutsGoToBackers(w: World, account: string, num: nat, option: string, total: nat,
                                              winning: nat, bets: seq<Bet>)
    requires winning > 0
    ensures Received(Payouts(w, num, option, total, winning, bets), account)
         == Sum(Due(w, account, num, option, total, winning), bets)
  {
    hide Payout, Due;
    if bets != [] {
      hide Payouts, Received;
      PayoutsGoToBackers(w, account, num, option, total, winning, bets[..|bets| - 1]);
      ReceivedLast(w, account, num, option, total, winning, bets);
    }
  }

  lemma {:induction false} GrantsArrive(balances: map<string, int>, grants: seq<Grant>, account: string)
    requires BalancesOk(balances) && forall g :: g in grants ==> OnGrid(g.amount)
    ensures Balance(GrantAll(balances, grants), account) == Balance(balances, account) + Received(grants, account)
  {
    hide Round, OnGrid;
    if grants != [] {
      var n := |grants| - 1;
      var before, g := GrantAll(balances, grants[..n]), grants[n];
      GrantsArrive(balances, grants[..n], account);
      GrantAllOk(balances, grants[..n]);
      RoundFacts(Balance(before, g.account) + g.amount);
      GridAdds(Balance(before, g.account), g.amount);
    }
  }

  /** A settlement that goes through pays every account but the chest exactly the floored shares of its own
      winning bets. */
  lemma EachBackerIsPaid(w: World, num: nat, option: string, account: string)
    requires BalancesOk(w.balances) && MayAnnounce(w, true, num, option) && account != Account(w, CHEST)
    requires Sum(WinningStake(num, option), w.bets) > 0
    ensures var total, winning := Sum(StakeOn(num), w.bets), Sum(WinningStake(num, option), w.bets);
      Balance(ResultAnnounced(w, true, num, option, |SettlementGrants(w, num, option)|).balances, account)
      == Balance(w.balances, account) + Sum(Due(w, account, num, option, total, winning), w.bets)
  {
    var total, winning := Sum(StakeOn(num), w.bets), Sum(WinningStake(num, option), w.bets);
    var payouts, chest := Payouts(w, num, option, total, winning, w.bets), Grant(Account(w, CHEST), ChestShare(total));
    SomebodyBet(w, num, option);
    assert SettlementGrants(w, num, option) == payouts + [chest];
    PayoutsOnGrid(w, num, option, total, winning, w.bets);
    PayoutsGoToBackers(w, account, num, option, total, winning, w.bets);
    GrantsArrive(w.balances, payouts, account);
    assert (payouts + [chest])[..|payouts|] == payouts;
    assert First(payouts + [chest], |payouts + [chest]|) == payouts + [chest];
  }

  /** The chest's share is a tenth of the pool, the pool being 105% of all stakes, to the nearest hundredth of an LP. */
  lemma ChestIsATenth(total: nat)
    ensures ChestShare(total) % 100 == 0
    ensures -50 * 1000 <= 1000 * ChestShare(total) - 105 * total <= 50 * 1000
  {
  }

  /** A settlement that goes through on a proposal with any bet pays the chest its share, even if nobody backed the
      winner: its balance is rounded to 0.1 LP once that is added. */
  lemma ChestIsPaid(w: World, num: nat, option: string)
    requires BalancesOk(w.balances) && MayAnnounce(w, true, num, option) && Outstanding(w.bets, num, |w.bets|) != []
    ensures var total, winning := Sum(StakeOn(num), w.bets), Sum(WinningStake(num, option), w.bets);
      var chest := Account(w, CHEST);
      Balance(ResultAnnounced(w, true, num, option, |SettlementGrants(w, num, option)|).balances, chest)
      == Round(Balance(w.balances, chest) + Sum(Due(w, chest, num, option, total, winning), w.bets) + ChestShare(total))
  {
    hide Round, Payout, Payouts, ChestShare, ResultAnnounced, SettlementGrants, Due, Received;
    var total, winning := Sum(StakeOn(num), w.bets), Sum(WinningStake(num, option), w.bets);
    var chest := Account(w, CHEST);
    var payouts := Payouts(w, num, option, total, winning, w.bets);
    ChestComesLast(w, num, option);
    PayoutsOnGrid(w, num, option, total, winning, w.bets);
    GrantsArrive(w.balances, payouts, chest);
    if winning > 0 {
      PayoutsGoToBackers(w, chest, num, option, total, winning, w.bets);
    } else {
      NobodyReceives(w, chest, num, option, total, w.bets);
    }
  }

  lemma ChestComesLast(w: World, num: nat, option: string)
    requires MayAnnounce(w, true, num, option) && Outstanding(w.bets, num, |w.bets|) != []
    ensures var total, winning := Sum(StakeOn(num), w.bets), Sum(WinningStake(num, option), w.bets);
      ResultAnnounced(w, true, num, option, |SettlementGrants(w, num, option)|).balances
      == Moved(GrantAll(w.balances, Payouts(w, num, option, total, winning, w.bets)), Account(w, CHEST),
               ChestShare(total))
  {
    hide Payouts, Payout, Round, ChestShare, Outstanding, Moved;
    var total, winning := Sum(StakeOn(num), w.bets), Sum(WinningStake(num, option), w.bets);
    var payouts, chest := Payouts(w, num, option, total, winning, w.bets), Grant(Account(w, CHEST), ChestShare(total));
    var all := payouts + [chest];
    assert SettlementGrants(w, num, option) == all && all[..|payouts|] == payouts;
    assert First(all, |all|) == all;
  }

  lemma {:induction false} NobodyReceives(w: World, account: string, num: nat, option: string, total: nat,
                                          bets: seq<Bet>)
    ensures Payouts(w, num, option, total, 0, bets) == []
    ensures Sum(Due(w, account, num, option, total, 0), bets) == 0
  {
    if bets != [] {
      NobodyReceives(w, account, num, option, total, bets[..|bets| - 1]);
    }
  }

  lemma SomebodyBet(w: World, num: nat, option: string)
    requires Sum(WinningStake(num, option), w.bets) > 0
    ensures Outstanding(w.bets, num, |w.bets|) != []
  {
    OutstandingFacts(w.bets, num, |w.bets|);
    if Outstanding(w.bets, num, |w.bets|) == [] {
      forall b | b in w.bets ensures WinningStake(num, option)(b) == 0 {
        var id: nat :| id < |w.bets| && w.bets[id] == b;
        assert id !in Outstanding(w.bets, num, |w.bets|);
      }
      SumNothing(WinningStake(num, option), w.bets);
      assert false;
    }
  }

  /** A settlement, whether or not all its grants go through, credits at most 105% of the stakes to members, a
      tenth of that to the chest, and rounding of 0.055 LP. */
  lemma MintIsBounded(w: World, judge: bool, num: nat, option: string, grants: nat)
    requires BalancesOk(w.balances)
    ensures 1000 * (Total(ResultAnnounced(w, judge, num, option, grants).balances) - Total(w.balances))
         <= 1155 * Sum(StakeOn(num), w.bets) + 550 * TENTH
  {
    if MayAnnounce(w, judge, num, option) {
      var total, winning := Sum(StakeOn(num), w.bets), Sum(WinningStake(num, option), w.bets);
      var all := SettlementGrants(w, num, option);
      var some := First(all, grants);
      if Outstanding(w.bets, num, |w.bets|) != [] {
        var payouts := Payouts(w, num, option, total, winning, w.bets);
        var chest := Grant(Account(w, CHEST), ChestShare(total));
        WinnersShareThePool(w, num, option);
        PayoutsOnGrid(w, num, option, total, winning, w.bets);
        GrantAllTotal(w.balances, payouts);
        GrantAllOk(w.balances, payouts);
        MovedOk(GrantAll(w.balances, payouts), chest.account, chest.amount);
        RoundFacts(Balance(GrantAll(w.balances, payouts), chest.account) + chest.amount);
        assert all[..|payouts|] == payouts;
        if grants <= |payouts| {
          assert some == payouts[..grants];
          GrantAllTotal(w.balances, some);
          PrefixSum(payouts, grants);
        } else {
          assert some == all;
        }
      }
    }
  }

  lemma CloseEscrow(w: World, num: nat, status: Status)
    requires IsActive(w.proposals, num) && !status.Active?
    ensures Escrow(WithStatus(w, num, status)) == Escrow(w) - Sum(StakeOn(num), w.bets)
  {
    SumAdds(LiveStake(w.proposals), LiveStake(WithStatus(w, num, status).proposals), StakeOn(num), w.bets);
  }

  /** Only an announcement brings LP into being: it adds at most 15.5% of the proposal's stakes, and the rounding. */
  lemma SettlementAddsLittle(w: World, judge: bool, num: nat, option: string, grants: nat)
    requires Sound(w)
    ensures 1000 * (Escrow(ResultAnnounced(w, judge, num, option, grants)) - Escrow(w))
         <= 155 * Sum(StakeOn(num), w.bets) + 550 * TENTH
  {
    if MayAnnounce(w, judge, num, option) {
      MintIsBounded(w, judge, num, option, grants);
      CloseEscrow(w, num, Settled);
    }
  }
}
