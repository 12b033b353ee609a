/** The prediction commands in place: a store of balances, proposals and bets, and the methods that change it.
    Each command is one step of PredictLedger. */
module PredictDesk {
  import opened PredictLedger

  datatype Reply = Taken | NotActive | NoSuchOption | TooSmall | OverCap | NoBalance | NotRecorded

  class Desk {
    const links: map<string, string>
    var balances: map<string, int>
    var proposals: map<nat, Proposal>
    var bets: seq<Bet>
    ghost var settled: set<nat>

    ghost function View(): World
      reads this
    {
      World(links, balances, proposals, bets, settled)
    }

    constructor (links: map<string, string>, balances: map<string, int>)
      ensures View() == World(links, balances, map[], [], {})
    {
      this.links, this.balances := links, balances;
      proposals, bets, settled := map[], [], {};
    }

    method Cid(user: string) returns (account: string)
      ensures account == Account(View(), user)
    {
      account := if user in links && links[user] != "" then links[user] else user;
    }

    method GrantPt(user: string, delta: nat)
      modifies `balances
      ensures balances == Moved(old(balances), Account(old(View()), user), delta)
    {
      var account := Cid(user);
      Credit(account, delta);
    }

    method Credit(account: string, delta: nat)
      modifies `balances
      ensures balances == Moved(old(balances), account, delta)
    {
      var b := if account in balances then balances[account] else 0;
      balances := balances[account := Round(b + delta)];
    }

    method GetBalance(user: string) returns (balance: int)
      ensures balance == Balance(balances, Account(View(), user))
    {
      var account := Cid(user);
      balance := if account in balances then balances[account] else 0;
    }

    /** The profile is created if it is new; then one guarded UPDATE: no debit beyond the balance. */
    method SpendPt(user: string, cost: nat) returns (spent: bool)
      modifies `balances
      ensures var account := Account(old(View()), user);
        var before := Seeded(old(balances), account);
        && (spent <==> Balance(before, account) >= cost)
        && balances == if spent then Moved(before, account, -(cost as int)) else before
    {
      var account := Cid(user);
      if account !in balances {
        balances := balances[account := FIRST_CONTACT];
      }
      spent := balances[account] >= cost;
      if spent {
        balances := balances[account := Round(balances[account] - cost)];
      }
    }

    method GetUserTotalBetLp(num: nat, user: string) returns (total: nat)
      ensures total == Sum(StakeOf(user, num), bets)
    {
      total := 0;
      for i := 0 to |bets|
        invariant total == Sum(StakeOf(user, num), bets[..i])
      {
        var b := bets[i];
        assert bets[..i + 1][..i] == bets[..i];
        if b.proposal == num && b.user == user && !b.refunded {
          total := total + b.amount;
        }
      }
      assert bets[..|bets|] == bets;
    }

    /** tryParsePredictBet after parsing; `inserted` and `rolledBack` say whether those writes succeed. */
    method PlaceBet(user: string, num: nat, option: string, amount: nat, inserted: bool, rolledBack: bool)
      returns (reply: Reply)
      modifies this
      ensures View() == Apply(old(View()), Place(user, num, option, amount,
                                if inserted then Recorded else if rolledBack then RolledBack else LostInRollback))
      ensures reply.Taken? <==> Accepts(old(View()), user, num, option, amount) && inserted
      ensures reply.NotRecorded? <==> Accepts(old(View()), user, num, option, amount) && !inserted
    {
      if !IsActive(proposals, num) { return NotActive; }
      if option !in proposals[num].options { return NoSuchOption; }
      if amount == 0 || amount < proposals[num].minBet { return TooSmall; }
      var already := GetUserTotalBetLp(num, user);
      if already + amount > proposals[num].maxBet { return OverCap; }
      var balance := GetBalance(user);
      if balance < amount { return NoBalance; }
      var spent := SpendPt(user, amount);
      if !spent { return NoBalance; }
      if !inserted {
        if rolledBack {
          GrantPt(user, amount);
        }
        return NotRecorded;
      }
      bets := bets + [Bet(num, user, option, amount, false)];
      return Taken;
    }

    method GetUnrefundedBets(num: nat) returns (ids: seq<nat>)
      ensures ids == Outstanding(bets, num, |bets|)
    {
      ids := [];
      for i := 0 to |bets|
        invariant ids == Outstanding(bets, num, i)
      {
        if bets[i].proposal == num && !bets[i].refunded {
          ids := ids + [i];
        }
      }
    }

    /** One turn of the loop: mark, then grant. */
    method Refund(id: nat, r: Refunding) returns (lp: nat)
      requires id < |bets|
      modifies this
      ensures View() == RefundOne(old(View()), id, r)
      ensures lp == if r.Refunded? then old(bets)[id].amount else 0
    {
      lp := 0;
      if r.MarkThrows? {
        return;
      }
      bets := bets[id := bets[id].(refunded := true)];
      if r.Refunded? {
        GrantPt(bets[id].user, bets[id].amount);
        lp := bets[id].amount;
      }
    }

    /** Bet by bet; a failure of one does not stop the others. */
    method RefundAll(ids: seq<nat>, refunds: seq<Refunding>) returns (refundedLp: nat)
      requires forall i :: 0 <= i < |ids| ==> ids[i] < |bets|
      modifies this
      ensures View() == RefundEach(old(View()), ids, refunds)
      ensures refundedLp == RefundedLp(old(bets), ids, refunds)
    {
      ghost var w0 := View();
      refundedLp := 0;
      var k := 0;
      assert ids[0..] == ids && refunds[0..] == refunds;
      while k < |ids| && k < |refunds|
        invariant k <= |ids| && k <= |refunds| && SameAmounts(bets, w0.bets)
        invariant RefundEach(View(), ids[k..], refunds[k..]) == RefundEach(w0, ids, refunds)
        invariant refundedLp + RefundedLp(w0.bets, ids[k..], refunds[k..]) == RefundedLp(w0.bets, ids, refunds)
      {
        assert ids[k..][1..] == ids[k + 1..] && refunds[k..][1..] == refunds[k + 1..];
        var lp := Refund(ids[k], refunds[k]);
        refundedLp := refundedLp + lp;
        k := k + 1;
      }
    }

    /** cancelPredictWithRefund, behind the checks of the command. */
    method CancelWithRefund(who: string, judge: bool, num: nat, refunds: seq<Refunding>, closes: bool)
      returns (ok: bool, refundedLp: nat)
      modifies this
      ensures View() == Apply(old(View()), Cancel(who, judge, num, refunds, closes))
      ensures ok <==> MayCancel(old(View()), who, judge, num)
    {
      if !IsActive(proposals, num) || !(proposals[num].creator == who || judge) {
        return false, 0;
      }
      var ids := GetUnrefundedBets(num);
      OutstandingFacts(bets, num, |bets|);
      RefundEachFrame(View(), ids, refunds);
      refundedLp := RefundAll(ids, refunds);
      if closes && |refunds| >= |ids| {
        proposals := proposals[num := proposals[num].(status := Cancelled)];
      }
      ok := true;
    }

    /** settlePredict for an announced option; the grant after the `grants`-th throws and stops the rest. */
    method Settle(judge: bool, num: nat, option: string, grants: nat) returns (ok: bool)
      modifies this
      ensures View() == Apply(old(View()), Announce(judge, num, option, grants))
      ensures ok <==> MayAnnounce(old(View()), judge, num, option)
    {
      ok := IsActive(proposals, num) && judge && option in proposals[num].options;
      if !ok {
        return;
      }
      ghost var w0 := View();
      var ids := GetUnrefundedBets(num);
      var all := PlanGrants(num, option, |ids| > 0);
      proposals := proposals[num := proposals[num].(status := Settled)];
      settled := settled + (set id | id in ids);
      GrantFirst(all, grants);
    }

    /** The grants of a settlement, winners first, then the chest; none if nobody had bet. */
    method PlanGrants(num: nat, option: string, anyBets: bool) returns (all: seq<Grant>)
      requires anyBets <==> Outstanding(bets, num, |bets|) != []
      ensures all == SettlementGrants(View(), num, option)
    {
      if !anyBets {
        return [];
      }
      var winners := DistributePool(num, option);
      var total := Stakes(num);
      var chest := Cid(CHEST);
      all := winners + [Grant(chest, ChestShare(total))];
    }

    method GrantFirst(all: seq<Grant>, grants: nat)
      modifies `balances
      ensures balances == GrantAll(old(balances), First(all, grants))
    {
      var k := 0;
      while k < |all| && k < grants
        invariant k <= |all| && k <= grants
        invariant balances == GrantAll(old(balances), all[..k])
      {
        assert all[..k + 1][..k] == all[..k];
        Credit(all[k].account, all[k].amount);
        k := k + 1;
      }
      assert First(all, grants) == all[..k];
    }

    method Stakes(num: nat) returns (total: nat)
      ensures total == Sum(StakeOn(num), bets)
    {
      total := 0;
      for i := 0 to |bets|
        invariant total == Sum(StakeOn(num), bets[..i])
      {
        assert bets[..i + 1][..i] == bets[..i];
        if bets[i].proposal == num && !bets[i].refunded {
          total := total + bets[i].amount;
        }
      }
      assert bets[..|bets|] == bets;
    }

    method WinningStakes(num: nat, option: string) returns (total: nat)
      ensures total == Sum(WinningStake(num, option), bets)
    {
      total := 0;
      for i := 0 to |bets|
        invariant total == Sum(WinningStake(num, option), bets[..i])
      {
        assert bets[..i + 1][..i] == bets[..i];
        if bets[i].proposal == num && !bets[i].refunded && bets[i].option == option {
          total := total + bets[i].amount;
        }
      }
      assert bets[..|bets|] == bets;
    }

    /** distributePool for the one winner group, without the winners whose share floors to nothing. */
    method DistributePool(num: nat, option: string) returns (winners: seq<Grant>)
      ensures var total, winning := Sum(StakeOn(num), bets), Sum(WinningStake(num, option), bets);
        winners == Payouts(View(), num, option, total, winning, bets)
    {
      var total := Stakes(num);
      var winning := WinningStakes(num, option);
      winners := [];
      for i := 0 to |bets|
        invariant winners == Payouts(View(), num, option, total, winning, bets[..i])
      {
        assert bets[..i + 1][..i] == bets[..i];
        var b := bets[i];
        if winning > 0 && b.proposal == num && !b.refunded && b.option == option && b.amount > 0 {
          var payout := Payout(total, winning, b.amount);
          if payout > 0 {
            var account := Cid(b.user);
            winners := winners + [Grant(account, payout)];
          }
        }
      }
      assert bets[..|bets|] == bets;
    }
  }

  predicate SameAmounts(a: seq<Bet>, b: seq<Bet>) {
    |a| == |b| && forall i :: 0 <= i < |a| ==> a[i].amount == b[i].amount
  }

  /** What a cancellation reports as given back. */
  function RefundedLp(bets: seq<Bet>, ids: seq<nat>, refunds: seq<Refunding>): nat
    requires forall i :: 0 <= i < |ids| ==> ids[i] < |bets|
  {
    if ids == [] || refunds == [] then 0
    else (if refunds[0].Refunded? then bets[ids[0]].amount else 0) + RefundedLp(bets, ids[1..], refunds[1..])
  }
}
