/** What any sequence of prediction commands keeps. */
module PredictEscrow {
  import opened PredictLedger

  /***** Totals *****/

  ghost function Total(balances: map<string, int>): int
    decreases |balances|
  {
    if balances == map[] then 0
    else
      var a :| a in balances;
      assert |balances.Keys - {a}| < |balances.Keys|;
      balances[a] + Total(balances - {a})
  }

  lemma {:induction false} TotalWithout(balances: map<string, int>, a: string)
    requires a in balances
    ensures Total(balances) == balances[a] + Total(balances - {a})
    decreases |balances|
  {
    var x :| x in balances && Total(balances) == balances[x] + Total(balances - {x});
    if x != a {
      assert |balances.Keys - {x}| < |balances.Keys| && |balances.Keys - {a}| < |balances.Keys|;
      TotalWithout(balances - {x}, a);
      TotalWithout(balances - {a}, x);
      assert balances - {x} - {a} == balances - {a} - {x};
    }
  }

  lemma TotalUpdated(balances: map<string, int>, a: string, v: int)
    ensures Total(balances[a := v]) == Total(balances) - Balance(balances, a) + v
  {
    var after := balances[a := v];
    TotalWithout(after, a);
    assert after - {a} == balances - {a};
    if a in balances {
      TotalWithout(balances, a);
    } else {
      assert balances - {a} == balances;
    }
  }

  lemma {:induction false} SumChanged(f: Bet -> nat, bets: seq<Bet>, id: nat, b: Bet)
    requires id < |bets|
    ensures Sum(f, bets[id := b]) == Sum(f, bets) - f(bets[id]) + f(b)
  {
    var n := |bets| - 1;
    if id < n {
      assert bets[id := b][..n] == bets[..n][id := b];
      SumChanged(f, bets[..n], id, b);
    } else {
      assert bets[id := b][..n] == bets[..n];
    }
  }

  lemma {:induction false} SumAdds(f: Bet -> nat, g: Bet -> nat, h: Bet -> nat, bets: seq<Bet>)
    requires forall b :: b in bets ==> f(b) == g(b) + h(b)
    ensures Sum(f, bets) == Sum(g, bets) + Sum(h, bets)
  {
    if bets != [] {
      SumAdds(f, g, h, bets[..|bets| - 1]);
    }
  }

  lemma {:induction false} SumNothing(f: Bet -> nat, bets: seq<Bet>)
    requires forall b :: b in bets ==> f(b) == 0
    ensures Sum(f, bets) == 0
  {
    if bets != [] {
      SumNothing(f, bets[..|bets| - 1]);
    }
  }

  lemma SumOneMore(f: Bet -> nat, bets: seq<Bet>, b: Bet)
    ensures Sum(f, bets + [b]) == Sum(f, bets) + f(b)
  {
    assert (bets + [b])[..|bets|] == bets;
  }

  /** LP in members' hands and LP held as stakes on active proposals. */
  ghost function Escrow(w: World): int {
    Total(w.balances) + Sum(LiveStake(w.proposals), w.bets)
  }

  /***** Rounding *****/

  predicate OnGrid(x: int) {
    x % TENTH == 0
  }

  lemma RoundedAmount(amount: nat)
    ensures var r := amount % TENTH; RoundNat(amount) == amount - r + (if r >= TENTH / 2 then TENTH else 0)
    ensures OnGrid(RoundNat(amount))
  {
    var q, r := amount / TENTH, amount % TENTH;
    assert amount == TENTH * q + r;
  }

  lemma RoundFacts(x: int)
    ensures OnGrid(Round(x)) && x - TENTH / 2 <= Round(x) <= x + TENTH / 2
    ensures Round(x) == x <==> OnGrid(x)
    ensures x >= 0 ==> Round(x) >= 0
  {
    hide RoundNat;
    if x >= 0 {
      RoundedAmount(x);
    } else {
      RoundedAmount(-x);
      GridAdds(0, x);
      GridAdds(0, RoundNat(-x));
    }
  }

  lemma GridAdds(x: int, y: int)
    requires OnGrid(x)
    ensures OnGrid(x + y) <==> OnGrid(y)
    ensures OnGrid(x - y) <==> OnGrid(y)
    ensures OnGrid(-y) <==> OnGrid(y)
  {
    var q, r := x / TENTH, y / TENTH;
    assert x == TENTH * q && y == TENTH * r + y % TENTH;
    assert (x + y) == TENTH * (q + r) + y % TENTH;
    assert (x - y) == TENTH * (q - r) - y % TENTH;
    assert -y == TENTH * (-r) - y % TENTH;
  }

  /***** What every command keeps *****/

  predicate BalancesOk(balances: map<string, int>) {
    forall a :: a in balances ==> OnGrid(balances[a]) && balances[a] >= 0
  }

  predicate BetsOk(w: World) {
    forall id :: 0 <= id < |w.bets| ==> w.bets[id].proposal in w.proposals
  }

  /** A settled stake belongs to a settled proposal and was not refunded. */
  predicate SettledOk(w: World) {
    forall id :: id in w.settled ==>
                   && id < |w.bets| && !w.bets[id].refunded && w.bets[id].proposal in w.proposals
                   && w.proposals[w.bets[id].proposal].status.Settled?
  }

  predicate Capped(w: World, user: string, num: nat) {
    if num in w.proposals then Sum(StakeOf(user, num), w.bets) <= w.proposals[num].maxBet
    else Sum(StakeOf(user, num), w.bets) == 0
  }

  ghost predicate Sound(w: World) {
    && BalancesOk(w.balances) && BetsOk(w) && SettledOk(w)
    && forall user, num: nat :: Capped(w, user, num)
  }

  lemma MovedOk(balances: map<string, int>, account: string, delta: int)
    requires BalancesOk(balances) && Balance(balances, account) + delta >= 0
    ensures BalancesOk(Moved(balances, account, delta))
    ensures Total(Moved(balances, account, delta))
         == Total(balances) - Balance(balances, account) + Round(Balance(balances, account) + delta)
    ensures OnGrid(delta) ==> Total(Moved(balances, account, delta)) == Total(balances) + delta
    ensures Balance(Moved(balances, account, delta), account) == Round(Balance(balances, account) + delta)
  {
    var b := Balance(balances, account);
    RoundFacts(b + delta);
    GridAdds(b, delta);
    TotalUpdated(balances, account, Round(b + delta));
  }

  lemma PlaceKeepsSound(w: World, user: string, num: nat, option: string, amount: nat, recording: Recording)
    requires Sound(w)
    ensures Sound(BetPlaced(w, user, num, option, amount, recording))
  {
    if Accepts(w, user, num, option, amount) {
      var account := Account(w, user);
      MovedOk(w.balances, account, -(amount as int));
      var debited := Moved(w.balances, account, -(amount as int));
      if recording.RolledBack? {
        MovedOk(debited, account, amount);
      }
      var t := BetPlaced(w, user, num, option, amount, recording);
      forall u, n: nat ensures Capped(t, u, n) {
        assert Capped(w, u, n);
        SumOneMore(StakeOf(u, n), w.bets, Bet(num, user, option, amount, false));
      }
    }
  }

  lemma {:induction false} RefundEachKeeps(w: World, num: nat, ids: seq<nat>, refunds: seq<Refunding>)
    requires Sound(w) && IsActive(w.proposals, num)
    requires forall i :: 0 <= i < |ids| ==> ids[i] < |w.bets| && w.bets[ids[i]].proposal == num
    ensures Sound(RefundEach(w, ids, refunds))
    decreases |ids|
  {
    if ids != [] && refunds != [] {
      var next := RefundOne(w, ids[0], refunds[0]);
      RefundOneKeepsSound(w, num, ids[0], refunds[0]);
      RefundEachKeeps(next, num, ids[1..], refunds[1..]);
    }
  }

  lemma RefundOneKeepsSound(w: World, num: nat, id: nat, r: Refunding)
    requires Sound(w) && IsActive(w.proposals, num) && id < |w.bets| && w.bets[id].proposal == num
    ensures Sound(RefundOne(w, id, r))
  {
    var b, t := w.bets[id], RefundOne(w, id, r);
    MovedOk(w.balances, Account(w, b.user), b.amount);
    assert id !in w.settled;
    forall u, n: nat ensures Capped(t, u, n) {
      assert Capped(w, u, n);
      SumChanged(StakeOf(u, n), w.bets, id, b.(refunded := true));
    }
  }

  lemma CancelKeepsSound(w: World, who: string, judge: bool, num: nat, refunds: seq<Refunding>, closes: bool)
    requires Sound(w)
    ensures Sound(ProposalCancelled(w, who, judge, num, refunds, closes))
  {
    if MayCancel(w, who, judge, num) {
      OutstandingFacts(w.bets, num, |w.bets|);
      var ids := Outstanding(w.bets, num, |w.bets|);
      forall i | 0 <= i < |ids| ensures w.bets[ids[i]].proposal == num {
        assert ids[i] in ids;
      }
      RefundEachFrame(w, ids, refunds);
      RefundEachKeeps(w, num, ids, refunds);
      var done := RefundEach(w, ids, refunds);
      ClosingKeepsSound(done, num, Cancelled, {});
      assert done.settled + {} == done.settled;
    }
  }

  /** Closing an active proposal, with more of its outstanding bets settled if it is settled. */
  lemma ClosingKeepsSound(w: World, num: nat, status: Status, more: set<nat>)
    requires Sound(w) && IsActive(w.proposals, num)
    requires forall id :: id in more ==> id < |w.bets| && w.bets[id].proposal == num && !w.bets[id].refunded
    requires more != {} ==> status.Settled?
    ensures Sound(WithStatus(w, num, status).(settled := w.settled + more))
  {
    var t := WithStatus(w, num, status).(settled := w.settled + more);
    forall u, n: nat ensures Capped(t, u, n) {
      assert Capped(w, u, n);
    }
  }

  lemma {:induction false} GrantAllOk(balances: map<string, int>, grants: seq<Grant>)
    requires BalancesOk(balances)
    ensures BalancesOk(GrantAll(balances, grants))
  {
    if grants != [] {
      var n := |grants| - 1;
      GrantAllOk(balances, grants[..n]);
      MovedOk(GrantAll(balances, grants[..n]), grants[n].account, grants[n].amount);
    }
  }

  lemma AnnounceKeepsSound(w: World, judge: bool, num: nat, option: string, grants: nat)
    requires Sound(w)
    ensures Sound(ResultAnnounced(w, judge, num, option, grants))
  {
    if MayAnnounce(w, judge, num, option) {
      OutstandingFacts(w.bets, num, |w.bets|);
      GrantAllOk(w.balances, First(SettlementGrants(w, num, option), grants));
      var more := set id | id in Outstanding(w.bets, num, |w.bets|);
      ClosingKeepsSound(w, num, Settled, more);
      var t := ResultAnnounced(w, judge, num, option, grants);
      forall u, n: nat ensures Capped(t, u, n) {
        assert Capped(w, u, n);
      }
    }
  }

  lemma StepKeepsSound(w: World, c: Command)
    requires Sound(w)
    ensures Sound(Apply(w, c))
  {
    match c
    case Propose(num, p) =>
      forall u, n: nat ensures Capped(Apply(w, c), u, n) {
        assert Capped(w, u, n);
      }
    case Place(user, num, option, amount, recording) => PlaceKeepsSound(w, user, num, option, amount, recording);
    case Cancel(who, judge, num, refunds, closes) => CancelKeepsSound(w, who, judge, num, refunds, closes);
    case Announce(judge, num, option, grants) => AnnounceKeepsSound(w, judge, num, option, grants);
  }

  lemma {:induction false} RunKeepsSound(w: World, cs: seq<Command>)
    requires Sound(w)
    ensures Sound(After(w, cs))
    decreases |cs|
  {
    if cs != [] {
      StepKeepsSound(w, cs[0]);
      RunKeepsSound(Apply(w, cs[0]), cs[1..]);
    }
  }

  function Opening(links: map<string, string>, balances: map<string, int>): World {
    World(links, balances, map[], [], {})
  }

  lemma OpeningIsSound(links: map<string, string>, balances: map<string, int>)
    requires BalancesOk(balances)
    ensures Sound(Opening(links, balances))
  {
  }

  /** After any sequence of commands, with refunds and grants failing and processes dying anywhere in them:
      nobody has more at stake on a proposal than its limit, no balance is negative or off the 0.1 LP grid,
      and no stake is both refunded and settled. */
  lemma StakesStayCapped(links: map<string, string>, balances: map<string, int>, cs: seq<Command>, w: World,
                         user: string, num: nat, id: nat)
    requires BalancesOk(balances) && w == After(Opening(links, balances), cs)
    ensures num in w.proposals ==> Sum(StakeOf(user, num), w.bets) <= w.proposals[num].maxBet
    ensures BalancesOk(w.balances)
    ensures id in w.settled ==> id < |w.bets| && !w.bets[id].refunded
  {
    OpeningIsSound(links, balances);
    RunKeepsSound(Opening(links, balances), cs);
    assert Capped(w, user, num);
  }

  /** An announcement on a proposal that is not active any more, such as a repeated one, changes nothing. */
  lemma RepeatedAnnouncement(w: World, judge: bool, num: nat, option: string, grants: nat, cs: seq<Command>,
                             judge2: bool, option2: string, grants2: nat)
    requires MayAnnounce(w, judge, num, option)
    ensures var t := After(Apply(w, Announce(judge, num, option, grants)), cs);
      Apply(t, Announce(judge2, num, option2, grants2)) == t
  {
    var s := Apply(w, Announce(judge, num, option, grants));
    ClosedStaysClosed(s, cs, num);
  }

  lemma {:induction false} ClosedStaysClosed(w: World, cs: seq<Command>, num: nat)
    requires num in w.proposals && !w.proposals[num].status.Active?
    ensures num in After(w, cs).proposals && !After(w, cs).proposals[num].status.Active?
    decreases |cs|
  {
    if cs != [] {
      var c := cs[0];
      if c.Cancel? && MayCancel(w, c.who, c.judge, c.num) {
        OutstandingFacts(w.bets, c.num, |w.bets|);
        RefundEachFrame(w, Outstanding(w.bets, c.num, |w.bets|), c.refunds);
      }
      ClosedStaysClosed(Apply(w, c), cs[1..], num);
    }
  }
}
