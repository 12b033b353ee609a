/** Prediction bets as escrow: members' LP balances, the bets on proposals, and the commands that move LP
    between them. Amounts are in ten-thousandths of one LP, the precision of the bets table; the balance and
    ledger columns keep one decimal, so every write of a balance is rounded to 0.1 LP. */
module PredictLedger {
  const TENTH := 1000     // 0.1 LP
  const FIRST_CONTACT := 1200000   // 120 LP
  const CHEST := "chest:public-welfare"

  datatype Status = Active | Settled | Cancelled

  datatype Proposal = Proposal(options: seq<string>, minBet: nat, maxBet: nat, status: Status, creator: string)

  datatype Bet = Bet(proposal: nat, user: string, option: string, amount: nat, refunded: bool)

  /** `links` maps an aliased open_id to the account that holds its LP; `settled` are the bets a settlement
      has counted. */
  datatype World = World(links: map<string, string>, balances: map<string, int>, proposals: map<nat, Proposal>,
                         bets: seq<Bet>, settled: set<nat>)

  /***** Balances *****/

  function RoundNat(x: nat): nat {
    (x + TENTH / 2) / TENTH * TENTH
  }

  /** NUMERIC(12,1): nearest tenth, halves away from zero. */
  function Round(x: int): int {
    if x >= 0 then RoundNat(x) else -(RoundNat(-x) as int)
  }

  function Account(w: World, user: string): string {
    if user in w.links && w.links[user] != "" then w.links[user] else user
  }

  function Balance(balances: map<string, int>, account: string): int {
    if account in balances then balances[account] else 0
  }

  /** ledgerRaw and the guarded debit of spendPt: the balance column after adding delta. */
  function Moved(balances: map<string, int>, account: string, delta: int): map<string, int> {
    balances[account := Round(Balance(balances, account) + delta)]
  }

  /** ensureProfileRaw: a new profile starts with the first-contact grant. */
  function Seeded(balances: map<string, int>, account: string): map<string, int> {
    if account in balances then balances else balances[account := FIRST_CONTACT]
  }

  /***** Bets *****/

  function Sum(f: Bet -> nat, bets: seq<Bet>): nat {
    if bets == [] then 0 else Sum(f, bets[..|bets| - 1]) + f(bets[|bets| - 1])
  }

  /** What a user has at stake on a proposal. */
  function StakeOf(user: string, num: nat): Bet -> nat {
    (b: Bet) => if !b.refunded && b.proposal == num && b.user == user then b.amount else 0
  }

  function StakeOn(num: nat): Bet -> nat {
    (b: Bet) => if !b.refunded && b.proposal == num then b.amount else 0
  }

  function WinningStake(num: nat, option: string): Bet -> nat {
    (b: Bet) => if !b.refunded && b.proposal == num && b.option == option then b.amount else 0
  }

  predicate IsActive(proposals: map<nat, Proposal>, num: nat) {
    num in proposals && proposals[num].status.Active?
  }

  function LiveStake(proposals: map<nat, Proposal>): Bet -> nat {
    (b: Bet) => if !b.refunded && IsActive(proposals, b.proposal) then b.amount else 0
  }

  /** The ids of a proposal's outstanding bets among the first n, oldest first. */
  function Outstanding(bets: seq<Bet>, num: nat, n: nat): seq<nat>
    requires n <= |bets|
  {
    if n == 0 then []
    else Outstanding(bets, num, n - 1) + (if bets[n - 1].proposal == num && !bets[n - 1].refunded then [n - 1] else [])
  }

  /***** Commands *****/

  /** How the writes after the debit went. */
  datatype Recording = Recorded | RolledBack | LostInRollback

  datatype Refunding = Refunded | MarkThrows | GrantThrows

  datatype Command =
    | Propose(num: nat, proposal: Proposal)
    | Place(user: string, num: nat, option: string, amount: nat, recording: Recording)
    | Cancel(who: string, judge: bool, num: nat, refunds: seq<Refunding>, closes: bool)
    | Announce(judge: bool, num: nat, option: string, grants: nat)

  /** The checks of tryParsePredictBet before any LP moves; the parser only yields positive amounts. */
  predicate Accepts(w: World, user: string, num: nat, option: string, amount: nat) {
    && IsActive(w.proposals, num)
    && option in w.proposals[num].options
    && amount > 0 && amount >= w.proposals[num].minBet
    && Sum(StakeOf(user, num), w.bets) + amount <= w.proposals[num].maxBet
    && Balance(w.balances, Account(w, user)) >= amount
  }

  function BetPlaced(w: World, user: string, num: nat, option: string, amount: nat, recording: Recording): World {
    if !Accepts(w, user, num, option, amount) then w
    else
      var account := Account(w, user);
      var debited := Moved(w.balances, account, -(amount as int));
      match recording
      case Recorded => w.(balances := debited, bets := w.bets + [Bet(num, user, option, amount, false)])
      case RolledBack => w.(balances := Moved(debited, account, amount))
      case LostInRollback => w.(balances := debited)
  }

  predicate MayCancel(w: World, who: string, judge: bool, num: nat) {
    IsActive(w.proposals, num) && (w.proposals[num].creator == who || judge)
  }

  function Marked(bets: seq<Bet>, id: nat): seq<Bet>
    requires id < |bets|
  {
    bets[id := bets[id].(refunded := true)]
  }

  /** One turn of the refund loop. */
  function RefundOne(w: World, id: nat, r: Refunding): World
    requires id < |w.bets|
  {
    match r
    case MarkThrows => w
    case GrantThrows => w.(bets := Marked(w.bets, id))
    case Refunded =>
      w.(bets := Marked(w.bets, id), balances := Moved(w.balances, Account(w, w.bets[id].user), w.bets[id].amount))
  }

  /** The refund loop of cancelPredictWithRefund; a shorter list of outcomes is a process that died on the way. */
  function RefundEach(w: World, ids: seq<nat>, refunds: seq<Refunding>): World
    requires forall i :: 0 <= i < |ids| ==> ids[i] < |w.bets|
    decreases |ids|
  {
    if ids == [] || refunds == [] then w
    else
      RefundEach(RefundOne(w, ids[0], refunds[0]), ids[1..], refunds[1..])
  }

  function WithStatus(w: World, num: nat, status: Status): World
    requires num in w.proposals
  {
    w.(proposals := w.proposals[num := w.proposals[num].(status := status)])
  }

  lemma {:induction false} OutstandingFacts(bets: seq<Bet>, num: nat, n: nat)
    requires n <= |bets|
    ensures forall i :: 0 <= i < |Outstanding(bets, num, n)| ==> Outstanding(bets, num, n)[i] < n
    ensures forall i, j :: 0 <= i < j < |Outstanding(bets, num, n)| ==>
                             Outstanding(bets, num, n)[i] < Outstanding(bets, num, n)[j]
    ensures forall id: nat :: id in Outstanding(bets, num, n)
                              <==> id < n && bets[id].proposal == num && !bets[id].refunded
  {
    if n > 0 {
      OutstandingFacts(bets, num, n - 1);
    }
  }

  function ProposalCancelled(w: World, who: string, judge: bool, num: nat, refunds: seq<Refunding>, closes: bool): World
  {
    if !MayCancel(w, who, judge, num) then w
    else
      OutstandingFacts(w.bets, num, |w.bets|);
      var ids := Outstanding(w.bets, num, |w.bets|);
      var done := RefundEach(w, ids, refunds);
      RefundEachFrame(w, ids, refunds);
      if closes && |refunds| >= |ids| then WithStatus(done, num, Cancelled) else done
  }

  lemma {:induction false} RefundEachFrame(w: World, ids: seq<nat>, refunds: seq<Refunding>)
    requires forall i :: 0 <= i < |ids| ==> ids[i] < |w.bets|
    ensures var t := RefundEach(w, ids, refunds);
      t.proposals == w.proposals && t.links == w.links && t.settled == w.settled && |t.bets| == |w.bets|
    decreases |ids|
  {
    if ids != [] && refunds != [] {
      RefundEachFrame(RefundOne(w, ids[0], refunds[0]), ids[1..], refunds[1..]);
    }
  }

  /***** Settlement *****/

  datatype Grant = Grant(account: string, amount: nat)

  function Quotient(n: nat, d: nat): (q: nat)
    requires d > 0
    ensures q * d <= n < q * d + d
  {
    n / d
  }

  /** distributePool for one winner group: 105% of all stakes, shared in proportion, floored to 0.1 LP. */
  function Payout(total: nat, winning: nat, amount: nat): (p: nat)
    requires winning > 0
  {
    Quotient(105 * (total * amount), 100 * TENTH * winning) * TENTH
  }

  function Payouts(w: World, num: nat, option: string, total: nat, winning: nat, bets: seq<Bet>): seq<Grant> {
    if bets == [] then []
    else
      var b := bets[|bets| - 1];
      Payouts(w, num, option, total, winning, bets[..|bets| - 1])
      + (if WinningStake(num, option)(b) > 0 && winning > 0 && Payout(total, winning, b.amount) > 0
         then [Grant(Account(w, b.user), Payout(total, winning, b.amount))] else [])
  }

  /** A tenth of the pool, rounded to 0.01 LP, on top for the public-welfare chest. */
  function ChestShare(total: nat): nat {
    (105 * total + 50000) / 100000 * 100
  }

  function SettlementGrants(w: World, num: nat, option: string): seq<Grant> {
    var total, winning := Sum(StakeOn(num), w.bets), Sum(WinningStake(num, option), w.bets);
    if Outstanding(w.bets, num, |w.bets|) == [] then []
    else Payouts(w, num, option, total, winning, w.bets) + [Grant(Account(w, CHEST), ChestShare(total))]
  }

  function GrantAll(balances: map<string, int>, grants: seq<Grant>): map<string, int> {
    if grants == [] then balances
    else
      var n := |grants| - 1;
      Moved(GrantAll(balances, grants[..n]), grants[n].account, grants[n].amount)
  }

  function First<T>(s: seq<T>, n: nat): seq<T> {
    if n <= |s| then s[..n] else s
  }

  predicate MayAnnounce(w: World, judge: bool, num: nat, option: string) {
    IsActive(w.proposals, num) && judge && option in w.proposals[num].options
  }

  /** settlePredict: the status changes first; if the k-th grant throws, the ones before it stand. */
  function ResultAnnounced(w: World, judge: bool, num: nat, option: string, grants: nat): World {
    if !MayAnnounce(w, judge, num, option) then w
    else
      var settled := set id | id in Outstanding(w.bets, num, |w.bets|);
      WithStatus(w, num, Settled)
        .(balances := GrantAll(w.balances, First(SettlementGrants(w, num, option), grants)),
          settled := w.settled + settled)
  }

  function Apply(w: World, c: Command): World {
    match c
    case Propose(num, p) => if num in w.proposals then w else w.(proposals := w.proposals[num := p.(status := Active)])
    case Place(user, num, option, amount, recording) => BetPlaced(w, user, num, option, amount, recording)
    case Cancel(who, judge, num, refunds, closes) => ProposalCancelled(w, who, judge, num, refunds, closes)
    case Announce(judge, num, option, grants) => ResultAnnounced(w, judge, num, option, grants)
  }

  function After(w: World, cs: seq<Command>): World
    decreases |cs|
  {
    if cs == [] then w else After(Apply(w, cs[0]), cs[1..])
  }
}
