# Verified model of the bot framework's stateful core

The framework runs several chat bots ("souls") in one community. This project models the parts of it that
carry state through failures, and proves what they keep:

- **PostgreSQL going away.** The three-state circuit breaker and its clock; the gate it puts in front of every LP
  statement and transaction; re-entrant transactions bound to one pooled connection; the local outbox that is
  replayed later with `ON CONFLICT DO NOTHING` and may crash between a remote insert and its local mark; and the
  rewriting of `$N` statements for the SQLite fallback.
- **The process being killed in the middle of a reply.** The serial reply worker, its row per owed reply, the
  charge, the refund and the restart recovery, with a kill possible at every await.
- **Bots answering each other.** Cues in inbox files, the watcher that reads them, chains with depth and budget, and
  what one human message can lead to when its replies are killed and re-run.
- **Prediction bets.** The bet syntax as a parser for what the proposal post prints, and bets as escrow: bets,
  cancellations with refunds, settlements, over any sequence of commands.
- **Algorithms with a real specification.** The wiki-tree pruning walk with possibly cyclic parents, the
  bounded-concurrency map, the fan-out guard, identity links, and hourly down-sampling.

Code that changes state in place is a class or a loop here too, and each method is proved equal to a step of a
specification function; the theorems are about all runs of those steps. Code made of expressions is functions.
Failures, clock readings and other processes are inputs: an outcome per statement, a time per call, a step
that any process may take next.

| file | modules | subject |
|---|---|---|
| CircuitBreaker.dfy | SlowQuery, CircuitBreaker | the breaker and its failure classification |
| SoulWrites.dfy | SoulWrites | diverting append-only writes to the outbox |
| LpTransactions.dfy | LpTransactions | the gate, executors, nested transactions, the wire protocol |
| SqlPlaceholders.dfy | SqlPlaceholders | `$N` to `?` |
| Outbox.dfy, OutboxOrder.dfy, OutboxAgreement.dfy, OutboxStore.dfy | OutboxMachine, OutboxOrder, OutboxAgreement, OutboxStore | the outbox as steps, its contents, which queues are safe to retry, the object |
| ReplyWorker.dfy, ReplyCharges.dfy, ReplyRecovery.dfy, ReplyBot.dfy | ReplyMachine, ReplyCharges, ReplyRecovery, ReplyBot | the worker as steps, its LP, its recovery, the object |
| PeerBus.dfy, PeerChain.dfy | PeerInbox, PeerChain | inbox files, chains |
| HumanMessages.dfy | HumanMessages | reply workers and chains together |
| Text.dfy | Text | characters and numerals |
| BetSyntax.dfy | BetSyntax | parsing bets |
| PredictLedger.dfy, PredictEscrow.dfy, PredictConservation.dfy, PredictSettlement.dfy, PredictRuns.dfy, PredictDesk.dfy | the same names | the commands, what they keep, what they conserve, payouts, mixed runs, the object |
| WikiPrune.dfy, LaneMap.dfy, FanoutGuard.dfy, IdentityLinks.dfy, SignupBuckets.dfy | the same names | the algorithms |

## Where the code does not do what its comments promise

Each of these but the last is proved, with the condition under which the promise does hold where there is one.

- The outbox comment limits duplicate rows of `activities` and `errors` to a crash between insert and mark. Two
  overlapping replays (src/core/supervisor.ts:829 and :840 can both start one) duplicate them with no crash at
  all: `OutboxMachine.OverlapDuplicates`. Without overlap every row lands once plus once per lost mark.
- A row that failed and is retried loses to a later write of the same key: `OutboxAgreement.RetryChangesWinner`, with
  a reaction harvested twice. Keys always agree with a clean replay. Values do, whatever fails, if any two queued
  writes of one new key agree (`OutboxAgreement.AgreeingQueuesReplayAlike`); if two do not, some failures show
  (`OutboxAgreement.DisagreementShows`).
- A transaction body that catches a failed statement returns normally with nothing committed, since PostgreSQL
  answers COMMIT of an aborted transaction with a rollback: `LpTransactions.SwallowedFailureLosesTheTransaction`.
- Many LP calls take their executor before `cid` resolves the open_id for its argument
  (src/core/store/gamification.ts:34-35, :54-60, :188-192). When the breaker is not closed that executor is the probe,
  the lookup is refused, `cid` swallows the refusal, and the statement runs for the open_id as it came:
  `LpTransactions.LookupGrantedIff`.
- A half-open breaker whose probe ends in an uncounted error is never granted again until some report arrives:
  `CircuitBreaker.HalfOpenNeedsAReport`, `LpTransactions.SilentProbe`.
- `ptSpent` is not cleared when a reply is put back (src/channels/feishu-bot.ts:946) nor when an error was refunded,
  so a second kill refunds twice: `ReplyCharges.KilledTwicePays`, `ReplyCharges.KilledAfterErrorPays`. A kill does a
  message no harm exactly while its run holds a charge of the refunded constant and its row says so, while it holds
  none and the row is clear, or while recovery has yet to refund it: `ReplyCharges.KillIsHarmlessIff`. A charge is
  right exactly if the errors of a message's kills cancel: `ReplyCharges.OneCostIff`.
- The example form of the post, `option 5LP`, loses the last word of an option that runs together with the amount:
  `BetSyntax.ExampleFormReadsBack` gives the condition, `BetSyntax.TwentyFiveOnA` the instance.
- Balances keep one decimal and bets four, so a bet of 1.25 LP and its cancellation make 0.1 LP:
  `PredictConservation.OffGridMints`. A bet and its cancellation cancel out exactly unless the amount ends in half a
  tenth of an LP: `PredictConservation.RoundTrip`; each such bet adds 0.1 LP and nothing else does:
  `PredictConservation.EscrowConserved`.
- Whoever backs the winner gets the stake back only if the share reaches the stake rounded up to 0.1 LP
  (`PredictSettlement.WinnersNeverLoseIff`): a lone winning bet of 1.01 LP is paid 1.0 LP
  (`PredictSettlement.LoneWinnerLoses`).
- `agent link` keeps the identity table flat exactly if the lookup of the target succeeded or the target is no
  alias; `canonicalId` swallows a failed lookup: `IdentityLinks.StaysFlatIff`, `IdentityLinks.FailedLookupSplits`.
- A wiki node that two spaces list, as when it is moved from one to the other between their listings, leaves a row
  whose parent is not drawn: `WikiPrune.ListedTwiceOrphans`. The row of a parent is there whenever that of its child is
  exactly if the child's link is on the way up from the entry that counts for its token (`WikiPrune.ParentDrawnIff`), so
  always where no token is listed twice (`WikiPrune.NoOrphans`), and one space never lists a token twice
  (`WikiPrune.ListWikiNodesDeep`).
- The post says bets stop at the deadline; `tryParsePredictBet` never looks at `endTime`. The model follows the code.

## Model

| member | source | states |
|---|---|---|
| SlowQuery.StallsNeverAddAFailure | src/core/circuit-breaker.ts:93-103 | a stall of the event loop never turns an uncounted failure into a counted one, and never changes whether the database itself is blamed |
| SlowQuery.BlamedIff | src/core/circuit-breaker.ts:93-103 | which of database, pool and event loop a slow call is blamed on, exactly |
| SlowQuery.CountedIff | src/core/circuit-breaker.ts:93-103 | a connection error is not counted if and only if the blocked time alone explains it |
| CircuitBreaker.PgCircuitBreaker.AllowRequest | src/core/circuit-breaker.ts:171-186 | whether the call is granted, and the whole state after asking |
| CircuitBreaker.PgCircuitBreaker.RecordSuccess | src/core/circuit-breaker.ts:189-193 | the whole state after a success |
| CircuitBreaker.PgCircuitBreaker.RecordFailure | src/core/circuit-breaker.ts:196-209 | the whole state after a counted failure, in each of the three states |
| CircuitBreaker.EveryRunConsistent | src/core/circuit-breaker.ts:125-209 | after every run the probe slot is taken exactly in half-open, and the tally is below max(1, threshold) exactly when closed and equals it otherwise |
| CircuitBreaker.GrantSpacing | src/core/circuit-breaker.ts:171-209 | from a trip to the next close, k grants span at least k-1 probe intervals and the first comes an interval after the trip, for every non-decreasing clock |
| CircuitBreaker.HalfOpenNeedsAReport | src/core/circuit-breaker.ts:171-209 | from half-open, a run contains a report if and only if something was granted in it or can be granted after it |
| CircuitBreaker.ClosedIff | src/core/circuit-breaker.ts:189-209 | after any events the breaker is closed if and only if fewer than max(1, threshold) counted failures came since the last success, and its tally is their number |
| CircuitBreaker.GrantsOnceDue | src/core/circuit-breaker.ts:171-209 | a breaker that opens refuses everybody for one probe interval, whatever else fails, and then grants the first request |
| LpTransactions.PgPool.Query | src/core/db.ts:254-306 | one LP statement: bound to the transaction's connection, or gated, on its own connection, with its report to the breaker; equal to the specification for every outcome, a statement done whose answer was lost among them |
| LpTransactions.PgPool.QueryHeld | src/core/store/gamification.ts:34-35 | an executor taken first and used once other calls have made the arguments, or never if they throw; equal to the specification for every outcome |
| LpTransactions.FreeStatementCommits | src/core/db.ts:254-306 | a statement outside a transaction returns if and only if it was let through, connected and succeeded, and is durable if and only if it got that far and the server did it, heard or not |
| LpTransactions.HeldStatementCommits | src/core/store/gamification.ts:34-35 | the same for one whose executor was taken ahead, after what came between |
| LpTransactions.DurableIsInTheLog | src/core/db.ts:541-601 | for any program under any outcomes the database holds, in order, what it held before and what the log of the program says is durable |
| LpTransactions.LookupGrantedIff | src/core/store/gamification.ts:13-35 | the lookup behind an executor already taken gets through the gate if and only if the breaker was closed; otherwise the statement goes ahead without it |
| LpTransactions.PgPool.Tx | src/core/db.ts:569-601 | lpTx and tx: gate, connect, BEGIN, body, COMMIT or ROLLBACK, release; equal to the specification for every outcome of every step |
| LpTransactions.OutermostTransaction | src/core/db.ts:569-601 | the log of any tree of nested transactions is one grant, one connection, one BEGIN, the statements of the tree on it with no further gate, one ending and one release |
| LpTransactions.CommitsAllOrNothing | src/core/db.ts:582-594 | a normal return commits all statements or, if one of them failed and was caught, none; a throw commits none unless the acknowledgement of COMMIT was lost |
| LpTransactions.AllOrNothing | src/core/db.ts:582-594 | where bodies let errors propagate, a normal return commits every statement of the tree in order and a throw none of them |
| LpTransactions.ErrorUndoesEverything | src/core/db.ts:587-594 | a body that raises an error leaves nothing behind and the error goes on |
| LpTransactions.SwallowedFailureLosesTheTransaction | src/core/db.ts:582-594 | a body that catches a failed statement returns normally and commits nothing |
| LpTransactions.RefusedWhileCoolingDown | src/core/db.ts:541-572 | while open and cooling down every fresh statement, executor or transaction throws, with database and breaker unchanged and no connection touched |
| LpTransactions.NothingWhileCoolingDown | src/core/db.ts:541-601 | while it cools down no program gets anywhere, however it nests transactions and catches refusals: no connection touched, database and breaker as before |
| LpTransactions.SilentProbe | src/core/db.ts:292-299 | a transaction admitted as the probe leaves the breaker half-open if and only if it reported nothing, and closed if it returned |
| LpTransactions.EveryProgramKeepsTheProtocol | src/core/db.ts:541-601 | any program of statements, executors taken ahead of them, nested transactions, caught errors and other traffic under any outcomes: no statement without a connection, no connection without a grant of its own, every connection released once and none held at the end, every grant spent or given up |
| SoulWrites.SoulStore.Append | src/core/store/gamification.ts:82-98 | an append-only write is diverted, landed or thrown to its caller, never two of these; the whole state after each |
| SoulWrites.SoulStore.ShouldDivert | src/core/db.ts:402-404 | diverts exactly if the breaker does not grant, and claims the probe slot if it does |
| SoulWrites.EveryWriteInOnePlace | src/core/store/gamification.ts:82-98 | over any writes, each is landed, thrown or in the outbox, by whether it was granted and succeeded, and each place keeps the order |
| SoulWrites.OutageLosesFew | src/core/db.ts:402-404 | in an outage at most max(1, threshold) writes fail their callers before the breaker opens, then only probes, the k-th at least k + 1 intervals after the trip; every other write is in the outbox |
| SqlPlaceholders.TranslateStatement | src/core/db.ts:222-231 | the replacement pass pushes what the translation of the downgraded statement says |
| SqlPlaceholders.ReferencesMeanParameters | src/core/db.ts:227-231 | in any statement, every `$N` of any number of digits, however often, means params[N-1], and nothing outside the list; the translation has a `?` there and binds that value |
| SqlPlaceholders.WordCharactersAre | src/core/db.ts:226 | the characters between which there is no word boundary |
| SqlPlaceholders.WordDowngraded | src/core/db.ts:226 | a whole word becomes LIKE if and only if it spells ILIKE in any case |
| SqlPlaceholders.TranslationPreservesMeaning | src/core/db.ts:222-231 | filling the translated text's `?` left to right equals filling each `$N` of the original, up to ILIKE becoming LIKE, if and only if the statement has no literal `?` |
| SqlPlaceholders.DowngradeCommutes | src/core/db.ts:226-231 | the ILIKE downgrade neither makes nor breaks a placeholder: downgrading and filling commute |
| OutboxStore.PgOutbox.EnqueueOutboxWrite | src/core/pg-outbox.ts:97-104 | appends one unmarked row |
| OutboxStore.PgOutbox.OutboxBacklogCount | src/core/pg-outbox.ts:107-110 | the number of unmarked rows |
| OutboxStore.PgOutbox.ReplayOutbox | src/core/pg-outbox.ts:130-176 | whether a replay dies, which rows it marks and what it leaves in the database are those of the fates taken row by row; it is a trace of the machine; a completed one has attempted = replayed + failed and lowers the backlog by replayed less what arrived meanwhile |
| OutboxStore.ReplayFollowsFates | src/core/pg-outbox.ts:141-165 | with insertable rows a replay dies if and only if some fate crashes, and otherwise marks exactly the rows to which nothing happened |
| OutboxStore.AllFineAllLand | src/core/pg-outbox.ts:141-165 | if nothing goes wrong, every insertable row is marked, in order |
| OutboxStore.MarkedArePresent | src/core/pg-outbox.ts:155-160 | what a replay marks is in the database when it ends, even if it dies |
| OutboxMachine.EveryTrace | src/core/pg-outbox.ts:130-166 | over every trace with overlapping replays and crashes: a marked row is present remotely, finished replays add up, and every copy of a keyless row is a mark, a lost mark or a pending mark |
| OutboxMachine.MessageForeignKeyNeverFails | src/core/pg-outbox.ts:148-156 | a queued message with a chat id never fails on its chats foreign key |
| OutboxMachine.KeylessCopies | src/core/pg-outbox.ts:119-166 | without overlapping replays, a drained queue has each keyless row exactly 1 + (its lost marks) times |
| OutboxMachine.OverlapDuplicates | src/core/supervisor.ts:829-841 | two overlapping replays copy a keyless row twice with no crash and no failure |
| OutboxMachine.KeylessCopiesIff | src/core/pg-outbox.ts:119-166 | with overlap allowed, once the replays are over a keyless row is there 1 + (its lost marks) times if and only if it was marked once |
| OutboxMachine.BacklogLaw | src/core/pg-outbox.ts:130-176 | over every trace, overlapping or not, the backlog falls by the rows marked for the first time and grows by what is enqueued; that is at most what the replays report |
| OutboxMachine.ReportsAreMarks | src/core/pg-outbox.ts:135-166 | while nothing crashes, replays count as replayed exactly the rows they mark and as failed those at which something failed |
| OutboxOrder.DrainedEqualsCleanReplay | src/core/pg-outbox.ts:130-166 | if no row failed individually, a drained queue leaves the keyed tables equal to one crash-free replay |
| OutboxOrder.DrainedHasTheSameKeys | src/core/pg-outbox.ts:130-166 | even with rows failing and being retried, a drained queue has inserted exactly the keys of one crash-free replay |
| OutboxAgreement.AgreeingQueuesReplayAlike | src/core/pg-outbox.ts:130-166 | if any two queued writes of one new key agree on its value, a drained queue leaves the keyed tables of one clean replay, whatever failed, was retried, crashed or overlapped |
| OutboxAgreement.DisagreementShows | src/core/pg-outbox.ts:162-165 | a queue with two rows that disagree on a new key can be drained to a different result, failing once each the writers of that key before one of the two and nothing else |
| OutboxAgreement.RetryChangesWinner | src/core/store/reactions.ts:59-64 | a reaction queued twice with different times, the first failing once, keeps the second time |
| ReplyMachine.SerialInOrderAndRecoverable | src/channels/feishu-bot.ts:558-575 | with kills at any await: at most one job is processed, jobs start in the order queued, every queued or running job that was ever persisted still has its row |
| ReplyMachine.StartsAreBounded | src/channels/feishu-bot.ts:932-946 | no message is started more than 3 times over any number of restarts, once more for each attempt bump the database lost |
| ReplyRecovery.StartedAtMost | src/channels/feishu-bot.ts:932-946 | the same bound with the lost bumps counted off the run |
| ReplyRecovery.RowsTellThePast | src/channels/feishu-bot.ts:240-243 | over any restarts a row holds as many attempts as recovery wrote to it, and is flagged as charged if and only if some run wrote that |
| ReplyRecovery.RecoveryDecides | src/channels/feishu-bot.ts:932-963 | recovery gives a message up if and only if two attempts were written, and otherwise writes one more and queues it with its row |
| ReplyRecovery.NeverAgain | src/channels/feishu-bot.ts:568-574 | a message whose run or recovery ended and whose row was removed is never started again |
| ReplyRecovery.EveryRunEndsWithAWord | src/channels/feishu-bot.ts:238-289 | a call that is about to end has sent a reply or a notice, or its debit or refund threw, and conversely |
| ReplyRecovery.NothingWaitsForNobody | src/channels/feishu-bot.ts:558-575 | outside recovery no listed row is left over, and if a job waits another is being processed |
| ReplyCharges.PaidBeforeAnswered | src/channels/feishu-bot.ts:238-244 | over every trace, a message with a sender is answered only after a debit of exactly the run's cost went through in this run; after a refused or failing debit the model is not asked and the run ends unanswered at no cost |
| ReplyCharges.BalanceIsOwedAndMisbooked | src/channels/feishu-bot.ts:238-284 | after every trace, the LP booked for a message is what it should have been charged where it now is, plus what the steps so far misbooked for it, read off where each kill fell |
| ReplyCharges.OneCostIff | src/channels/feishu-bot.ts:238-284 | a message whose run is over has been charged one cost if it answered and nothing if not, if and only if its misbookings add up to zero; other messages play no part |
| ReplyCharges.KillIsHarmlessIff | src/channels/feishu-bot.ts:926-931 | a kill misbooks nothing for a message if and only if it falls in one of the named places, given by stage, cost and the row's flag |
| ReplyCharges.OneCostPerAnswer | src/channels/feishu-bot.ts:238-284 | over any number of restarts, if every kill of this message fell in such a place, it is charged exactly one cost on an answer and nothing otherwise |
| ReplyCharges.NothingWhenRefunded | src/channels/feishu-bot.ts:926-946 | and when recovery has refunded it, to give it up or to put it back, it has been charged nothing |
| ReplyCharges.RefundExactIff | src/channels/feishu-bot.ts:926-931 | after a kill, the next process's refund leaves the message square if and only if the kill fell in one of the harmless places |
| ReplyCharges.MidAnswerIsHarmless | src/channels/feishu-bot.ts:243-258 | a kill while the model is answering is harmless to that message if the charge was flagged and was the refunded constant, whatever state the others are in |
| ReplyCharges.KilledTwicePays | src/channels/feishu-bot.ts:926-946 | killed, put back and killed again before its re-run is charged, a message is refunded twice for one charge |
| ReplyCharges.KilledAfterErrorPays | src/channels/feishu-bot.ts:279-284 | killed after an error was refunded but before its row is gone, a message is refunded twice |
| ReplyBot.BotChannel.Persist | src/channels/feishu-bot.ts:885-898 | the row exists before anything else happens to the message |
| ReplyBot.BotChannel.QueueUp | src/channels/feishu-bot.ts:899-902 | the job joins the queue and starts if the worker is free |
| ReplyBot.BotChannel.StartNext | src/channels/feishu-bot.ts:558-565 | nothing while a job is processed, otherwise the oldest starts |
| ReplyBot.BotChannel.Charge | src/channels/feishu-bot.ts:238-241 | the guarded debit, its refusal and its failure |
| ReplyBot.BotChannel.MarkCharged | src/channels/feishu-bot.ts:242-243 | the row says it was charged, or its write was lost |
| ReplyBot.BotChannel.RefundOnError | src/channels/feishu-bot.ts:279-284 | the charge is given back, or kept if the refund throws |
| ReplyBot.BotChannel.Finish | src/channels/feishu-bot.ts:568-574 | row dropped, worker freed, next job started |
| ReplyBot.BotChannel.ListPending | src/core/store/ops.ts:141-149 | every owed reply, oldest first |
| ReplyBot.BotChannel.Recover | src/channels/feishu-bot.ts:910-966 | the recovery loop performs, for every outcome of its writes, exactly the turns of the listed replies in their order, then starts the worker, and leaves nothing listed |
| PeerInbox.ListPeersInChat | src/core/configs.ts:581-602 | the loop over the roster computes the peers of a chat |
| PeerInbox.PeersAreTheHearers | src/core/configs.ts:581-602 | the peers are exactly the souls with an active collaborating entry that hears the chat, once each, never the sender |
| PeerInbox.HearsIff | src/core/configs.ts:581-602 | who hears a chat, field by field |
| PeerInbox.Bus.BroadcastCue | src/core/peer-bus.ts:93-104 | every peer's inbox, or the first few if the process dies on the way, gains one unread line, nobody else's changes |
| PeerInbox.Bus.HasUnreadCue | src/core/peer-bus.ts:107-121 | true exactly if the inbox holds an unread cue |
| PeerInbox.Bus.ReadUnreadCues | src/core/peer-bus.ts:124-147 | returns the unread cues oldest first, marks them all read, keeps every other line in its place and other inboxes untouched |
| PeerInbox.Bus.Wake | src/channels/feishu-bot.ts:1115-1120 | what a wake-up works on is the collapse of what was unread, and nothing is left unread |
| PeerInbox.CollapseKeepsTheLatest | src/channels/feishu-bot.ts:1118-1120 | the collapse holds exactly the last cue of every chat, one per chat |
| PeerChain.DepthAloneDecides | src/channels/feishu-bot.ts:1122-1176 | in every run each cue has budget + depth = 9 and 1 <= depth <= 5, the first guard never fires and relaying is decided by the depth alone |
| PeerChain.ChainsStayInTheirChat | src/channels/feishu-bot.ts:1164-1176 | in every run a chain never leaves the chat it began in, and no agent is handed its own words |
| PeerChain.AnswersAreRelayed | src/channels/feishu-bot.ts:1159-1176 | in every run an answered cue is one reply more of its chain and, below depth 5, goes on with the new message to the peers of whoever answered, one deeper and one poorer; at depth 5 it does not; a cue passed over changes nothing else |
| PeerChain.KickoffIsBroadcast | src/channels/feishu-bot.ts:542-555 | a reply to a human starts a chain at depth 1 with budget 8 among the peers of its bot |
| PeerChain.RepliesPerKickoff | src/channels/feishu-bot.ts:1117-1176 | with at most m peers per chat, one kickoff leads to at most m + m^2 + m^3 + m^4 + m^5 agent replies |
| PeerChain.ChainsEnd | src/channels/feishu-bot.ts:1117-1176 | between kickoffs every step uses up work, so every run is at most as long as the work in it |
| PeerChain.DealtWithAtMostOnce | src/core/peer-bus.ts:124-147 | a delivered cue is in one inbox unread, in one hand, or dealt with, at most one of these and once |
| PeerChain.BroadcastDelivers | src/core/peer-bus.ts:93-104 | the lines a broadcast, whole or cut short, appends to a file are the deliveries of the step |
| PeerChain.LatestIsCollapse | src/channels/feishu-bot.ts:1118-1120 | the cues a step puts in hand are those the watcher's map keeps |
| HumanMessages.EachGoesOnAsAlone | src/channels/feishu-bot.ts:539-556 | workers and chains go on as they do alone, joined only by kickoffs after sent answers and by kills |
| HumanMessages.KickoffsWithinStarts | src/channels/feishu-bot.ts:539-574 | in every run a reply starts no more chains than it was itself started, and that is at most 3 times and once more per lost attempt bump |
| HumanMessages.RepliesPerHumanMessage | src/channels/feishu-bot.ts:910-966 | over all interleavings of the bots' workers, kills, recoveries and chains: a message leads to at most 3 + (its lost attempt bumps) times the bound of one kickoff, for each of the bots that answer it |
| BetSyntax.ParsePredictBetInput | src/core/predict-bet-parser.ts:36-73 | the two strategies with their search loop compute the parse |
| BetSyntax.AmountIsWorth | src/core/commands.ts:78-84 | a written amount of whole LP, or whole LP and any number of decimals, is worth that |
| BetSyntax.MentionDropped | src/core/predict-bet-parser.ts:37 | a leading mention is dropped with the blanks after it if and only if it names somebody and has such blanks |
| BetSyntax.BetRefIff | src/core/predict-bet-parser.ts:38 | a token is a BET-N reference if and only if it is BET- in any case and one digit or more |
| Text.BlanksAre | src/core/predict-bet-parser.ts:37-38 | the white space the patterns split at |
| BetSyntax.SpacedFormReadsBack | src/core/predict-bet-parser.ts:36-57 | `@agent option 5 LP` reads back as option and amount for every option of single-spaced words without a BET-N token, whatever the proposal's options |
| BetSyntax.ExampleFormReadsBack | src/core/predict-post.ts:69 | the post's example form `@agent option 5LP` reads back if and only if the option is one word or its last word and the amount do not make up an amount |
| BetSyntax.NumberedOptionMisread | src/core/predict-bet-parser.ts:42-52 | otherwise the last word goes to the amount |
| BetSyntax.TwentyFiveOnA | src/core/predict-bet-parser.ts:42-52 | 5 LP on "A 2" is read as 25 LP on "A" |
| BetSyntax.LongestOptionWins | src/core/predict-bet-parser.ts:59-70 | any message the spaced strategy leaves is a bet if and only if it ends in lp and an option with an amount makes up its text, and the longest such option is meant |
| BetSyntax.GluedFormReadsBack | src/core/predict-bet-parser.ts:59-70 | `@agent option5LP` reads back, for options of any number of words, if and only if the last words are no amount of their own and no longer option also makes up the text |
| BetSyntax.AmountsArePositive | src/core/commands.ts:78-84 | every parsed amount is positive, and a glued option is one of the proposal's |
| PredictDesk.Desk.SpendPt | src/core/store/gamification.ts:474-490 | the guarded debit after creating a missing profile |
| PredictDesk.Desk.GrantPt | src/core/store/gamification.ts:131-139 | the rounded balance after a grant to the canonical account |
| PredictDesk.Desk.PlaceBet | src/core/predict-bet-parser.ts:102-164 | a bet is taken exactly if every check passes and it was recorded; balances and bets after each outcome |
| PredictDesk.Desk.CancelWithRefund | src/core/predict-command.ts:30-46 | the refund loop with every failure, and a process dying in it, equals the command's step |
| PredictDesk.Desk.Settle | src/core/predict-settlement.ts:48-107 | the settlement, with a grant that throws, equals the command's step |
| PredictDesk.Desk.DistributePool | src/core/tc-settlement.ts:144-163 | the payouts of the one winner group, in the order of the bets |
| PredictEscrow.StakesStayCapped | src/core/predict-bet-parser.ts:116-124 | over any commands, with failures and kills inside them: nobody exceeds the limit of a proposal, balances stay non-negative and on the 0.1 LP grid, no stake is both refunded and settled |
| PredictRuns.BetTakenIff | src/core/predict-bet-parser.ts:102-164 | a bet is accepted if and only if the proposal is open and has the option and the amount is within minimum, remaining limit and balance; what happens to it for each outcome of its writes; otherwise nothing changes |
| PredictRuns.ProposalOpens | src/core/store/predict.ts:127-149 | a new number opens an active proposal as described, a taken one changes nothing |
| PredictRuns.FirstContact | src/core/store/gamification.ts:635-642 | a new member starts with 120 LP and nobody else's balance is touched |
| PredictConservation.EscrowConserved | src/core/predict-command.ts:30-46 | over any bets of any amounts and cancellations, balances plus live stakes rounded to 0.1 LP grow by exactly 0.1 LP per debited bet ending in half a tenth in faultless runs, and by at most that with failures |
| PredictConservation.NothingGained | src/core/predict-command.ts:30-46 | so without such bets nothing is ever gained |
| PredictConservation.GridEscrowConserved | src/core/predict-command.ts:30-46 | with multiples of 0.1 LP balances plus live stakes themselves never rise, and stay equal if no refund or rollback fails |
| PredictConservation.RoundTrip | src/core/db-pg-schema.ts:58-67 | a debit and the same credit leave a balance as it was if and only if the amount does not end in half a tenth, and 0.1 LP higher otherwise |
| PredictConservation.PlaceConservesIff | src/core/db-pg-schema.ts:58-67 | a recorded bet conserves balances and exact stakes if and only if it is a multiple of 0.1 LP, does not raise them if and only if it is that or ends above half a tenth, and is off by at most 0.05 LP |
| PredictConservation.CancelLeavesNothing | src/core/predict-command.ts:30-46 | a cancellation whose refunds all succeed leaves nothing at stake |
| PredictConservation.CancelGivesBackToEach | src/core/predict-command.ts:34-42 | such a cancellation credits every account with exactly what its own open_ids had at stake there, each bet rounded to 0.1 LP |
| PredictRuns.RefundsByOutcome | src/core/predict-command.ts:30-46 | in a cancellation with any failures: a bet is marked if and only if the loop got to it and its mark did not throw, and paid back if and only if its grant did not throw either |
| PredictEscrow.RepeatedAnnouncement | src/core/predict-settlement.ts:61-66 | after an announcement and any further commands, another announcement of it changes nothing |
| PredictConservation.OffGridMints | src/core/db-pg-schema.ts:527-536 | a bet of 1.25 LP and its cancellation turn 10 LP into 10.1 LP |
| PredictSettlement.WinnersShareThePool | src/core/tc-settlement.ts:144-175 | winners together get at most 105% of all stakes and less than 0.1 LP each short of it |
| PredictSettlement.EachBackerIsPaid | src/core/predict-settlement.ts:75-89 | a settlement that goes through credits every account but the chest with exactly the floored shares of its own winning bets |
| PredictSettlement.ChestIsATenth | src/core/predict-settlement.ts:99 | the chest's share is a tenth of the pool to the nearest 0.01 LP |
| PredictSettlement.ChestIsPaid | src/core/predict-settlement.ts:92-101 | a settlement that goes through with any bet pays the chest, even if nobody backed the winner |
| PredictRuns.AnnouncedIff | src/core/predict-settlement.ts:48-72 | an announcement takes effect if and only if a judge makes it on an open proposal for one of its options; then the proposal is settled and exactly its bets not refunded are counted |
| PredictSettlement.WinnersNeverLoseIff | src/core/tc-settlement.ts:156-160 | a winning bet gets at least its stake back if and only if its share of the pool reaches the stake rounded up to 0.1 LP |
| PredictSettlement.WinnersNeverLose | src/core/tc-settlement.ts:156-160 | so winning stakes in multiples of 0.1 LP always come back |
| PredictSettlement.LoneWinnerLoses | src/core/tc-settlement.ts:156-160 | a lone winning bet of 1.01 LP is paid 1.0 LP |
| PredictSettlement.MintIsBounded | src/core/predict-settlement.ts:74-106 | a settlement, complete or not, credits at most 115.5% of the stakes and 0.055 LP of rounding |
| PredictSettlement.SettlementAddsLittle | src/core/predict-settlement.ts:58-106 | it adds at most 15.5% of the stakes, and the rounding, to LP in circulation |
| PredictRuns.BettingConservesAnytime | src/core/predict-command.ts:30-46 | after any commands, announcements included, a bet or cancellation conserves balances plus rounded live stakes up to the half tenth of its debit, exactly if nothing fails |
| PredictRuns.MixedRunsBounded | src/core/predict-settlement.ts:58-106 | over any run, balances plus rounded live stakes grow by at most 0.1 LP per debit ending in half a tenth and, per announcement that takes effect, 15.5% of its stakes and the rounding |
| WikiPrune.ListWikiNodesDeep | src/core/lark.ts:502-518 | the breadth-first listing of a space has every token once and only what the service listed, and is complete unless 500 parents or 5000 nodes are reached |
| WikiPrune.KeepSet | src/core/ops-report.ts:301-308 | the walk, although it stops at kept parents and parents may form cycles, keeps exactly the reader nodes and everything above them, and ends |
| WikiPrune.BuildWikiTreeNodes | src/core/ops-report.ts:283-327 | the rows of exactly the wanted nodes, in order, with their readers and non-staff readers |
| WikiPrune.ReaderIff | src/core/ops-report.ts:290-296 | a token is a reader's if and only if a node with it is no attachment and its document was viewed |
| WikiPrune.ExcludedIff | src/core/ops-report.ts:53-68 | a title is an attachment if and only if it ends, but for blanks, in one of the six extensions in any case |
| WikiPrune.RowCounts | src/core/ops-report.ts:314-325 | a row has the number of viewers of the document and of those that are not staff |
| WikiPrune.ParentDrawnIff | src/core/ops-report.ts:283-327 | for a listed node and its listed parent: whoever the readers are, the parent's row is there if the node's is, if and only if that parent is above the entry that counts for the node's token |
| WikiPrune.NoOrphans | src/core/ops-report.ts:301-327 | where no token is listed twice, the listed parent of a drawn node is drawn |
| WikiPrune.ListedTwiceOrphans | src/core/ops-report.ts:273-287 | two spaces that each list a folder with the same page in it, the page read: the page's row of the earlier space has a parent that is not drawn |
| LaneMap.Pool.Worker | src/core/ops-narrative.ts:365-369 | a turn of a worker up to its await: claims the next index or leaves |
| LaneMap.Pool.Store | src/core/ops-narrative.ts:369 | the awaited value goes to the claimed index |
| LaneMap.EachIndexOnce | src/core/ops-narrative.ts:358-375 | under every interleaving each index is claimed once, in order, and at most max(1, min(n, items)) calls are in flight, on different indices |
| LaneMap.ResultsInOrder | src/core/ops-narrative.ts:358-375 | when every lane has returned, result i is fn of item i, for all i |
| LaneMap.EveryCallAccounted | src/core/ops-narrative.ts:358-375 | under every interleaving the calls made are those stored, those in flight and those that threw |
| LaneMap.MapEnds | src/core/ops-narrative.ts:358-375 | every step uses up a claim, so the number of steps is bounded |
| FanoutGuard.Guard.IsFanoutFlood | src/core/outbound-guard.ts:58-75 | whether the send is blocked, and the whole state afterwards |
| FanoutGuard.RecordIsWindow | src/core/outbound-guard.ts:65-74 | in every run the stored record of a text is its window read off the sends alone: when it opened and the chats sends have got through to since |
| FanoutGuard.BlockedExactly | src/core/outbound-guard.ts:65-74 | after any sends, the next is blocked if and only if the text's window is still open and sends in it have got through to three chats, this one not among them |
| FanoutGuard.ThreePerWindow | src/core/outbound-guard.ts:58-75 | in every run the sends of a window get their text through to at most three chats |
| FanoutGuard.SixPerStretch | src/core/outbound-guard.ts:58-75 | for every run with non-decreasing times, no 120 s stretch lets a text through to more than six chats |
| FanoutGuard.SixHappens | src/core/outbound-guard.ts:67-70 | six is reached across a window restart |
| IdentityLinks.Registry.Link | src/bin/agent.ts:1129-1154 | the link table and what is stored by identity after the command, for every outcome of its lookup and transaction |
| IdentityLinks.StaysFlatIff | src/bin/agent.ts:1136-1153 | a link keeps the table flat if and only if its lookup succeeded or the target is no alias |
| IdentityLinks.OneLookupIsFinal | src/core/store/gamification.ts:13-24 | after any commands whose lookups succeeded, resolving twice equals resolving once |
| IdentityLinks.AliasesFollow | src/bin/agent.ts:1149-1153 | `from` and every former alias of it resolve to the target, everybody else as before |
| IdentityLinks.StayTogether | src/bin/agent.ts:1136-1153 | two open_ids with one identity keep one through any later links that do not name either of them as `from` |
| IdentityLinks.MergeLasts | src/bin/agent.ts:1136-1153 | so `from` and `to` keep one identity after a link, whatever else is linked |
| IdentityLinks.OnlyFromIsDropped | src/bin/agent.ts:1145-1153 | after any commands, what was stored under an identity is still there unchanged if and only if nobody linked that identity away, and everything stored stays under an identity that resolves to itself |
| IdentityLinks.FailedLookupSplits | src/core/store/gamification.ts:21-23 | after a failed lookup an identity can be somebody's alias |
| SignupBuckets.BucketsAreHours | src/core/ops-report.ts:204-207 | two points share a bucket if and only if they fall in one hour of the clock |
| SignupBuckets.BucketSignupPoints | src/core/ops-report.ts:202-219 | for points ascending in time: exactly the last point of every hour that has any, in order, plus a closing point with the final count precisely if the end is past the last point |

## Left out

- LpTransactions.AllOrNothing: allows a throw after which everything is committed, because a COMMIT whose acknowledgement is lost has happened; the code cannot know.
- ReplyMachine.StartsAreBounded: counts one more start for every attempt bump that the best-effort row update lost, because the code does not notice.
- ReplyCharges.OneCostPerAnswer: is about traces whose kills of this message were harmless; OneCostIff gives the exact condition for all traces.
- PredictConservation.GridEscrowConserved: is about multiples of 0.1 LP; EscrowConserved covers all amounts.
- PredictSettlement.WinnersNeverLose: is about multiples of 0.1 LP; WinnersNeverLoseIff covers all amounts.
- LpTransactions.SilentProbe: supposes that no other request reports to the breaker or asks it while the probing transaction runs; another request's report ends the half-open state in its own right.
- SoulWrites.SoulStore.Append: a write makes one report; the statements of its transaction and its COMMIT are not told apart.
- SoulWrites.OutageLosesFew: writes follow one another; writes already under way together when an outage begins all fail, as many as there are.
- OutboxStore.PgOutbox.ReplayOutbox: is one replay with other processes enqueueing; what overlapping replays do is in OutboxMachine, whose BacklogLaw and KeylessCopiesIff allow them.
- ReplyBot.BotChannel.Recover: runs without a live event or a kill between its awaits; its four steps are methods of their own, and the theorems are about all interleavings of them.
- WikiPrune.NoOrphans: is about listings with every token once; ParentDrawnIff covers all listings.
- LpTransactions.PgPool.QueryHeld: uses its executor once; an executor kept for several statements outside a transaction is gated once in the code, and the model takes one for each.
- LpTransactions.EveryProgramKeepsTheProtocol: for the same reason says that every connection has a grant of its own.
- OutboxOrder.DrainedEqualsCleanReplay: the remote tables change by replays alone; live writers that insert the same keys while a replay runs are not modelled, and their rows would stay.
- OutboxAgreement.AgreeingQueuesReplayAlike: supposes no such live writers either.
- HumanMessages.RepliesPerHumanMessage: a step of a worker and the kickoff right after its send are one step; what a chat's members may hear is the roster's, the same throughout.
- PostgreSQL itself is an assumption: a statement after a failed one in a transaction is refused, COMMIT of an aborted transaction rolls back, an unacknowledged COMMIT may have happened.
- Statement text is a string of characters: quoted literals are not told apart, and the choice between the row-returning and the other call is not modelled.
- The outbox's columns and values are one payload per row with the table's key; JSON and the table names in the SQL are not modelled.
- Bonus LP by reply category, LP moved by the model during a reply and the first-contact grant are outside a message's net charge.
- The hourly rate limit of peer replies, silence, bare acknowledgements and send errors are one outcome of a cue: passed over.
- Reading or appending to an inbox file is one step; races between processes on the file are not modelled. A line that parses as JSON is taken to be a cue.
- Bet amounts are exact decimals and settlement shares exact rationals, floored as the code does; floating-point noise, and amounts beyond four decimals at the bets table, are not modelled.
- Strings are sequences of characters, not UTF-16 code units; case folding is the ASCII part, which is all the patterns can match.
- A debit, grant or insert of a prediction command that throws is taken not to have happened; one whose COMMIT went unacknowledged is modelled for replies only.
- The commands of a prediction run one at a time; settlement is launched un-awaited in the code. Badges and the proposal's creator are inputs.
- The limit of a proposal is per open_id, as in the code: a person with two linked open_ids has two limits.
- What the fan-out guard compares is the normalized text; the normalization is an input.
- Tables that `agent link` deletes from are one map by identity.
- Feishu, model and subprocess calls, rendering, charts, prompts, configuration lookup, the heartbeat and the scheduler are not modelled; their results are inputs.
- The automatic settlement of the other betting game, treasure chests, check-ins and quests would add members of the same kind.
