/** What the rows of owed replies say about the past, when recovery gives up, and that nothing waits for nobody. */
module ReplyRecovery {
  import opened ReplyMachine

  /** The step writes a higher number of attempts to the row of the message. */
  predicate BumpsIt(s: State, st: Step, id: nat) {
    st.RecoverBump? && st.written && s.todo != [] && s.todo[0].id == id
  }

  /** The step writes to the row of the message that it was charged. */
  predicate FlagsIt(s: State, st: Step, id: nat) {
    st.RecordFlag? && st.written && st.f < |s.active| && s.active[st.f].job.id == id
  }

  function Bumps(s: State, steps: seq<Step>, id: nat): nat
    requires IsTrace(s, steps)
    decreases |steps|
  {
    if steps == [] then 0
    else (if BumpsIt(s, steps[0], id) then 1 else 0) + Bumps(Apply(s, steps[0]), steps[1..], id)
  }

  predicate EverFlagged(s: State, steps: seq<Step>, id: nat)
    requires IsTrace(s, steps)
    decreases |steps|
  {
    steps != [] && (FlagsIt(s, steps[0], id) || EverFlagged(Apply(s, steps[0]), steps[1..], id))
  }

  /** The row after a step, if the step leaves it: attempts and flag move as the step says. */
  lemma StepMovesRow(s: State, st: Step, id: nat)
    requires Placed(s) && Enabled(s, st) && id in Apply(s, st).rows
    ensures var t := Apply(s, st);
      if id in s.rows then
        && t.rows[id].attempts == s.rows[id].attempts + (if BumpsIt(s, st, id) then 1 else 0)
        && t.rows[id].ptSpent == (s.rows[id].ptSpent || FlagsIt(s, st, id))
        && t.rows[id].sender == s.rows[id].sender
      else
        && st.Arrive? && st.persisted && id == s.nextId && t.rows[id] == Row(0, false, st.sender)
        && !BumpsIt(s, st, id) && !FlagsIt(s, st, id)
  {
    hide QueueOk, ArrivingOk, ActiveOk, OldestFirst, ListRows, PlaceAll, Pump, ApplyRunning, ApplyRecoverBump;
    match st
    case RecoverBump(written) => BumpMovesRow(s, written, id);
    case Arrive(_, _) =>
    case Enqueue(job) => PumpKeepsRows(Push(s.(arriving := s.arriving - {job}), job));
    case Close(f, removed) => PumpKeepsRows(Ended(s, f, removed));
    case RecoverPump => PumpKeepsRows(s);
    case Restart(_) =>
    case RecoverRefund(_) =>
    case RecoverGiveUp(_) =>
    case RecoverPush =>
    case _ => RunningMovesRow(s, st, id);
  }

  lemma PumpKeepsRows(s: State)
    ensures Pump(s).rows == s.rows && Pump(s).nextId == s.nextId
  {
  }

  lemma BumpMovesRow(s: State, written: bool, id: nat)
    requires Placed(s) && Enabled(s, RecoverBump(written))
    ensures ApplyRecoverBump(s, written).rows.Keys == s.rows.Keys
    ensures id in s.rows ==>
              ApplyRecoverBump(s, written).rows[id]
              == s.rows[id].(attempts := s.rows[id].attempts + (if BumpsIt(s, RecoverBump(written), id) then 1 else 0))
  {
    hide QueueOk, ArrivingOk, ActiveOk;
    assert ListedOk(s, s.todo[0], false);
  }

  lemma RunningMovesRow(s: State, st: Step, id: nat)
    requires Placed(s) && Enabled(s, st) && OfRunning(st)
    ensures ApplyRunning(s, st).rows.Keys == s.rows.Keys
    ensures id in s.rows ==>
              ApplyRunning(s, st).rows[id] == s.rows[id].(ptSpent := s.rows[id].ptSpent || FlagsIt(s, st, id))
  {
    hide QueueOk, ArrivingOk, TodoOk;
    assert JobAt(s, s.active[st.f].job, Running);
  }

  lemma StepKeepsGone(s: State, st: Step, id: nat)
    requires Placed(s) && Enabled(s, st) && id < s.nextId && id !in s.rows
    ensures id !in Apply(s, st).rows && id < Apply(s, st).nextId
  {
    if id in Apply(s, st).rows {
      StepMovesRow(s, st, id);
    }
    NumbersGrow(s, st);
  }

  lemma NumbersGrow(s: State, st: Step)
    requires Enabled(s, st)
    ensures Apply(s, st).nextId >= s.nextId
  {
    hide Pump;
    match st
    case Enqueue(job) => PumpKeepsRows(Push(s.(arriving := s.arriving - {job}), job));
    case Close(f, removed) => PumpKeepsRows(Ended(s, f, removed));
    case RecoverPump => PumpKeepsRows(s);
    case _ =>
  }

  lemma {:induction false} GoneStaysGone(s: State, steps: seq<Step>, id: nat)
    requires Placed(s) && IsTrace(s, steps) && id < s.nextId && id !in s.rows
    ensures id !in After(s, steps).rows
    decreases |steps|
  {
    hide Apply, Enabled, Placed;
    if steps != [] {
      StepKeepsGone(s, steps[0], id);
      StepKeepsPlaced(s, steps[0]);
      GoneStaysGone(Apply(s, steps[0]), steps[1..], id);
    }
  }

  /** From a state that has the row, or is yet to give out its number. */
  lemma {:induction false} RowTells(s: State, steps: seq<Step>, id: nat)
    requires Placed(s) && IsTrace(s, steps) && (id in s.rows || id >= s.nextId)
    ensures var t, row := After(s, steps), if id in s.rows then s.rows[id] else Row(0, false, false);
      id in t.rows ==>
        && t.rows[id].attempts == row.attempts + Bumps(s, steps, id)
        && t.rows[id].ptSpent == (row.ptSpent || EverFlagged(s, steps, id))
    decreases |steps|
  {
    hide Apply, Enabled, Placed, BumpsIt, FlagsIt;
    if steps != [] {
      var next := Apply(s, steps[0]);
      StepKeepsPlaced(s, steps[0]);
      if id in next.rows {
        StepMovesRow(s, steps[0], id);
        RowTells(next, steps[1..], id);
      } else if id < next.nextId {
        GoneStaysGone(next, steps[1..], id);
      } else {
        NothingYet(s, steps[0], id);
        RowTells(next, steps[1..], id);
      }
    }
  }

  lemma NothingYet(s: State, st: Step, id: nat)
    requires Placed(s) && Enabled(s, st) && id >= Apply(s, st).nextId
    ensures id !in s.rows && !BumpsIt(s, st, id) && !FlagsIt(s, st, id)
  {
    NumbersGrow(s, st);
    if st.RecoverBump? {
      assert ListedOk(s, s.todo[0], false);
    } else if st.RecordFlag? {
      assert JobAt(s, s.active[st.f].job, Running);
    }
  }

  /** Over any number of restarts: a row holds as many attempts as recovery managed to write to it, and says that the
      message was charged exactly if some run managed to write that. */
  lemma RowsTellThePast(steps: seq<Step>, s: State, id: nat)
    requires Reaches(steps, s) && id in s.rows
    ensures s.rows[id].attempts == Bumps(INITIAL, steps, id)
    ensures s.rows[id].ptSpent <==> EverFlagged(INITIAL, steps, id)
  {
    RowTells(INITIAL, steps, id);
  }

  /** The step is an attempt bump of the message that the database loses. */
  predicate LosesBump(s: State, st: Step, id: nat) {
    st.RecoverBump? && !st.written && s.todo != [] && s.todo[0].id == id
  }

  function LostBumps(s: State, steps: seq<Step>, id: nat): nat
    requires IsTrace(s, steps)
    decreases |steps|
  {
    if steps == [] then 0
    else (if LosesBump(s, steps[0], id) then 1 else 0) + LostBumps(Apply(s, steps[0]), steps[1..], id)
  }

  lemma PumpLosesNothing(s: State, id: nat)
    ensures Acc(Pump(s), id).lostBumps == Acc(s, id).lostBumps
  {
  }

  lemma StepCountsLost(s: State, st: Step, id: nat)
    requires Placed(s) && Enabled(s, st)
    ensures Acc(Apply(s, st), id).lostBumps == Acc(s, id).lostBumps + (if LosesBump(s, st, id) then 1 else 0)
  {
    hide Pump, ListRows, PlaceAll, QueueOk, ArrivingOk, ActiveOk, OldestFirst;
    match st
    case RecoverBump(_) => assert ListedOk(s, s.todo[0], false);
    case Enqueue(job) => PumpLosesNothing(Push(s.(arriving := s.arriving - {job}), job), id);
    case Close(f, removed) => PumpLosesNothing(Ended(s, f, removed), id);
    case RecoverPump => PumpLosesNothing(s, id);
    case _ =>
  }

  lemma {:induction false} TraceCountsLost(s: State, steps: seq<Step>, id: nat)
    requires Placed(s) && IsTrace(s, steps)
    ensures Acc(After(s, steps), id).lostBumps == Acc(s, id).lostBumps + LostBumps(s, steps, id)
    decreases |steps|
  {
    hide Apply, Enabled, Placed, Acc, LosesBump;
    if steps != [] {
      StepCountsLost(s, steps[0], id);
      StepKeepsPlaced(s, steps[0]);
      TraceCountsLost(Apply(s, steps[0]), steps[1..], id);
    }
  }

  /** So in every run a message is started at most three times, and once more for each of its attempt bumps that the
      database lost. */
  lemma StartedAtMost(steps: seq<Step>, s: State, id: nat)
    requires Reaches(steps, s)
    ensures Acc(s, id).starts <= 3 + LostBumps(INITIAL, steps, id)
  {
    TraceCountsLost(INITIAL, steps, id);
    StartsAreBounded(steps, s, id);
  }

  lemma GivesUp(s: State, removed: bool)
    requires Placed(s) && Enabled(s, RecoverGiveUp(removed))
    ensures var p, t := s.todo[0], Apply(s, RecoverGiveUp(removed));
      && t.todo == s.todo[1..] && t.place[p.id] == Over(false, 0) && t.queue == s.queue
      && (if removed then p.id !in t.rows else p.id in t.rows && t.rows[p.id] == s.rows[p.id])
  {
    hide QueueOk, ArrivingOk, ActiveOk;
    assert ListedOk(s, s.todo[0], false);
  }

  lemma PutsBack(s: State, written: bool)
    requires Placed(s) && Enabled(s, RecoverBump(written))
    ensures var p, t := s.todo[0], Apply(s, RecoverBump(written));
      && Enabled(t, RecoverPush)
      && var u := Apply(t, RecoverPush);
         u.queue == s.queue + [Job(p.id, true, p.row.sender)] && u.todo == s.todo[1..] && p.id in u.rows
  {
    hide QueueOk, ArrivingOk, ActiveOk;
    assert ListedOk(s, s.todo[0], false);
  }

  /** Recovery's decision about the row it is at, once it has dealt with its charge: given up exactly after two attempts
      were written, its row removed if the database does it and its message over without an answer or a cost; otherwise
      one more attempt is written, or lost, and then the message goes to the end of the queue with its row. */
  lemma RecoveryDecides(steps: seq<Step>, s: State, removed: bool, written: bool)
    requires Reaches(steps, s) && s.todo != [] && s.recovery == Refunded
    ensures var p := s.todo[0];
      if Bumps(INITIAL, steps, p.id) >= 2 then
        && !Enabled(s, RecoverBump(written)) && Enabled(s, RecoverGiveUp(removed))
        && var t := Apply(s, RecoverGiveUp(removed));
           && t.todo == s.todo[1..] && t.place[p.id] == Over(false, 0) && t.queue == s.queue
           && (if removed then p.id !in t.rows else p.id in t.rows && t.rows[p.id] == s.rows[p.id])
      else
        && !Enabled(s, RecoverGiveUp(removed)) && Enabled(s, RecoverBump(written))
        && var t := Apply(s, RecoverBump(written));
           && Enabled(t, RecoverPush)
           && var u := Apply(t, RecoverPush);
              u.queue == s.queue + [Job(p.id, true, p.row.sender)] && u.todo == s.todo[1..] && p.id in u.rows
  {
    hide IsTrace, After, Apply, QueueOk, ArrivingOk, ActiveOk;
    ReachedInv(steps, s);
    assert Placed(s) && ListedOk(s, s.todo[0], false);
    RowsTellThePast(steps, s, s.todo[0].id);
    if Bumps(INITIAL, steps, s.todo[0].id) >= 2 {
      GivesUp(s, removed);
    } else {
      PutsBack(s, written);
    }
  }

  /***** What is over stays over *****/

  /** The message has no row and is nowhere in the process, or over. */
  predicate Done(s: State, id: nat) {
    id < s.nextId && id !in s.rows && (id in s.place ==> s.place[id].Over?)
  }

  lemma ClosingEnds(s: State, f: nat)
    requires Placed(s) && Enabled(s, Close(f, true))
    ensures Done(Ended(s, f, true), s.active[f].job.id)
  {
    assert JobAt(s, s.active[f].job, Running);
  }

  /** The row of a finished run goes if the database removes it, and nothing else does. */
  lemma RowAfterRun(s: State, f: nat, removed: bool)
    requires Placed(s) && Enabled(s, Close(f, removed))
    ensures Apply(s, Close(f, removed)).rows == if removed then s.rows - {s.active[f].job.id} else s.rows
  {
    hide Pump;
    assert JobAt(s, s.active[f].job, Running);
    PumpKeepsRows(Ended(s, f, removed));
  }

  lemma PumpKeepsDone(s: State, id: nat)
    requires QueueOk(s) && Done(s, id)
    ensures Done(Pump(s), id) && Acc(Pump(s), id).starts == Acc(s, id).starts
  {
    if !s.processing && s.queue != [] {
      assert JobAt(s, s.queue[0], Queued);
    }
  }

  lemma EnqueueKeepsDone(s: State, job: Job, id: nat)
    requires Placed(s) && Done(s, id) && Enabled(s, Enqueue(job))
    ensures Done(Apply(s, Enqueue(job)), id) && Acc(Apply(s, Enqueue(job)), id).starts == Acc(s, id).starts
  {
    hide Pump, TodoOk, ActiveOk;
    assert JobAt(s, job, Arriving);
    QueuedIsPlaced(s, job);
    PumpKeepsDone(Push(s.(arriving := s.arriving - {job}), job), id);
  }

  lemma CloseKeepsDone(s: State, f: nat, removed: bool, id: nat)
    requires Placed(s) && Enabled(s, Close(f, removed)) && Done(Ended(s, f, removed), id)
    ensures Done(Apply(s, Close(f, removed)), id)
    ensures Acc(Apply(s, Close(f, removed)), id).starts == Acc(s, id).starts
  {
    hide Pump, TodoOk;
    EndedIsPlaced(s, f, removed);
    PumpKeepsDone(Ended(s, f, removed), id);
  }

  lemma EndedKeepsDone(s: State, f: nat, removed: bool, id: nat)
    requires Placed(s) && Enabled(s, Close(f, removed)) && Done(s, id)
    ensures Done(Ended(s, f, removed), id)
  {
    assert JobAt(s, s.active[f].job, Running);
  }

  lemma RestKeepsDone(s: State, st: Step, id: nat)
    requires Placed(s) && Done(s, id) && Enabled(s, st)
    requires !st.Enqueue? && !st.Close? && !st.RecoverPump? && !st.Restart?
    ensures (id in Apply(s, st).place ==> Apply(s, st).place[id].Over?)
    ensures Acc(Apply(s, st), id).starts == Acc(s, id).starts
  {
    hide QueueOk, ArrivingOk, ActiveOk, OldestFirst;
    if s.todo != [] {
      assert ListedOk(s, s.todo[0], s.recovery.Bumped?);
    }
  }

  lemma RestartKeepsDone(s: State, listed: bool, id: nat)
    requires Placed(s) && Done(s, id)
    ensures Done(Apply(s, Restart(listed)), id) && Acc(Apply(s, Restart(listed)), id) == Acc(s, id)
  {
    ListRowsFacts(s.rows, s.nextId);
  }

  lemma StepKeepsDone(s: State, st: Step, id: nat)
    requires Placed(s) && Done(s, id) && Enabled(s, st)
    ensures Done(Apply(s, st), id) && Acc(Apply(s, st), id).starts == Acc(s, id).starts
  {
    hide Apply, Pump, QueueOk, ArrivingOk, ActiveOk, TodoOk, IdsKnown;
    StepKeepsGone(s, st, id);
    match st
    case Enqueue(job) => EnqueueKeepsDone(s, job, id);
    case Close(f, removed) =>
      EndedKeepsDone(s, f, removed, id);
      CloseKeepsDone(s, f, removed, id);
    case RecoverPump => PumpStepKeepsDone(s, id);
    case Restart(listed) => RestartKeepsDone(s, listed, id);
    case _ => RestKeepsDone(s, st, id);
  }

  lemma PumpStepKeepsDone(s: State, id: nat)
    requires QueueOk(s) && Done(s, id) && Enabled(s, RecoverPump)
    ensures Done(Apply(s, RecoverPump), id) && Acc(Apply(s, RecoverPump), id).starts == Acc(s, id).starts
  {
    PumpKeepsDone(s, id);
  }

  lemma {:induction false} TraceKeepsDone(s: State, steps: seq<Step>, id: nat)
    requires Placed(s) && Done(s, id) && IsTrace(s, steps)
    ensures Acc(After(s, steps), id).starts == Acc(s, id).starts
    decreases |steps|
  {
    hide Apply, Enabled, Placed, Done, Acc;
    if steps != [] {
      StepKeepsDone(s, steps[0], id);
      StepKeepsPlaced(s, steps[0]);
      TraceKeepsDone(Apply(s, steps[0]), steps[1..], id);
    }
  }

  /** The step that ends the message for good: its run or recovery is over, and the database removes its row. */
  predicate Finishes(s: State, st: Step, id: nat) {
    || (st.Close? && st.removed && st.f < |s.active| && id == s.active[st.f].job.id)
    || (st.RecoverGiveUp? && st.removed && s.todo != [] && id == s.todo[0].id)
  }

  lemma FinishesDone(s: State, st: Step, id: nat)
    requires Placed(s) && Enabled(s, st) && Finishes(s, st, id)
    ensures Done(Apply(s, st), id) && Acc(Apply(s, st), id).starts == Acc(s, id).starts
  {
    hide Apply, QueueOk, ArrivingOk, OldestFirst;
    if st.Close? {
      ClosingEnds(s, st.f);
      CloseKeepsDone(s, st.f, true, id);
    } else {
      GivesUp(s, true);
      GivingUpCountsNothing(s, id);
    }
  }

  lemma GivingUpCountsNothing(s: State, id: nat)
    requires Placed(s) && Enabled(s, RecoverGiveUp(true)) && id == s.todo[0].id
    ensures Acc(Apply(s, RecoverGiveUp(true)), id) == Acc(s, id)
    ensures id < Apply(s, RecoverGiveUp(true)).nextId
  {
    hide QueueOk, ArrivingOk, ActiveOk;
    assert ListedOk(s, s.todo[0], false);
  }

  /** Once a message was replied to, or given up, and its row removed, it is never started again, over any number of
      restarts. */
  lemma NeverAgain(steps: seq<Step>, s: State, st: Step, id: nat, more: seq<Step>)
    requires Reaches(steps, s) && Enabled(s, st) && Finishes(s, st, id) && IsTrace(Apply(s, st), more)
    ensures Acc(After(Apply(s, st), more), id).starts == Acc(s, id).starts
  {
    hide IsTrace, After, Apply, Done, Finishes;
    ReachedInv(steps, s);
    FinishesDone(s, st, id);
    StepKeepsPlaced(s, st);
    TraceKeepsDone(Apply(s, st), more, id);
  }

  /***** Every run ends with a word *****/

  /** How the run under way has come to its end so far. */
  datatype Word = Nothing | Sent | Threw

  function LastWord(w: Word, steps: seq<Step>): Word
    decreases |steps|
  {
    if steps == [] then w else LastWord(NextWord(w, steps[0]), steps[1..])
  }

  function NextWord(w: Word, st: Step): Word {
    match st
    case Send(_) => Sent
    case Spend(_, _, SpendThrows(_)) => Threw
    case AnswerError(_, ReturnThrows(_)) => Threw
    case Close(_, _) => Nothing
    case Restart(_) => Nothing
    case _ => w
  }

  predicate WordOk(s: State, w: Word) {
    && |s.active| == (if s.processing then 1 else 0)
    && (if s.active == [] then w == Nothing else s.active[0].stage == Closing <==> w != Nothing)
  }

  lemma PumpKeepsWord(s: State)
    requires |s.active| == (if s.processing then 1 else 0)
    ensures s.processing ==> Pump(s) == s
    ensures !s.processing ==> WordOk(Pump(s), Nothing)
  {
  }

  lemma StepKeepsWord(s: State, st: Step, w: Word)
    requires WordOk(s, w) && Enabled(s, st)
    ensures WordOk(Apply(s, st), NextWord(w, st))
  {
    hide Pump, ListRows, PlaceAll, ApplyRecoverBump, ApplyRecoverRefund;
    match st
    case Enqueue(job) => PumpKeepsWord(Push(s.(arriving := s.arriving - {job}), job));
    case Close(f, removed) =>
      assert Ended(s, f, removed).active == [];
      PumpKeepsWord(Ended(s, f, removed));
    case RecoverPump => PumpKeepsWord(s);
    case RecoverBump(written) => RecoveryKeepsWord(s, written);
    case RecoverRefund(booked) => RecoveryKeepsWord(s, booked);
    case _ =>
  }

  lemma RecoveryKeepsWord(s: State, b: bool)
    requires s.todo != []
    ensures ApplyRecoverBump(s, b).active == s.active && ApplyRecoverBump(s, b).processing == s.processing
    ensures ApplyRecoverRefund(s, b).active == s.active && ApplyRecoverRefund(s, b).processing == s.processing
  {
  }

  lemma {:induction false} TraceKeepsWord(s: State, steps: seq<Step>, w: Word)
    requires WordOk(s, w) && IsTrace(s, steps)
    ensures WordOk(After(s, steps), LastWord(w, steps))
    decreases |steps|
  {
    hide WordOk, Apply, Enabled;
    if steps != [] {
      StepKeepsWord(s, steps[0], w);
      TraceKeepsWord(Apply(s, steps[0]), steps[1..], NextWord(w, steps[0]));
    }
  }

  /** In every run, a call that is about to end has sent a reply or a notice, unless its debit or its refund threw; and
      once it has sent something, or one of these threw, it does nothing more but end. */
  lemma EveryRunEndsWithAWord(steps: seq<Step>, s: State)
    requires Reaches(steps, s) && s.active != []
    ensures s.active[0].stage == Closing <==> LastWord(Nothing, steps) != Nothing
  {
    TraceKeepsWord(INITIAL, steps, Nothing);
  }

  function Rank(stage: Stage): nat {
    match stage
    case Starting => 0
    case Charged => 1
    case Answering => 2
    case Delivered => 3
    case Closing => 4
  }

  /** Every step of a call moves it on, so at most four of them come between its start and its end; and once the debit
      is recorded, or there is nobody to charge, the model is asked. */
  lemma EveryStepMovesOn(s: State, st: Step)
    requires Enabled(s, st) && OfRunning(st)
    ensures var before, after := s.active[st.f].stage, Apply(s, st).active[st.f].stage;
      && Rank(before) < Rank(after)
      && (st.RecordFlag? || st.SkipSpend? ==> Enabled(Apply(s, st), AnswerOk(st.f)))
  {
  }

  /***** Nothing waits for nobody *****/

  /** Recovery is under way since the last restart. */
  predicate Recovering(r: bool, steps: seq<Step>)
    decreases |steps|
  {
    if steps == [] then r else Recovering(StillRecovering(r, steps[0]), steps[1..])
  }

  predicate StillRecovering(r: bool, st: Step) {
    st.Restart? || (r && !st.RecoverPump?)
  }

  /** Rows are listed, and jobs lie around while no job is processed, only during recovery. */
  predicate Attended(s: State, recovering: bool) {
    !recovering ==> s.todo == [] && (s.queue != [] ==> s.processing)
  }

  lemma StepKeepsAttended(s: State, st: Step, recovering: bool)
    requires Attended(s, recovering) && Enabled(s, st)
    ensures Attended(Apply(s, st), StillRecovering(recovering, st))
  {
  }

  lemma {:induction false} TraceKeepsAttended(s: State, steps: seq<Step>, recovering: bool)
    requires Attended(s, recovering) && IsTrace(s, steps)
    ensures Attended(After(s, steps), Recovering(recovering, steps))
    decreases |steps|
  {
    hide Apply, Enabled, Attended, StillRecovering;
    if steps != [] {
      StepKeepsAttended(s, steps[0], recovering);
      TraceKeepsAttended(Apply(s, steps[0]), steps[1..], StillRecovering(recovering, steps[0]));
    }
  }

  /** In every run, as long as recovery is not under way: no listed row is left over, and if any job waits, another is
      being processed, so that its end starts the next. */
  lemma NothingWaitsForNobody(steps: seq<Step>, s: State)
    requires Reaches(steps, s) && !Recovering(false, steps)
    ensures s.todo == [] && (s.queue != [] ==> s.processing && |s.active| == 1)
  {
    ReachedInv(steps, s);
    TraceKeepsAttended(INITIAL, steps, false);
  }
}
