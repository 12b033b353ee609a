/** What a message is charged over all restarts of the reply worker. The row's ptSpent flag is set when a run
    is charged and never cleared, and recovery refunds a constant: so what a kill leaves behind depends on
    where it fell, and the balance of a message is right exactly when those errors add up to nothing. */
module ReplyCharges {
  import opened ReplyMachine

  /***** What a message should have been charged, read off where it is *****/

  /** A run owes its user the charge back until it has answered. */
  function HeldAt(frame: Frame): nat {
    match frame.stage
    case Starting => 0
    case Charged => frame.cost
    case Answering => frame.cost
    case _ => if frame.answered then frame.cost else 0
  }

  /** What the message's run holds; at most one call of processJob is running. */
  function RunHolds(s: State, id: nat): nat {
    if s.active != [] && s.active[0].job.id == id then HeldAt(s.active[0]) else 0
  }

  predicate RefundedAtHead(s: State, id: nat) {
    s.todo != [] && s.todo[0].id == id && s.recovery != Fresh
  }

  /** A row recovery has still to refund. */
  function StillDue(s: State, id: nat): nat {
    if id in s.rows && !RefundedAtHead(s, id) then RefundDue(s.rows[id]) else 0
  }

  /** One cost while its run holds it or has answered for it, what its row says while it waits to be refunded,
      and nothing otherwise. No ledger is consulted. */
  function Owed(s: State, id: nat): nat {
    if id !in s.place then StillDue(s, id)
    else
      match s.place[id]
      case Running => RunHolds(s, id)
      case Listing => StillDue(s, id)
      case Over(answered, cost) => if answered then cost else 0
      case _ => 0
  }

  /** The process or the database still knows the message, or it is yet to come. */
  predicate Known(s: State, id: nat) {
    id in s.place || id in s.rows || id >= s.nextId
  }

  /** What a step gets wrong for a message, read off the step and where the message is: a kill leaves a row that
      asks for another refund than what was held, or a booking does not go the way its caller sees it. */
  function Misbooked(s: State, st: Step, id: nat): int
    requires Enabled(s, st)
  {
    match st
    case Restart(_) => if id in s.rows then Owed(s, id) - RefundDue(s.rows[id]) else 0
    case RecoverRefund(booked) => if s.todo[0].id == id && !booked then RefundDue(s.todo[0].row) else 0
    case Spend(f, _, _) => if s.active[f].job.id == id then Lost(s.active[f], st) else 0
    case AnswerError(f, _) => if s.active[f].job.id == id then Lost(s.active[f], st) else 0
    case _ => 0
  }

  function Misbookings(s: State, steps: seq<Step>, id: nat): int
    requires IsTrace(s, steps)
    decreases |steps|
  {
    if steps == [] then 0
    else Misbooked(s, steps[0], id) + Misbookings(Apply(s, steps[0]), steps[1..], id)
  }

  /***** The balance of a message after every trace *****/

  /** A run that has not been charged has no cost; one without a sender never is. */
  predicate CostsOk(s: State) {
    forall f :: 0 <= f < |s.active| ==>
                  (s.active[f].stage.Starting? ==> s.active[f].cost == 0 && !s.active[f].answered)
                  && (s.active[f].stage.Charged? || s.active[f].stage.Answering? ==> !s.active[f].answered)
  }

  ghost predicate ChargeInv(s: State) {
    Inv(s) && CostsOk(s)
  }

  /** The LP booked for the message beyond what it should have been. */
  function Excess(s: State, id: nat): int {
    Acc(s, id).net - Owed(s, id)
  }

  lemma PumpKeepsExcess(s: State, id: nat)
    requires Placed(s) && CostsOk(s)
    ensures CostsOk(Pump(s)) && Excess(Pump(s), id) == Excess(s, id) && (Known(Pump(s), id) <==> Known(s, id))
  {
    if !s.processing && s.queue != [] {
      assert JobAt(s, s.queue[0], Queued);
      assert |s.active| == 0;
    }
  }

  lemma EnqueueKeepsExcess(s: State, job: Job, id: nat)
    requires Placed(s) && CostsOk(s) && Enabled(s, Enqueue(job))
    ensures var t := Apply(s, Enqueue(job));
      CostsOk(t) && Excess(t, id) == Excess(s, id) && (Known(t, id) <==> Known(s, id))
  {
    QueuedIsPlaced(s, job);
    PushKeepsExcess(s.(arriving := s.arriving - {job}), job, id);
    PumpKeepsExcess(Push(s.(arriving := s.arriving - {job}), job), id);
  }

  lemma PushKeepsExcess(s: State, job: Job, id: nat)
    requires job.id in s.place && s.place[job.id].Waiting() && !RefundedAtHead(s, job.id)
    ensures Excess(Push(s, job), id) == Excess(s, id) && (Known(Push(s, job), id) <==> Known(s, id))
  {
  }

  lemma EndedKeepsExcess(s: State, f: nat, removed: bool, id: nat)
    requires Placed(s) && Enabled(s, Close(f, removed))
    ensures var t := Ended(s, f, removed);
      CostsOk(t) && Excess(t, id) == Excess(s, id) && (Known(t, id) <==> Known(s, id))
  {
    var job := s.active[f].job;
    assert JobAt(s, job, Running);
    assert Ended(s, f, removed).active == [];
  }

  lemma CloseKeepsExcess(s: State, f: nat, removed: bool, id: nat)
    requires Placed(s) && Enabled(s, Close(f, removed))
    ensures var t := Apply(s, Close(f, removed));
      CostsOk(t) && Excess(t, id) == Excess(s, id) && (Known(t, id) <==> Known(s, id))
  {
    EndedIsPlaced(s, f, removed);
    EndedKeepsExcess(s, f, removed, id);
    PumpKeepsExcess(Ended(s, f, removed), id);
  }

  lemma RunningKeepsCosts(s: State, st: Step)
    requires CostsOk(s) && Enabled(s, st) && OfRunning(st)
    ensures CostsOk(ApplyRunning(s, st))
  {
  }

  lemma RunningKeepsExcess(s: State, st: Step, id: nat)
    requires Placed(s) && CostsOk(s) && Enabled(s, st) && OfRunning(st)
    ensures var t := ApplyRunning(s, st);
      CostsOk(t) && Excess(t, id) == Excess(s, id) + Misbooked(s, st, id) && (Known(t, id) <==> Known(s, id))
  {
    hide QueueOk, ArrivingOk, OldestFirst;
    RunningKeepsCosts(s, st);
    var frame := s.active[st.f];
    assert st.f == 0;
    assert JobAt(s, frame.job, Running);
    HeldAfter(frame, st);
    assert s.todo != [] ==> ListedOk(s, s.todo[0], s.recovery.Bumped?);
  }

  /** What a step books and what it makes the run hold differ by what it misbooks. */
  lemma HeldAfter(frame: Frame, st: Step)
    requires OfRunning(st)
    requires st.Spend? || st.SkipSpend? ==> frame.stage.Starting? && frame.cost == 0 && !frame.answered
    requires st.RecordFlag? ==> frame.stage.Charged? && !frame.answered
    requires st.AnswerOk? || st.AnswerError? ==> frame.stage.Answering? && !frame.answered
    requires st.Send? ==> frame.stage.Delivered?
    ensures HeldAt(NextFrame(frame, st)) + Lost(frame, st) == HeldAt(frame) + Booking(frame, st)
    ensures NextFrame(frame, st).job == frame.job
  {
  }

  /** Charges that stay although the run gives up. */
  function Lost(frame: Frame, st: Step): int
    requires OfRunning(st)
  {
    match st
    case Spend(_, cost, result) => if result.SpendThrows? && result.booked then cost else 0
    case AnswerError(_, refund) => if refund.ReturnThrows? && !refund.booked then frame.cost else 0
    case _ => 0
  }

  lemma RefundKeepsExcess(s: State, booked: bool, id: nat)
    requires Placed(s) && CostsOk(s) && Enabled(s, RecoverRefund(booked))
    ensures var st := RecoverRefund(booked);
      var t := Apply(s, st);
      CostsOk(t) && Excess(t, id) == Excess(s, id) + Misbooked(s, st, id) && (Known(t, id) <==> Known(s, id))
  {
    assert ListedOk(s, s.todo[0], false);
  }

  lemma BumpKeepsExcess(s: State, written: bool, id: nat)
    requires Placed(s) && CostsOk(s) && Enabled(s, RecoverBump(written))
    ensures var t := Apply(s, RecoverBump(written));
      CostsOk(t) && Excess(t, id) == Excess(s, id) && (Known(t, id) <==> Known(s, id))
  {
    assert ListedOk(s, s.todo[0], false);
  }

  lemma GiveUpKeepsExcess(s: State, removed: bool, id: nat)
    requires Placed(s) && CostsOk(s) && Enabled(s, RecoverGiveUp(removed))
    ensures var t := Apply(s, RecoverGiveUp(removed));
      CostsOk(t) && Excess(t, id) == Excess(s, id) && (Known(t, id) <==> Known(s, id))
  {
    assert ListedOk(s, s.todo[0], false);
  }

  lemma PutBackKeepsExcess(s: State, id: nat)
    requires Placed(s) && CostsOk(s) && Enabled(s, RecoverPush)
    ensures var t := Apply(s, RecoverPush);
      CostsOk(t) && Excess(t, id) == Excess(s, id) && (Known(t, id) <==> Known(s, id))
  {
    assert ListedOk(s, s.todo[0], true);
  }

  lemma RestartKeepsExcess(s: State, listed: bool, id: nat)
    requires Placed(s) && CostsOk(s)
    requires Known(Apply(s, Restart(listed)), id)
    ensures var t := Apply(s, Restart(listed));
      CostsOk(t) && Known(s, id) && Excess(t, id) == Excess(s, id) + Misbooked(s, Restart(listed), id)
  {
    ListRowsFacts(s.rows, s.nextId);
    var t := Apply(s, Restart(listed));
    if id in t.place {
      var p :| p in t.todo && p.id == id;
    }
  }

  lemma ArriveKeepsExcess(s: State, persisted: bool, sender: bool, id: nat)
    requires Placed(s) && CostsOk(s)
    ensures var t := Apply(s, Arrive(persisted, sender));
      CostsOk(t) && Excess(t, id) == Excess(s, id) && (Known(t, id) <==> Known(s, id))
  {
    assert forall f :: 0 <= f < |s.active| ==> JobAt(s, s.active[f].job, Running);
    assert s.todo != [] ==> ListedOk(s, s.todo[0], s.recovery.Bumped?);
  }

  /** Each step changes a message's excess by what it misbooks. */
  lemma StepExcess(s: State, st: Step, id: nat)
    requires ChargeInv(s) && Enabled(s, st) && Known(Apply(s, st), id)
    ensures Known(s, id) && CostsOk(Apply(s, st))
    ensures Excess(Apply(s, st), id) == Excess(s, id) + Misbooked(s, st, id)
  {
    match st
    case Arrive(persisted, sender) => ArriveKeepsExcess(s, persisted, sender, id);
    case Enqueue(job) => EnqueueKeepsExcess(s, job, id);
    case Close(f, removed) => CloseKeepsExcess(s, f, removed, id);
    case Restart(listed) => RestartKeepsExcess(s, listed, id);
    case RecoverPump => PumpKeepsExcess(s, id);
    case RecoverRefund(booked) => RefundKeepsExcess(s, booked, id);
    case RecoverBump(written) => BumpKeepsExcess(s, written, id);
    case RecoverGiveUp(removed) => GiveUpKeepsExcess(s, removed, id);
    case RecoverPush => PutBackKeepsExcess(s, id);
    case _ => RunningKeepsExcess(s, st, id);
  }

  lemma StepKeepsCosts(s: State, st: Step)
    requires ChargeInv(s) && Enabled(s, st)
    ensures CostsOk(Apply(s, st))
  {
    if !st.Restart? {
      assert Known(Apply(s, st), s.nextId);
      StepExcess(s, st, s.nextId);
    }
  }

  lemma StepKeepsChargeInv(s: State, st: Step)
    requires ChargeInv(s) && Enabled(s, st)
    ensures ChargeInv(Apply(s, st))
  {
    StepKeepsInv(s, st);
    StepKeepsCosts(s, st);
  }

  lemma {:induction false} TraceKeepsChargeInv(s: State, steps: seq<Step>)
    requires ChargeInv(s) && IsTrace(s, steps)
    ensures ChargeInv(After(s, steps))
    decreases |steps|
  {
    if steps != [] {
      StepKeepsChargeInv(s, steps[0]);
      TraceKeepsChargeInv(Apply(s, steps[0]), steps[1..]);
    }
  }

  lemma ReachedChargeInv(steps: seq<Step>, s: State)
    requires Reaches(steps, s)
    ensures ChargeInv(s)
  {
    hide ChargeInv, IsTrace, After;
    StartsSound();
    TraceKeepsChargeInv(INITIAL, steps);
  }

  lemma StartsSound()
    ensures ChargeInv(INITIAL)
  {
  }

  lemma {:induction false} TraceExcess(s: State, steps: seq<Step>, id: nat)
    requires ChargeInv(s) && IsTrace(s, steps) && Known(After(s, steps), id)
    ensures Known(s, id) && Excess(After(s, steps), id) == Excess(s, id) + Misbookings(s, steps, id)
    decreases |steps|
  {
    if steps != [] {
      StepKeepsChargeInv(s, steps[0]);
      TraceExcess(Apply(s, steps[0]), steps[1..], id);
      StepExcess(s, steps[0], id);
    }
  }

  /** After every trace whatsoever, the balance of a message is what it should have been charged where it is
      now, and the sum of what the steps so far got wrong for it. */
  lemma BalanceIsOwedAndMisbooked(steps: seq<Step>, s: State, id: nat)
    requires Reaches(steps, s) && Known(s, id)
    ensures Acc(s, id).net == Owed(s, id) + Misbookings(INITIAL, steps, id)
  {
    hide Apply, Owed, Misbookings, Inv, CostsOk;
    StartsSound();
    TraceExcess(INITIAL, steps, id);
    NoExcessAtFirst(id);
  }

  /** So a message whose run is over has been charged one cost in all if that run answered, and nothing if it did
      not, exactly if the errors for it cancel; what happened to other messages plays no part. */
  lemma OneCostIff(steps: seq<Step>, s: State, f: nat)
    requires Reaches(steps, s) && AtStage(s, f, Closing)
    ensures var frame := s.active[f];
      Acc(s, frame.job.id).net == (if frame.answered then frame.cost else 0)
      <==> Misbookings(INITIAL, steps, frame.job.id) == 0
  {
    hide Apply, IsTrace, After, Misbookings, Owed, Known, Placed;
    ReachedChargeInv(steps, s);
    OwedAtClose(s, f);
    BalanceIsOwedAndMisbooked(steps, s, s.active[f].job.id);
  }

  lemma OwedAtClose(s: State, f: nat)
    requires Placed(s) && AtStage(s, f, Closing)
    ensures var id := s.active[f].job.id;
      Known(s, id) && Owed(s, id) == (if s.active[f].answered then s.active[f].cost else 0)
  {
    assert JobAt(s, s.active[f].job, Running) && f == 0;
  }

  /***** Where a kill may fall *****/

  predicate Flagged(s: State, id: nat) {
    id in s.rows && s.rows[id].ptSpent && s.rows[id].sender
  }

  /** A run of the message has been charged and has not given the charge back: it is between the debit and the
      answer, or has answered. */
  predicate HoldsCharge(s: State, id: nat) {
    id in s.place &&
    match s.place[id]
    case Running => s.active != [] && s.active[0].job.id == id
                    && (s.active[0].stage.Charged? || s.active[0].stage.Answering? || s.active[0].answered)
    case Over(answered, _) => answered
    case _ => false
  }

  function ChargeHeld(s: State, id: nat): nat {
    if !HoldsCharge(s, id) then 0
    else if s.place[id].Running? then s.active[0].cost else s.place[id].cost
  }

  /** Recovery has the row on its list, or could not list it, and has not refunded it. */
  predicate AwaitsRefund(s: State, id: nat) {
    id in s.rows && !RefundedAtHead(s, id) && (id in s.place ==> s.place[id].Listing?)
  }

  /** The places where a kill does a message no harm: while its run holds a charge of exactly the refunded
      constant and the row says so; while it holds none and the row does not ask for a refund; while recovery has
      yet to refund it. A message without a row cannot be refunded at all. */
  predicate HarmlessKill(s: State, id: nat) {
    || id !in s.rows
    || AwaitsRefund(s, id)
    || (if Flagged(s, id) then ChargeHeld(s, id) == LLM_PT_COST else ChargeHeld(s, id) == 0)
  }

  lemma KillIsHarmlessIff(s: State, listed: bool, id: nat)
    requires ChargeInv(s)
    ensures Misbooked(s, Restart(listed), id) == 0 <==> HarmlessKill(s, id)
  {
    assert forall f :: 0 <= f < |s.active| ==> JobAt(s, s.active[f].job, Running);
    if RefundedAtHead(s, id) {
      assert ListedOk(s, s.todo[0], s.recovery.Bumped?);
    }
  }

  /** Every kill falls in such a place for this message, and no booking of it goes unacknowledged. */
  predicate HarmlessStep(s: State, st: Step, id: nat)
    requires Enabled(s, st)
  {
    match st
    case Restart(_) => HarmlessKill(s, id)
    case RecoverRefund(booked) => s.todo[0].id == id ==> booked
    case Spend(f, _, result) => s.active[f].job.id == id && result.SpendThrows? ==> !result.booked
    case AnswerError(f, refund) => s.active[f].job.id == id && refund.ReturnThrows? ==> refund.booked
    case _ => true
  }

  predicate IsHarmless(s: State, steps: seq<Step>, id: nat)
    requires IsTrace(s, steps)
    decreases |steps|
  {
    steps != [] ==> HarmlessStep(s, steps[0], id) && IsHarmless(Apply(s, steps[0]), steps[1..], id)
  }

  lemma HarmlessBooksNothingWrong(s: State, st: Step, id: nat)
    requires ChargeInv(s) && Enabled(s, st) && HarmlessStep(s, st, id)
    ensures Misbooked(s, st, id) == 0
  {
    if st.Restart? {
      KillIsHarmlessIff(s, st.listed, id);
    }
  }

  lemma {:induction false} HarmlessTrace(s: State, steps: seq<Step>, id: nat)
    requires ChargeInv(s) && IsTrace(s, steps) && IsHarmless(s, steps, id)
    ensures Misbookings(s, steps, id) == 0
    decreases |steps|
  {
    if steps != [] {
      HarmlessBooksNothingWrong(s, steps[0], id);
      StepKeepsChargeInv(s, steps[0]);
      HarmlessTrace(Apply(s, steps[0]), steps[1..], id);
    }
  }

  /** However many restarts: if every kill of this message was harmless where it fell, then once its run is over it
      has been charged exactly one cost if it answered and nothing if it did not. Other messages may have been
      killed anywhere. */
  lemma OneCostPerAnswer(steps: seq<Step>, s: State, f: nat)
    requires Reaches(steps, s) && AtStage(s, f, Closing) && IsHarmless(INITIAL, steps, s.active[f].job.id)
    ensures Acc(s, s.active[f].job.id).net == (if s.active[f].answered then s.active[f].cost else 0)
  {
    HarmlessTrace(INITIAL, steps, s.active[f].job.id);
    OneCostIff(steps, s, f);
  }

  /** And a message recovery has refunded, to give it up or to put it back, has been charged nothing. */
  lemma NothingWhenRefunded(steps: seq<Step>, s: State)
    requires Reaches(steps, s) && s.todo != [] && s.recovery != Fresh && IsHarmless(INITIAL, steps, s.todo[0].id)
    ensures Acc(s, s.todo[0].id).net == 0
  {
    hide Apply, IsTrace, After, Misbookings, Owed, Known, IsHarmless, Placed;
    ReachedChargeInv(steps, s);
    NothingOwedWhenRefunded(s);
    StartsSound();
    HarmlessTrace(INITIAL, steps, s.todo[0].id);
    BalanceIsOwedAndMisbooked(steps, s, s.todo[0].id);
  }

  lemma NothingOwedWhenRefunded(s: State)
    requires Placed(s) && s.todo != [] && s.recovery != Fresh
    ensures Known(s, s.todo[0].id) && Owed(s, s.todo[0].id) == 0
  {
    assert ListedOk(s, s.todo[0], s.recovery.Bumped?);
  }

  /** A kill while the model is answering is harmless to that message, if the flag was written and the charge was
      the constant recovery refunds, whatever state every other message is in. */
  lemma MidAnswerIsHarmless(steps: seq<Step>, s: State, f: nat)
    requires Reaches(steps, s) && AtStage(s, f, Answering)
    requires Flagged(s, s.active[f].job.id) && s.active[f].cost == LLM_PT_COST
    ensures HarmlessKill(s, s.active[f].job.id)
  {
    hide Apply, IsTrace, After, HarmlessKill, Placed;
    ReachedChargeInv(steps, s);
    AnsweringHolds(s, f);
  }

  lemma AnsweringHolds(s: State, f: nat)
    requires Placed(s) && AtStage(s, f, Answering)
    requires Flagged(s, s.active[f].job.id) && s.active[f].cost == LLM_PT_COST
    ensures HarmlessKill(s, s.active[f].job.id)
  {
    assert JobAt(s, s.active[f].job, Running) && f == 0;
  }

  /***** A harmful kill always shows *****/

  predicate NoRestart(steps: seq<Step>) {
    forall i :: 0 <= i < |steps| ==> !steps[i].Restart?
  }

  predicate StillListed(s: State, id: nat) {
    id in s.place && s.place[id].Listing? && AwaitsRefund(s, id)
  }

  lemma EnqueueLeavesListed(s: State, job: Job, id: nat)
    requires ArrivingOk(s) && job in s.arriving && StillListed(Apply(s, Enqueue(job)), id)
    ensures StillListed(s, id)
  {
    hide Pump;
    assert JobAt(s, job, Arriving);
    PumpLeavesListed(Push(s.(arriving := s.arriving - {job}), job), id);
  }

  lemma CloseLeavesListed(s: State, f: nat, removed: bool, id: nat)
    requires ActiveOk(s) && Enabled(s, Close(f, removed)) && StillListed(Apply(s, Close(f, removed)), id)
    ensures StillListed(s, id)
  {
    hide Pump;
    assert JobAt(s, s.active[f].job, Running);
    PumpLeavesListed(Ended(s, f, removed), id);
  }

  /** A step that leaves a row on recovery's list, not refunded yet, books nothing for it. */
  lemma NothingWhileAwaiting(s: State, st: Step, id: nat)
    requires Placed(s) && Enabled(s, st) && !st.Restart? && StillListed(Apply(s, st), id)
    ensures StillListed(s, id) && Misbooked(s, st, id) == 0
  {
    hide QueueOk, TodoOk, Pump;
    match st
    case Arrive(_, _) =>
    case Enqueue(job) => EnqueueLeavesListed(s, job, id);
    case Close(f, removed) => CloseLeavesListed(s, f, removed, id);
    case RecoverPump => PumpLeavesListed(s, id);
    case RecoverRefund(_) => RecoveringOthers(s, st, id);
    case RecoverBump(_) => RecoveringOthers(s, st, id);
    case RecoverGiveUp(_) => RecoveringOthers(s, st, id);
    case RecoverPush => RecoveringOthers(s, st, id);
    case _ => RunningOthers(s, st, id);
  }

  lemma RunningOthers(s: State, st: Step, id: nat)
    requires Placed(s) && Enabled(s, st) && StillListed(Apply(s, st), id) && OfRunning(st)
    ensures StillListed(s, id) && Misbooked(s, st, id) == 0
  {
    assert JobAt(s, s.active[st.f].job, Running);
  }

  lemma RecoveringOthers(s: State, st: Step, id: nat)
    requires Placed(s) && Enabled(s, st) && StillListed(Apply(s, st), id)
    requires st.RecoverRefund? || st.RecoverBump? || st.RecoverGiveUp? || st.RecoverPush?
    ensures StillListed(s, id) && Misbooked(s, st, id) == 0
  {
    assert ListedOk(s, s.todo[0], s.recovery.Bumped?);
  }

  lemma PumpLeavesListed(s: State, id: nat)
    ensures Pump(s).rows == s.rows && Pump(s).todo == s.todo && Pump(s).recovery == s.recovery
    ensures id in Pump(s).place && Pump(s).place[id].Listing? ==> id in s.place && s.place[id] == Pump(s).place[id]
  {
  }

  lemma {:induction false} NothingUntilRefund(s: State, steps: seq<Step>, id: nat)
    requires ChargeInv(s) && IsTrace(s, steps) && NoRestart(steps)
    requires StillListed(After(s, steps), id)
    ensures StillListed(s, id) && Misbookings(s, steps, id) == 0
    decreases |steps|
  {
    if steps != [] {
      StepKeepsChargeInv(s, steps[0]);
      NothingUntilRefund(Apply(s, steps[0]), steps[1..], id);
      NothingWhileAwaiting(s, steps[0], id);
    }
  }

  /** The process dies at s, and the next one gets to refund a row: the message is then square exactly if the kill was
      harmless where it fell. */
  lemma RefundExactIff(before: seq<Step>, s: State, steps: seq<Step>, t: State)
    requires Reaches(before, s) && NoRestart(steps)
    requires IsTrace(Apply(s, Restart(true)), steps) && t == After(Apply(s, Restart(true)), steps)
    requires t.todo != [] && t.recovery.Fresh? && Misbookings(INITIAL, before, t.todo[0].id) == 0
    ensures var id := t.todo[0].id;
      Acc(Apply(t, RecoverRefund(true)), id).net == 0 <==> HarmlessKill(s, id)
  {
    hide Apply, IsTrace, After, Misbookings, Misbooked, Excess, Owed, Known, HarmlessKill, Acc;
    ReachedChargeInv(before, s);
    AfterKill(s, steps, t);
    var id := t.todo[0].id;
    SquareAfterRefund(t);
    ExcessAcrossKill(s, steps, t, id);
    ExcessAtKill(before, s, id);
    KillIsHarmlessIff(s, true, id);
  }

  lemma AfterKill(s: State, steps: seq<Step>, t: State)
    requires ChargeInv(s) && NoRestart(steps)
    requires IsTrace(Apply(s, Restart(true)), steps) && t == After(Apply(s, Restart(true)), steps)
    requires t.todo != [] && t.recovery.Fresh?
    ensures ChargeInv(t) && Misbookings(Apply(s, Restart(true)), steps, t.todo[0].id) == 0
    ensures t.todo[0].id in s.rows
  {
    var s1, id := Apply(s, Restart(true)), t.todo[0].id;
    StepKeepsChargeInv(s, Restart(true));
    TraceKeepsChargeInv(s1, steps);
    assert ListedOk(t, t.todo[0], false);
    NothingUntilRefund(s1, steps, id);
    assert id in s1.rows;
  }

  lemma ExcessAcrossKill(s: State, steps: seq<Step>, t: State, id: nat)
    requires ChargeInv(s) && Known(t, id)
    requires IsTrace(Apply(s, Restart(true)), steps) && t == After(Apply(s, Restart(true)), steps)
    requires Misbookings(Apply(s, Restart(true)), steps, id) == 0
    ensures Known(s, id) && Excess(t, id) == Excess(s, id) + Misbooked(s, Restart(true), id)
  {
    hide Excess, Misbookings, Misbooked, Owed, Restarted;
    StepKeepsChargeInv(s, Restart(true));
    TraceExcess(Apply(s, Restart(true)), steps, id);
    StepExcess(s, Restart(true), id);
  }

  lemma ExcessAtKill(before: seq<Step>, s: State, id: nat)
    requires Reaches(before, s) && Known(s, id) && Misbookings(INITIAL, before, id) == 0
    ensures Excess(s, id) == 0
  {
    hide Apply, Excess, Owed, Misbookings, Inv, CostsOk;
    StartsSound();
    TraceExcess(INITIAL, before, id);
    NoExcessAtFirst(id);
  }

  lemma NoExcessAtFirst(id: nat)
    ensures Excess(INITIAL, id) == 0
  {
  }

  /** A booked refund leaves nothing owed, so the balance is the excess. */
  lemma SquareAfterRefund(t: State)
    requires ChargeInv(t) && t.todo != [] && t.recovery.Fresh?
    ensures Known(t, t.todo[0].id)
    ensures Acc(Apply(t, RecoverRefund(true)), t.todo[0].id).net == Excess(t, t.todo[0].id)
  {
    assert ListedOk(t, t.todo[0], false);
    RefundKeepsExcess(t, true, t.todo[0].id);
  }

  /***** Two kills that are not harmless *****/

  lemma {:induction false} Then(s: State, st: Step, rest: seq<Step>)
    requires Enabled(s, st) && IsTrace(Apply(s, st), rest)
    ensures IsTrace(s, [st] + rest) && After(s, [st] + rest) == After(Apply(s, st), rest)
  {
    assert ([st] + rest)[1..] == rest;
  }

  /** A first run up to the model's answer: charged, and the row says so. */
  function AnsweringFirst(): State {
    var s1 := Apply(INITIAL, Arrive(true, true));
    var s2 := Apply(s1, Enqueue(Job(0, true, true)));
    assert AtStage(s2, 0, Starting);
    var s3 := Apply(s2, Spend(0, LLM_PT_COST, Spent));
    Apply(s3, RecordFlag(0, true))
  }

  const FIRST_RUN: seq<Step> :=
    [Arrive(true, true)] + ([Enqueue(Job(0, true, true))]
      + ([Spend(0, LLM_PT_COST, Spent)] + ([RecordFlag(0, true)] + [])))

  lemma FirstRun()
    ensures Reaches(FIRST_RUN, AnsweringFirst())
  {
    var s1 := Apply(INITIAL, Arrive(true, true));
    var s2 := Apply(s1, Enqueue(Job(0, true, true)));
    var s3 := Apply(s2, Spend(0, LLM_PT_COST, Spent));
    var s4 := Apply(s3, RecordFlag(0, true));
    assert IsTrace(s4, []);
    Then(s3, RecordFlag(0, true), []);
    Then(s2, Spend(0, LLM_PT_COST, Spent), [RecordFlag(0, true)] + []);
    Then(s1, Enqueue(Job(0, true, true)), [Spend(0, LLM_PT_COST, Spent)] + ([RecordFlag(0, true)] + []));
    Then(INITIAL, Arrive(true, true),
         [Enqueue(Job(0, true, true))] + ([Spend(0, LLM_PT_COST, Spent)] + ([RecordFlag(0, true)] + [])));
  }

  lemma FirstRunState()
    ensures var s := AnsweringFirst();
      && s.rows == map[0 := Row(0, true, true)] && s.nextId == 1 && AtStage(s, 0, Answering)
      && s.active == [Frame(Job(0, true, true), Answering, LLM_PT_COST, false)] && s.place == map[0 := Running]
      && Acc(s, 0) == Account(LLM_PT_COST, 1, 0) && HarmlessKill(s, 0)
  {
  }

  lemma ListOne(rows: map<nat, Row>)
    requires 0 in rows
    ensures ListRows(rows, 1) == [Listed(0, rows[0])]
  {
    assert ListRows(rows, 0) == [];
  }

  predicate Leads(s: State, st: Step, t: State) {
    Enabled(s, st) && t == Apply(s, st)
  }

  /** The next process, up to the refund of the one row. */
  lemma RelistAndRefund(s: State) returns (s1: State, s2: State)
    requires s.rows.Keys == {0} && s.nextId == 1
    ensures Leads(s, Restart(true), s1) && Leads(s1, RecoverRefund(true), s2)
    ensures s2.todo == [Listed(0, s.rows[0])] && s2.recovery.Refunded? && s2.rows == s.rows && s2.nextId == 1
    ensures Acc(s2, 0).net == Acc(s, 0).net - RefundDue(s.rows[0])
  {
    ListOne(s.rows);
    s1 := Apply(s, Restart(true));
    s2 := Apply(s1, RecoverRefund(true));
  }

  /** Counted and queued again: the row still says the message was charged. */
  lemma PutBack(s: State) returns (s1: State, s2: State)
    requires s.todo == [Listed(0, Row(0, true, true))] && s.recovery.Refunded? && s.nextId == 1
    requires s.rows == map[0 := Row(0, true, true)]
    ensures Leads(s, RecoverBump(true), s1) && Leads(s1, RecoverPush, s2)
    ensures s2.rows == map[0 := Row(1, true, true)] && s2.nextId == 1
    ensures Acc(s2, 0) == Acc(s, 0) && !HarmlessKill(s2, 0)
  {
    s1 := Apply(s, RecoverBump(true));
    s2 := Apply(s1, RecoverPush);
    assert 0 in s2.rows;
  }

  /** ptSpent is not cleared when a reply is put back: killed again before its re-run is charged, the message
      is refunded twice for one charge. */
  lemma KilledTwicePays() returns (s1: State, s2: State, s3: State, s4: State, s5: State, s6: State)
    ensures Reaches(FIRST_RUN, AnsweringFirst())
    ensures Leads(AnsweringFirst(), Restart(true), s1) && Leads(s1, RecoverRefund(true), s2) && Acc(s2, 0).net == 0
    ensures Leads(s2, RecoverBump(true), s3) && Leads(s3, RecoverPush, s4) && !HarmlessKill(s4, 0)
    ensures Leads(s4, Restart(true), s5) && Leads(s5, RecoverRefund(true), s6) && Acc(s6, 0).net == -1
  {
    FirstRun();
    FirstRunState();
    s1, s2 := RelistAndRefund(AnsweringFirst());
    s3, s4 := PutBack(s2);
    s5, s6 := RelistAndRefund(s4);
  }

  /** Killed after an error reply was refunded but before its row is gone: refunded twice. */
  lemma KilledAfterErrorPays() returns (s1: State, s2: State, s3: State)
    ensures Reaches(FIRST_RUN, AnsweringFirst())
    ensures Leads(AnsweringFirst(), AnswerError(0, Returned), s1) && Acc(s1, 0).net == 0 && !HarmlessKill(s1, 0)
    ensures Leads(s1, Restart(true), s2) && Leads(s2, RecoverRefund(true), s3) && Acc(s3, 0).net == -1
  {
    FirstRun();
    FirstRunState();
    s1 := Apply(AnsweringFirst(), AnswerError(0, Returned));
    assert 0 in s1.rows && s1.rows[0].ptSpent;
    s2, s3 := RelistAndRefund(s1);
  }

  /***** No answer without a payment *****/

  /** What became of the debit of the run under way. */
  datatype Debit = NotAsked | Paid(cost: nat) | Denied

  /** Read off the steps since the last run ended or the process started. */
  function LastDebit(d: Debit, steps: seq<Step>): Debit
    decreases |steps|
  {
    if steps == [] then d else LastDebit(NextDebit(d, steps[0]), steps[1..])
  }

  function NextDebit(d: Debit, st: Step): Debit {
    match st
    case Spend(_, cost, result) => if result == Spent then Paid(cost) else Denied
    case Close(_, _) => NotAsked
    case Restart(_) => NotAsked
    case _ => d
  }

  /** A run that may be, or has been, answered has paid what it says it cost, if there is somebody to pay. */
  predicate PaysFirst(frame: Frame, d: Debit) {
    && (frame.stage.Starting? ==> d == NotAsked && frame.cost == 0 && !frame.answered)
    && (frame.stage.Charged? ==> d == Paid(frame.cost) && !frame.answered)
    && (frame.stage.Answering? ==> !frame.answered)
    && (frame.job.sender && (frame.stage.Answering? || frame.answered) ==> d == Paid(frame.cost))
    && (d == Denied ==> (frame.stage.Delivered? || frame.stage.Closing?) && !frame.answered && frame.cost == 0)
  }

  predicate PaymentsOk(s: State, d: Debit) {
    && |s.active| == (if s.processing then 1 else 0)
    && (if s.active == [] then d == NotAsked else PaysFirst(s.active[0], d))
  }

  lemma PumpKeepsPayments(s: State)
    requires PaymentsOk(s, NotAsked) || (s.processing && |s.active| == 1)
    ensures s.processing ==> Pump(s) == s
    ensures !s.processing ==> PaymentsOk(Pump(s), NotAsked)
  {
  }

  lemma RunningPaysFirst(s: State, st: Step, d: Debit)
    requires PaymentsOk(s, d) && Enabled(s, st) && OfRunning(st)
    ensures PaymentsOk(ApplyRunning(s, st), NextDebit(d, st))
  {
    assert st.f == 0;
  }

  lemma StepKeepsPayments(s: State, st: Step, d: Debit)
    requires PaymentsOk(s, d) && Enabled(s, st)
    ensures PaymentsOk(Apply(s, st), NextDebit(d, st))
  {
    hide Pump, ListRows, PlaceAll, ApplyRunning, PaysFirst;
    match st
    case Enqueue(job) => PumpKeepsPayments(Push(s.(arriving := s.arriving - {job}), job));
    case Close(f, removed) =>
      assert Ended(s, f, removed).active == [];
      PumpKeepsPayments(Ended(s, f, removed));
    case RecoverPump => PumpKeepsPayments(s);
    case Arrive(_, _) =>
    case Restart(_) =>
    case RecoverRefund(_) =>
    case RecoverGiveUp(_) =>
    case RecoverBump(_) =>
    case RecoverPush =>
    case _ => RunningPaysFirst(s, st, d);
  }

  lemma {:induction false} TraceKeepsPayments(s: State, steps: seq<Step>, d: Debit)
    requires PaymentsOk(s, d) && IsTrace(s, steps)
    ensures PaymentsOk(After(s, steps), LastDebit(d, steps))
    decreases |steps|
  {
    hide PaymentsOk, Apply, Enabled;
    if steps != [] {
      StepKeepsPayments(s, steps[0], d);
      TraceKeepsPayments(Apply(s, steps[0]), steps[1..], NextDebit(d, steps[0]));
    }
  }

  /** Over any number of restarts: a message with a sender is being answered, or has been, only if a debit of exactly
      the run's cost went through since the run started; after a refused or failing debit the model is never asked, and
      the run ends unanswered at no cost. */
  lemma PaidBeforeAnswered(steps: seq<Step>, s: State, frame: Frame)
    requires Reaches(steps, s) && s.active == [frame]
    ensures frame.job.sender && (frame.stage == Answering || frame.answered) ==>
              LastDebit(NotAsked, steps) == Paid(frame.cost)
    ensures LastDebit(NotAsked, steps) == Denied ==>
              frame.stage != Charged && frame.stage != Answering && !frame.answered && frame.cost == 0
    ensures frame.stage == Closing ==>
              Apply(s, Close(0, true)).place[frame.job.id] == Over(frame.answered, frame.cost)
  {
    TraceKeepsPayments(INITIAL, steps, NotAsked);
    if frame.stage == Closing {
      ReachedInv(steps, s);
      EndsAs(s, frame);
    }
  }

  lemma EndsAs(s: State, frame: Frame)
    requires Placed(s) && s.active == [frame] && frame.stage == Closing
    ensures Apply(s, Close(0, true)).place[frame.job.id] == Over(frame.answered, frame.cost)
  {
    assert s.active[0] == frame && JobAt(s, s.active[0].job, Running);
    if s.queue != [] {
      assert JobAt(s, s.queue[0], Queued);
    }
  }
}
