/** The serial reply worker of the bot channel and its restart recovery, as the atomic stretches between
    two awaits, with the process dying at any of them. Amounts are in tenths of one LP. */
module ReplyMachine {
  const MAX_RECOVERY_ATTEMPTS := 2
  const LLM_PT_COST := 1      // 0.1 LP

  /** A row of pending_replies; rows are numbered in the order they were added. */
  datatype Row = Row(attempts: nat, ptSpent: bool, sender: bool)

  /** A queued reply. `persisted` is false when adding its row failed (row id 0 in the program). */
  datatype Job = Job(id: nat, persisted: bool, sender: bool)

  datatype Stage =
    | Starting              // waiting for the reaction and the triggers
    | Charged               // the debit is booked, the row does not say so yet
    | Answering             // waiting for the model
    | Delivered             // a reply (genuine or not) is being sent
    | Closing               // clearing the reaction, removing the row

  /** A call of processJob in progress; `cost` is what it was charged, 0 until then. */
  datatype Frame = Frame(job: Job, stage: Stage, cost: nat, answered: bool)

  /** A row as recover() read it at startup. */
  datatype Listed = Listed(id: nat, row: Row)

  datatype RecoveryStage = Fresh | Refunded | Bumped

  /** Where a message is in this process; Over once its run or recovery has ended, with how it ended. */
  datatype Place = Arriving | Queued | Running | Listing | Rebound | Over(answered: bool, cost: nat) {
    predicate Waiting() {
      Arriving? || Queued? || Rebound?
    }
  }

  /** Over all restarts: the LP booked for the message, how often it was started, how many attempt bumps
      were lost. */
  datatype Account = Account(net: int, starts: nat, lostBumps: nat)

  datatype State = State(
    rows: map<nat, Row>, nextId: nat, accounts: map<nat, Account>,
    processing: bool, queue: seq<Job>, active: seq<Frame>, arriving: set<Job>,
    todo: seq<Listed>, recovery: RecoveryStage,
    place: map<nat, Place>, pushed: seq<nat>, started: seq<nat>)

  const INITIAL := State(map[], 0, map[], false, [], [], {}, [], Fresh, map[], [], [])

  function Acc(s: State, id: nat): Account {
    if id in s.accounts then s.accounts[id] else Account(0, 0, 0)
  }

  /** A debit or credit that throws may have been booked all the same: its COMMIT went unacknowledged. */
  datatype Spending = Spent | Insufficient | SpendThrows(booked: bool)

  datatype Refund = Returned | ReturnThrows(booked: bool)

  datatype Step =
    | Arrive(persisted: bool, sender: bool)
    | Enqueue(job: Job)
    | Spend(f: nat, cost: nat, result: Spending)
    | SkipSpend(f: nat)
    | RecordFlag(f: nat, written: bool)
    | AnswerOk(f: nat)
    | AnswerError(f: nat, refund: Refund)
    | Send(f: nat)
    | Close(f: nat, removed: bool)
    | Restart(listed: bool)            // the process dies and a new one lists its rows
    | RecoverRefund(booked: bool)      // its errors are ignored, so only the booking matters
    | RecoverGiveUp(removed: bool)
    | RecoverBump(written: bool)
    | RecoverPush
    | RecoverPump

  predicate AtStage(s: State, f: nat, stage: Stage) {
    f < |s.active| && s.active[f].stage == stage
  }

  predicate Enabled(s: State, st: Step) {
    match st
    case Arrive(_, _) => true
    case Enqueue(job) => job in s.arriving
    case Spend(f, _, _) => AtStage(s, f, Starting) && s.active[f].job.sender
    case SkipSpend(f) => AtStage(s, f, Starting) && !s.active[f].job.sender
    case RecordFlag(f, _) => AtStage(s, f, Charged)
    case AnswerOk(f) => AtStage(s, f, Answering)
    case AnswerError(f, _) => AtStage(s, f, Answering)
    case Send(f) => AtStage(s, f, Delivered)
    case Close(f, _) => AtStage(s, f, Closing)
    case Restart(_) => true
    case RecoverRefund(_) => s.todo != [] && s.recovery.Fresh?
    case RecoverGiveUp(_) => s.todo != [] && s.recovery.Refunded? && s.todo[0].row.attempts >= MAX_RECOVERY_ATTEMPTS
    case RecoverBump(_) => s.todo != [] && s.recovery.Refunded? && s.todo[0].row.attempts < MAX_RECOVERY_ATTEMPTS
    case RecoverPush => s.todo != [] && s.recovery.Bumped?
    case RecoverPump => s.todo == []
  }

  /** pump(): nothing while a job is being processed, otherwise the oldest queued job starts. */
  function Pump(s: State): State {
    if s.processing || s.queue == [] then s
    else
      var job := s.queue[0];
      var a := Acc(s, job.id);
      s.(processing := true, queue := s.queue[1..],
         active := s.active + [Frame(job, Starting, 0, false)],
         accounts := s.accounts[job.id := a.(starts := a.starts + 1)],
         place := s.place[job.id := Running], started := s.started + [job.id])
  }

  function Push(s: State, job: Job): State {
    s.(queue := s.queue + [job], place := s.place[job.id := Queued], pushed := s.pushed + [job.id])
  }

  /** A refund of what the row says was charged. */
  function RefundDue(row: Row): nat {
    if row.ptSpent && row.sender then LLM_PT_COST else 0
  }

  function ListRows(rows: map<nat, Row>, n: nat): seq<Listed> {
    if n == 0 then []
    else ListRows(rows, n - 1) + (if n - 1 in rows then [Listed(n - 1, rows[n - 1])] else [])
  }

  function Apply(s: State, st: Step): State
    requires Enabled(s, st)
  {
    match st
    case Arrive(persisted, sender) =>
      s.(nextId := s.nextId + 1,
         rows := if persisted then s.rows[s.nextId := Row(0, false, sender)] else s.rows,
         arriving := s.arriving + {Job(s.nextId, persisted, sender)},
         place := s.place[s.nextId := Arriving])
    case Enqueue(job) => Pump(Push(s.(arriving := s.arriving - {job}), job))
    case Close(f, removed) => Pump(Ended(s, f, removed))
    case Restart(listed) => Restarted(s, listed)
    case RecoverRefund(booked) => ApplyRecoverRefund(s, booked)
    case RecoverGiveUp(removed) =>
      var p := s.todo[0];
      s.(rows := if removed then s.rows - {p.id} else s.rows,
         todo := s.todo[1..], recovery := Fresh, place := s.place[p.id := Over(false, 0)])
    case RecoverBump(written) => ApplyRecoverBump(s, written)
    case RecoverPush =>
      var p := s.todo[0];
      Push(s.(todo := s.todo[1..], recovery := Fresh), Job(p.id, true, p.row.sender))
    case RecoverPump => Pump(s)
    case _ => ApplyRunning(s, st)
  }

  /** The finally block before its pump. */
  function Ended(s: State, f: nat, removed: bool): State
    requires f < |s.active|
  {
    var job := s.active[f].job;
    s.(rows := if removed && job.persisted then s.rows - {job.id} else s.rows,
       active := s.active[..f] + s.active[f + 1..], processing := false,
       place := s.place[job.id := Over(s.active[f].answered, s.active[f].cost)])
  }

  /** Everything of the old process is gone; the new one lists its rows, or could not. */
  function Restarted(s: State, listed: bool): State {
    var todo := if listed then ListRows(s.rows, s.nextId) else [];
    State(s.rows, s.nextId, s.accounts, false, [], [], {}, todo, Fresh, PlaceAll(todo), [], [])
  }

  function PlaceAll(todo: seq<Listed>): map<nat, Place> {
    map p | p in todo :: p.id := Listing
  }

  /** The steps of a call of processJob between its start and its finally block. */
  predicate OfRunning(st: Step) {
    st.Spend? || st.SkipSpend? || st.RecordFlag? || st.AnswerOk? || st.AnswerError? || st.Send?
  }

  /** If the debit or the refund on error throws, the reply is abandoned. */
  function NextFrame(frame: Frame, st: Step): Frame
    requires OfRunning(st)
  {
    match st
    case Spend(_, cost, Spent) => frame.(stage := Charged, cost := cost)
    case Spend(_, _, Insufficient) => frame.(stage := Delivered)
    case Spend(_, _, SpendThrows(_)) => frame.(stage := Closing)
    case SkipSpend(_) => frame.(stage := Answering)
    case RecordFlag(_, _) => frame.(stage := Answering)
    case AnswerOk(_) => frame.(stage := Delivered, answered := true)
    case AnswerError(_, refund) => frame.(stage := if refund.Returned? then Delivered else Closing)
    case Send(_) => frame.(stage := Closing)
  }

  /** What the step books for the message. */
  function Booking(frame: Frame, st: Step): int
    requires OfRunning(st)
  {
    match st
    case Spend(_, cost, result) => if result.Spent? || (result.SpendThrows? && result.booked) then cost else 0
    case AnswerError(_, refund) => if refund.Returned? || refund.booked then -(frame.cost as int) else 0
    case _ => 0
  }

  function ApplyRunning(s: State, st: Step): State
    requires OfRunning(st) && st.f < |s.active|
  {
    var frame := s.active[st.f];
    var id := frame.job.id;
    s.(active := s.active[st.f := NextFrame(frame, st)],
       accounts := if st.Spend? || st.AnswerError?
                   then s.accounts[id := Acc(s, id).(net := Acc(s, id).net + Booking(frame, st))] else s.accounts,
       rows := if st.RecordFlag? && st.written && frame.job.persisted && id in s.rows
               then s.rows[id := s.rows[id].(ptSpent := true)] else s.rows)
  }

  function ApplyRecoverRefund(s: State, booked: bool): State
    requires s.todo != []
  {
    var p := s.todo[0];
    var a := Acc(s, p.id);
    s.(recovery := Refunded,
       accounts := s.accounts[p.id := a.(net := a.net - (if booked then RefundDue(p.row) else 0))])
  }

  function ApplyRecoverBump(s: State, written: bool): State
    requires s.todo != []
  {
    var p := s.todo[0];
    var a := Acc(s, p.id);
    if written && p.id in s.rows then
      s.(recovery := Bumped, rows := s.rows[p.id := s.rows[p.id].(attempts := p.row.attempts + 1)],
         place := s.place[p.id := Rebound])
    else
      s.(recovery := Bumped, accounts := s.accounts[p.id := a.(lostBumps := a.lostBumps + 1)],
         place := s.place[p.id := Rebound])
  }

  /***** Traces *****/

  predicate IsTrace(s: State, steps: seq<Step>)
    decreases |steps|
  {
    steps != [] ==> Enabled(s, steps[0]) && IsTrace(Apply(s, steps[0]), steps[1..])
  }

  function After(s: State, steps: seq<Step>): State
    requires IsTrace(s, steps)
    decreases |steps|
  {
    if steps == [] then s else After(Apply(s, steps[0]), steps[1..])
  }

  /***** One message is in one place *****/

  /** The job's message is at `where`, and it has its row exactly if the row was ever written. */
  predicate JobAt(s: State, job: Job, where: Place) {
    && job.id in s.place && s.place[job.id] == where
    && (job.persisted <==> job.id in s.rows)
  }

  predicate ArrivingOk(s: State) {
    && (forall j :: j in s.arriving ==> JobAt(s, j, Arriving))
    && (forall i, j :: i in s.arriving && j in s.arriving && i.id == j.id ==> i == j)
  }

  predicate QueueOk(s: State) {
    && (forall i :: 0 <= i < |s.queue| ==> JobAt(s, s.queue[i], Queued))
    && (forall i, j :: 0 <= i < j < |s.queue| ==> s.queue[i].id != s.queue[j].id)
  }

  /** Serial: at most one call of processJob, and the flag says so. */
  predicate ActiveOk(s: State) {
    && (if s.processing then |s.active| == 1 else |s.active| == 0)
    && (forall f :: 0 <= f < |s.active| ==> JobAt(s, s.active[f].job, Running))
  }

  predicate OldestFirst(todo: seq<Listed>) {
    forall i, j :: 0 <= i < j < |todo| ==> todo[i].id < todo[j].id
  }

  predicate TodoOk(s: State) {
    && OldestFirst(s.todo)
    && (s.recovery != Fresh ==> s.todo != [])
    && (forall i :: 0 <= i < |s.todo| ==> ListedOk(s, s.todo[i], i == 0 && s.recovery.Bumped?))
  }

  predicate ListedOk(s: State, p: Listed, bumped: bool) {
    && p.id in s.place && s.place[p.id] == (if bumped then Rebound else Listing)
    && p.id in s.rows && s.rows[p.id].sender == p.row.sender && (!bumped ==> s.rows[p.id] == p.row)
  }

  predicate IdsKnown(s: State) {
    && (forall id :: id in s.place ==> id < s.nextId)
    && (forall id :: id in s.rows ==> id < s.nextId)
    && (forall id :: id in s.accounts ==> id < s.nextId)
  }

  predicate Placed(s: State) {
    IdsKnown(s) && ArrivingOk(s) && QueueOk(s) && ActiveOk(s) && TodoOk(s)
  }

  lemma {:induction false} ListRowsFacts(rows: map<nat, Row>, n: nat)
    ensures forall p :: p in ListRows(rows, n) <==> p.id < n && p.id in rows && p.row == rows[p.id]
    ensures OldestFirst(ListRows(rows, n))
  {
    if n > 0 {
      ListRowsFacts(rows, n - 1);
      var before, last := ListRows(rows, n - 1), if n - 1 in rows then [Listed(n - 1, rows[n - 1])] else [];
      assert forall p :: p in before + last <==> p in before || p in last;
      forall i | 0 <= i < |before| ensures before[i].id < n - 1 {
        assert before[i] in before;
      }
    }
  }

  lemma PumpKeepsPlaced(s: State)
    requires Placed(s)
    ensures Placed(Pump(s))
  {
    if !s.processing && s.queue != [] {
      assert JobAt(s, s.queue[0], Queued);
      var t := Pump(s);
      forall i | 0 <= i < |t.queue| ensures JobAt(t, t.queue[i], Queued) {
        assert JobAt(s, s.queue[i + 1], Queued) && s.queue[0].id != s.queue[i + 1].id;
      }
    }
  }

  lemma PushKeepsPlaced(s: State, job: Job)
    requires Placed(s) && job.id in s.place && (s.place[job.id].Arriving? || s.place[job.id].Rebound?)
    requires job.persisted <==> job.id in s.rows
    requires forall j :: j in s.arriving ==> j.id != job.id
    requires forall i :: 0 <= i < |s.todo| ==> s.todo[i].id != job.id
    ensures Placed(Push(s, job))
  {
  }

  lemma QueuedIsPlaced(s: State, job: Job)
    requires Placed(s) && Enabled(s, Enqueue(job))
    ensures Placed(Push(s.(arriving := s.arriving - {job}), job))
    ensures job.id in s.place && s.place[job.id].Arriving? && forall i :: 0 <= i < |s.todo| ==> s.todo[i].id != job.id
  {
    var s1 := s.(arriving := s.arriving - {job});
    assert JobAt(s, job, Arriving);
    forall i | 0 <= i < |s.todo| ensures s.todo[i].id != job.id {
      assert ListedOk(s, s.todo[i], i == 0 && s.recovery.Bumped?);
    }
    assert Placed(s1);
    PushKeepsPlaced(s1, job);
  }

  lemma EnqueueKeepsPlaced(s: State, job: Job)
    requires Placed(s) && Enabled(s, Enqueue(job))
    ensures Placed(Apply(s, Enqueue(job)))
  {
    QueuedIsPlaced(s, job);
    PumpKeepsPlaced(Push(s.(arriving := s.arriving - {job}), job));
  }

  /** Ending a message, possibly dropping its row, disturbs nobody else. */
  lemma EndKeepsPlaced(s: State, id: nat, dropRow: bool, over: Place)
    requires Placed(s) && over.Over? && id < s.nextId
    requires forall j :: j in s.arriving ==> j.id != id
    requires forall i :: 0 <= i < |s.queue| ==> s.queue[i].id != id
    requires forall f :: 0 <= f < |s.active| ==> s.active[f].job.id != id
    requires forall i :: 0 <= i < |s.todo| ==> s.todo[i].id != id
    ensures Placed(s.(rows := if dropRow then s.rows - {id} else s.rows, place := s.place[id := over]))
  {
    var t := s.(rows := if dropRow then s.rows - {id} else s.rows, place := s.place[id := over]);
    forall i | 0 <= i < |t.todo| ensures ListedOk(t, t.todo[i], i == 0 && t.recovery.Bumped?) {
      assert ListedOk(s, s.todo[i], i == 0 && s.recovery.Bumped?);
    }
  }

  lemma EndedIsPlaced(s: State, f: nat, removed: bool)
    requires Placed(s) && Enabled(s, Close(f, removed))
    ensures Placed(Ended(s, f, removed))
  {
    var job := s.active[f].job;
    assert JobAt(s, job, Running);
    forall i | 0 <= i < |s.todo| ensures s.todo[i].id != job.id {
      assert ListedOk(s, s.todo[i], i == 0 && s.recovery.Bumped?);
    }
    EndKeepsPlaced(s.(active := s.active[..f] + s.active[f + 1..], processing := false), job.id,
                   removed && job.persisted, Over(s.active[f].answered, s.active[f].cost));
  }

  lemma CloseKeepsPlaced(s: State, f: nat, removed: bool)
    requires Placed(s) && Enabled(s, Close(f, removed))
    ensures Placed(Apply(s, Close(f, removed)))
  {
    EndedIsPlaced(s, f, removed);
    PumpKeepsPlaced(Ended(s, f, removed));
  }

  lemma RestartKeepsPlaced(s: State, listed: bool)
    requires Placed(s)
    ensures Placed(Apply(s, Restart(listed)))
  {
    ListRowsFacts(s.rows, s.nextId);
    var t := Apply(s, Restart(listed));
    forall i | 0 <= i < |t.todo| ensures ListedOk(t, t.todo[i], false) {
      assert t.todo[i] in t.todo;
    }
  }

  lemma GiveUpKeepsPlaced(s: State, removed: bool)
    requires Placed(s) && Enabled(s, RecoverGiveUp(removed))
    ensures Placed(Apply(s, RecoverGiveUp(removed)))
  {
    var p := s.todo[0];
    assert ListedOk(s, p, false);
    var rest := s.(todo := s.todo[1..], recovery := Fresh);
    forall i | 0 <= i < |rest.todo| ensures ListedOk(rest, rest.todo[i], false) {
      assert ListedOk(s, s.todo[i + 1], false);
    }
    EndKeepsPlaced(rest, p.id, removed, Over(false, 0));
  }

  lemma RecoverPushKeepsPlaced(s: State)
    requires Placed(s) && Enabled(s, RecoverPush)
    ensures Placed(Apply(s, RecoverPush))
  {
    var p := s.todo[0];
    assert ListedOk(s, p, true);
    var rest := s.(todo := s.todo[1..], recovery := Fresh);
    forall i | 0 <= i < |rest.todo| ensures ListedOk(rest, rest.todo[i], false) {
      assert ListedOk(s, s.todo[i + 1], false);
    }
    PushKeepsPlaced(rest, Job(p.id, true, p.row.sender));
  }

  /** Steps that change one message's bookkeeping, its row or its stage, but not where anything is. */
  lemma SamePlacesKeepsPlaced(s: State, t: State)
    requires Placed(s)
    requires t.place == s.place && t.nextId == s.nextId && t.rows.Keys == s.rows.Keys
    requires t.arriving == s.arriving && t.queue == s.queue && t.processing == s.processing
    requires |t.active| == |s.active| && forall f :: 0 <= f < |s.active| ==> t.active[f].job == s.active[f].job
    requires t.todo == s.todo && (t.recovery.Bumped? <==> s.recovery.Bumped?) && (t.recovery.Fresh? || t.todo != [])
    requires forall id :: id in t.accounts ==> id < t.nextId
    requires forall i :: 0 <= i < |s.todo| ==> s.todo[i].id in t.rows && t.rows[s.todo[i].id] == s.rows[s.todo[i].id]
    ensures Placed(t)
  {
    forall i | 0 <= i < |t.todo| ensures ListedOk(t, t.todo[i], i == 0 && t.recovery.Bumped?) {
      assert ListedOk(s, s.todo[i], i == 0 && s.recovery.Bumped?);
    }
  }

  lemma FrameStepKeepsPlaced(s: State, st: Step)
    requires Placed(s) && Enabled(s, st)
    requires OfRunning(st)
    ensures Placed(Apply(s, st))
  {
    var job := s.active[st.f].job;
    assert JobAt(s, job, Running);
    forall i | 0 <= i < |s.todo| ensures s.todo[i].id != job.id && s.todo[i].id in s.rows {
      assert ListedOk(s, s.todo[i], i == 0 && s.recovery.Bumped?);
    }
    SamePlacesKeepsPlaced(s, Apply(s, st));
  }

  lemma RecoverRefundKeepsPlaced(s: State, ok: bool)
    requires Placed(s) && Enabled(s, RecoverRefund(ok))
    ensures Placed(Apply(s, RecoverRefund(ok)))
  {
    forall i | 0 <= i < |s.todo| ensures s.todo[i].id in s.rows && s.todo[i].id < s.nextId {
      assert ListedOk(s, s.todo[i], false);
    }
    SamePlacesKeepsPlaced(s, Apply(s, RecoverRefund(ok)));
  }

  lemma RecoverBumpKeepsPlaced(s: State, written: bool)
    requires Placed(s) && Enabled(s, RecoverBump(written))
    ensures Placed(Apply(s, RecoverBump(written)))
  {
    var t, id := Apply(s, RecoverBump(written)), s.todo[0].id;
    assert ListedOk(s, s.todo[0], false);
    forall i | 0 <= i < |t.todo| ensures ListedOk(t, t.todo[i], i == 0) {
      assert ListedOk(s, s.todo[i], false);
    }
  }

  lemma StepKeepsPlaced(s: State, st: Step)
    requires Placed(s) && Enabled(s, st)
    ensures Placed(Apply(s, st))
  {
    match st
    case Arrive(_, _) => ArriveKeepsPlaced(s, st.persisted, st.sender);
    case Enqueue(job) => EnqueueKeepsPlaced(s, job);
    case Close(f, removed) => CloseKeepsPlaced(s, f, removed);
    case Restart(listed) => RestartKeepsPlaced(s, listed);
    case RecoverGiveUp(removed) => GiveUpKeepsPlaced(s, removed);
    case RecoverPush => RecoverPushKeepsPlaced(s);
    case RecoverPump => PumpKeepsPlaced(s);
    case RecoverRefund(ok) => RecoverRefundKeepsPlaced(s, ok);
    case RecoverBump(written) => RecoverBumpKeepsPlaced(s, written);
    case _ => FrameStepKeepsPlaced(s, st);
  }

  lemma ArriveKeepsPlaced(s: State, persisted: bool, sender: bool)
    requires Placed(s)
    ensures Placed(Apply(s, Arrive(persisted, sender)))
  {
    var t := Apply(s, Arrive(persisted, sender));
    forall i | 0 <= i < |t.todo| ensures ListedOk(t, t.todo[i], i == 0 && t.recovery.Bumped?) {
      assert ListedOk(s, s.todo[i], i == 0 && s.recovery.Bumped?);
    }
  }

  /***** How often a message is started *****/

  /** The number of starts a message may have had by now, read off its row and its place. */
  predicate Bounded(s: State, id: nat) {
    var a := Acc(s, id);
    var here := if id in s.place then (if s.place[id].Waiting() then 0 else 1) else 1;
    && a.starts <= MAX_RECOVERY_ATTEMPTS + 1 + a.lostBumps
    && (id >= s.nextId ==> a == Account(0, 0, 0))
    && (id in s.rows ==>
          s.rows[id].attempts <= MAX_RECOVERY_ATTEMPTS && a.starts <= s.rows[id].attempts + here + a.lostBumps)
    && (id !in s.rows && id in s.place && !s.place[id].Over? ==> a.starts <= here)
  }

  lemma PumpKeepsBounded(s: State, id: nat)
    requires Placed(s) && Bounded(s, id)
    ensures Bounded(Pump(s), id)
  {
    if !s.processing && s.queue != [] {
      assert JobAt(s, s.queue[0], Queued);
    }
  }

  lemma StepKeepsBounded(s: State, st: Step, id: nat)
    requires Placed(s) && Bounded(s, id) && Enabled(s, st)
    ensures Bounded(Apply(s, st), id)
  {
    match st
    case Arrive(_, _) =>
    case Enqueue(job) => EnqueueKeepsBounded(s, job, id);
    case Close(f, removed) => CloseKeepsBounded(s, f, removed, id);
    case Restart(listed) => RestartKeepsBounded(s, listed, id);
    case RecoverPump => PumpKeepsBounded(s, id);
    case RecoverRefund(_) => RecoverKeepsBounded(s, st, id);
    case RecoverGiveUp(_) => RecoverKeepsBounded(s, st, id);
    case RecoverBump(_) => RecoverKeepsBounded(s, st, id);
    case RecoverPush => RecoverKeepsBounded(s, st, id);
    case _ => FrameStepKeepsBounded(s, st, id);
  }

  lemma RecoverKeepsBounded(s: State, st: Step, id: nat)
    requires Placed(s) && Bounded(s, id) && Enabled(s, st)
    requires st.RecoverRefund? || st.RecoverGiveUp? || st.RecoverBump? || st.RecoverPush?
    ensures Bounded(Apply(s, st), id)
  {
    hide QueueOk, ArrivingOk, ActiveOk;
    assert ListedOk(s, s.todo[0], s.recovery.Bumped?);
  }

  lemma FrameStepKeepsBounded(s: State, st: Step, id: nat)
    requires Placed(s) && Bounded(s, id) && Enabled(s, st)
    requires OfRunning(st)
    ensures Bounded(Apply(s, st), id)
  {
    assert JobAt(s, s.active[st.f].job, Running);
  }

  lemma RestartKeepsBounded(s: State, listed: bool, id: nat)
    requires Placed(s) && Bounded(s, id)
    ensures Bounded(Apply(s, Restart(listed)), id)
  {
    ListRowsFacts(s.rows, s.nextId);
    var t := Apply(s, Restart(listed));
    if id in t.place {
      var p :| p in t.todo && p.id == id;
      assert id in s.rows;
    }
  }

  lemma EnqueueKeepsBounded(s: State, job: Job, id: nat)
    requires Placed(s) && Bounded(s, id) && Enabled(s, Enqueue(job))
    ensures Bounded(Apply(s, Enqueue(job)), id)
  {
    QueuedIsPlaced(s, job);
    PumpKeepsBounded(Push(s.(arriving := s.arriving - {job}), job), id);
  }

  lemma CloseKeepsBounded(s: State, f: nat, removed: bool, id: nat)
    requires Placed(s) && Bounded(s, id) && Enabled(s, Close(f, removed))
    ensures Bounded(Apply(s, Close(f, removed)), id)
  {
    EndedIsPlaced(s, f, removed);
    EndedIsBounded(s, f, removed, id);
    PumpKeepsBounded(Ended(s, f, removed), id);
  }

  lemma EndedIsBounded(s: State, f: nat, removed: bool, id: nat)
    requires Placed(s) && Bounded(s, id) && Enabled(s, Close(f, removed))
    ensures Bounded(Ended(s, f, removed), id)
  {
    assert JobAt(s, s.active[f].job, Running);
  }

  /***** First in, first out *****/

  function Ids(queue: seq<Job>): seq<nat> {
    if queue == [] then [] else [queue[0].id] + Ids(queue[1..])
  }

  lemma {:induction false} IdsPush(queue: seq<Job>, job: Job)
    ensures Ids(queue + [job]) == Ids(queue) + [job.id]
  {
    if queue != [] {
      IdsPush(queue[1..], job);
      assert (queue + [job])[1..] == queue[1..] + [job];
    } else {
      assert queue + [job] == [job] && [job][1..] == [];
    }
  }

  /** What was pushed in this process is what has been started, in the same order, and what still waits. */
  predicate InOrder(s: State) {
    s.pushed == s.started + Ids(s.queue)
  }

  lemma PushKeepsOrder(s: State, job: Job)
    requires InOrder(s)
    ensures InOrder(Push(s, job))
  {
    IdsPush(s.queue, job);
    assert s.started + (Ids(s.queue) + [job.id]) == (s.started + Ids(s.queue)) + [job.id];
  }

  lemma PumpKeepsOrder(s: State)
    requires InOrder(s)
    ensures InOrder(Pump(s))
  {
    if !s.processing && s.queue != [] {
      var id, rest := s.queue[0].id, Ids(s.queue[1..]);
      assert s.started + ([id] + rest) == (s.started + [id]) + rest;
    }
  }

  lemma StepKeepsOrder(s: State, st: Step)
    requires InOrder(s) && Enabled(s, st)
    ensures InOrder(Apply(s, st))
  {
    match st
    case Enqueue(job) =>
      var s1 := s.(arriving := s.arriving - {job});
      PushKeepsOrder(s1, job);
      PumpKeepsOrder(Push(s1, job));
    case Close(f, removed) => PumpKeepsOrder(Ended(s, f, removed));
    case RecoverPush =>
      PushKeepsOrder(s.(todo := s.todo[1..], recovery := Fresh), Job(s.todo[0].id, true, s.todo[0].row.sender));
    case RecoverPump => PumpKeepsOrder(s);
    case _ =>
  }

  /***** Every trace *****/

  ghost predicate Inv(s: State) {
    Placed(s) && InOrder(s) && forall id: nat :: Bounded(s, id)
  }

  lemma StepKeepsInv(s: State, st: Step)
    requires Inv(s) && Enabled(s, st)
    ensures Inv(Apply(s, st))
  {
    StepKeepsPlaced(s, st);
    StepKeepsOrder(s, st);
    forall id: nat ensures Bounded(Apply(s, st), id) {
      StepKeepsBounded(s, st, id);
    }
  }

  lemma {:induction false} TraceKeepsInv(s: State, steps: seq<Step>)
    requires Inv(s) && IsTrace(s, steps)
    ensures Inv(After(s, steps))
    decreases |steps|
  {
    if steps != [] {
      StepKeepsInv(s, steps[0]);
      TraceKeepsInv(Apply(s, steps[0]), steps[1..]);
    }
  }

  predicate Reaches(steps: seq<Step>, s: State) {
    IsTrace(INITIAL, steps) && s == After(INITIAL, steps)
  }

  /** With restarts anywhere: at most one call of processJob is running, jobs start in the order they were
      queued, and every queued or running job whose row was written still has it. */
  lemma SerialInOrderAndRecoverable(steps: seq<Step>, s: State)
    requires Reaches(steps, s)
    ensures |s.active| <= 1
    ensures s.started <= s.pushed && s.pushed[|s.started|..] == Ids(s.queue)
    ensures forall i :: 0 <= i < |s.queue| && s.queue[i].persisted ==> s.queue[i].id in s.rows
    ensures forall f :: 0 <= f < |s.active| && s.active[f].job.persisted ==> s.active[f].job.id in s.rows
  {
    hide Apply, IsTrace, After, Inv;
    ReachedInv(steps, s);
    InvMeans(s);
  }

  lemma ReachedInv(steps: seq<Step>, s: State)
    requires Reaches(steps, s)
    ensures Inv(s)
  {
    hide Inv, IsTrace, After;
    StartsInv();
    TraceKeepsInv(INITIAL, steps);
  }

  lemma StartsInv()
    ensures Inv(INITIAL)
  {
  }

  lemma InvMeans(s: State)
    requires Inv(s)
    ensures |s.active| <= 1
    ensures s.started <= s.pushed && s.pushed[|s.started|..] == Ids(s.queue)
    ensures forall i :: 0 <= i < |s.queue| && s.queue[i].persisted ==> s.queue[i].id in s.rows
    ensures forall f :: 0 <= f < |s.active| && s.active[f].job.persisted ==> s.active[f].job.id in s.rows
  {
    assert forall i :: 0 <= i < |s.queue| ==> JobAt(s, s.queue[i], Queued);
    assert forall f :: 0 <= f < |s.active| ==> JobAt(s, s.active[f].job, Running);
  }

  /** No message is started more than MAX_RECOVERY_ATTEMPTS + 1 = 3 times, however many restarts there are,
      except once more for every attempt bump the database lost. */
  lemma StartsAreBounded(steps: seq<Step>, s: State, id: nat)
    requires Reaches(steps, s)
    ensures Acc(s, id).starts <= 3 + Acc(s, id).lostBumps
  {
    hide Apply, IsTrace, After, Placed, InOrder;
    ReachedInv(steps, s);
    assert Bounded(s, id);
  }
}
