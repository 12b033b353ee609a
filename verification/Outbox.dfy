/** The local outbox of deferred writes and its replay into PostgreSQL, as atomic steps of any number of
    writers and replays, with crashes anywhere. */
module OutboxMachine {
  datatype Table =
    | Chats | Messages | Activities | MemberSyncRounds | CalendarRsvpRounds
    | DocViewEvents | ChatReactions | HandledMessages | Errors
  {
    /** Every table but these two has a unique constraint for ON CONFLICT DO NOTHING to act on. */
    predicate Keyed() {
      !Activities? && !Errors?
    }
  }

  /** The two tables of which the same row can be there twice. */
  predicate Keyless(table: Table) {
    table == Activities || table == Errors
  }

  /** A queued write: the columns of the table's unique constraint, the chat it refers to, the rest. */
  datatype Row = Row(table: Table, key: string, chatId: string, payload: string) {
    /** A message is preceded by a placeholder insert of its chat, unless the chat id is empty. */
    predicate NeedsChat() {
      table.Messages? && chatId != ""
    }
  }

  type KeyedTables = map<(Table, string), string>

  /** `appended` lists, by outbox id, the rows inserted into the two tables without a key. */
  datatype Remote = Remote(keyed: KeyedTables, appended: seq<nat>)

  const PLACEHOLDER := ""

  function Put(k: KeyedTables, key: (Table, string), payload: string): KeyedTables {
    if key in k then k else k[key := payload]
  }

  function PutChat(k: KeyedTables, row: Row): KeyedTables {
    if row.NeedsChat() then Put(k, (Chats, row.chatId), PLACEHOLDER) else k
  }

  /** The insert violates no foreign key: it conflicts away, or its chat exists. */
  predicate ForeignKeyHolds(k: KeyedTables, row: Row) {
    row.table.Messages? ==> (Messages, row.key) in k || (Chats, row.chatId) in k
  }

  function InsertRow(m: Remote, id: nat, row: Row): Remote {
    if row.table.Keyed() then m.(keyed := Put(m.keyed, (row.table, row.key), row.payload))
    else m.(appended := m.appended + [id])
  }

  datatype Stage = Ready | ChatReady | Landed

  /** One call of replayOutbox in progress: the ids of its snapshot still to do, oldest first. */
  datatype ReplayRun = ReplayRun(todo: seq<nat>, stage: Stage, attempted: nat, replayed: nat, failed: nat)

  datatype State = State(
    rows: seq<Row>,            // the outbox file; a row's id is its position
    marked: set<nat>,          // rows whose replayed_at is set
    remote: Remote,
    runs: seq<ReplayRun>,
    marks: seq<nat>,           // one entry per executed mark
    lost: seq<nat>)            // one entry per insert that was never marked by the run that made it
  {
    function Backlog(): seq<nat> {
      Pending(|rows|, marked)
    }
  }

  /** The ids below n that are not marked, oldest first. */
  function Pending(n: nat, marked: set<nat>): seq<nat> {
    if n == 0 then [] else Pending(n - 1, marked) + (if n - 1 in marked then [] else [n - 1])
  }

  lemma {:induction false} PendingFacts(n: nat, marked: set<nat>)
    ensures forall i: nat :: i in Pending(n, marked) <==> i < n && i !in marked
    ensures Ascending(Pending(n, marked))
    ensures forall j :: 0 <= j < |Pending(n, marked)| ==> Pending(n, marked)[j] < n && Pending(n, marked)[j] !in marked
  {
    if n > 0 {
      PendingFacts(n - 1, marked);
      var before, last := Pending(n - 1, marked), if n - 1 in marked then [] else [n - 1];
      assert forall i: nat :: i in before + last <==> i in before || i in last;
    }
  }

  predicate Ascending(ids: seq<nat>) {
    forall i, j :: 0 <= i < j < |ids| ==> ids[i] < ids[j]
  }

  datatype RowStep =
    | PutPlaceholder | PlaceholderFails
    | Insert | InsertFails
    | Mark | MarkFails         // MarkFails also covers an insert that landed but whose acknowledgement was lost

  datatype Step = Enqueue(row: Row) | StartReplay | Crash | OnRow(r: nat, what: RowStep)

  predicate RowEnabled(k: KeyedTables, stage: Stage, row: Row, what: RowStep) {
    var atInsert := stage.ChatReady? || (stage.Ready? && !row.NeedsChat());
    match what
    case PutPlaceholder => stage.Ready? && row.NeedsChat()
    case PlaceholderFails => stage.Ready? && row.NeedsChat()
    case Insert => atInsert && ForeignKeyHolds(k, row)
    case InsertFails => atInsert
    case Mark => stage.Landed?
    case MarkFails => stage.Landed?
  }

  predicate Enabled(s: State, st: Step) {
    st.OnRow? ==>
      && st.r < |s.runs| && s.runs[st.r].todo != [] && s.runs[st.r].todo[0] < |s.rows|
      && RowEnabled(s.remote.keyed, s.runs[st.r].stage, s.rows[s.runs[st.r].todo[0]], st.what)
  }

  function NextRun(run: ReplayRun, what: RowStep): ReplayRun
    requires run.todo != []
  {
    match what
    case PutPlaceholder => run.(stage := ChatReady)
    case Insert => run.(stage := Landed)
    case Mark => run.(todo := run.todo[1..], stage := Ready, replayed := run.replayed + 1)
    case _ => run.(todo := run.todo[1..], stage := Ready, failed := run.failed + 1)
  }

  function NextRemote(m: Remote, id: nat, row: Row, what: RowStep): Remote {
    match what
    case PutPlaceholder => m.(keyed := PutChat(m.keyed, row))
    case Insert => InsertRow(m, id, row)
    case _ => m
  }

  function Apply(s: State, st: Step): State
    requires Enabled(s, st)
  {
    match st
    case Enqueue(row) => s.(rows := s.rows + [row])
    case StartReplay => s.(runs := s.runs + [ReplayRun(s.Backlog(), Ready, |s.Backlog()|, 0, 0)])
    case Crash => s.(runs := [], lost := s.lost + Window(s.runs))
    case OnRow(r, what) =>
      var run := s.runs[r];
      var id := run.todo[0];
      s.(runs := s.runs[r := NextRun(run, what)],
         remote := NextRemote(s.remote, id, s.rows[id], what),
         marked := if what.Mark? then s.marked + {id} else s.marked,
         marks := if what.Mark? then s.marks + [id] else s.marks,
         lost := if what.MarkFails? then s.lost + [id] else s.lost)
  }

  /** The inserts that have landed and are about to be marked by the run that made them. */
  function Window(runs: seq<ReplayRun>): seq<nat> {
    if runs == [] then [] else WindowOf(runs[0]) + Window(runs[1..])
  }

  function WindowOf(run: ReplayRun): seq<nat> {
    if run.stage.Landed? && run.todo != [] then [run.todo[0]] else []
  }

  function Count(ids: seq<nat>, i: nat): nat {
    if ids == [] then 0 else (if ids[0] == i then 1 else 0) + Count(ids[1..], i)
  }

  lemma {:induction false} CountConcat(a: seq<nat>, b: seq<nat>, i: nat)
    ensures Count(a + b, i) == Count(a, i) + Count(b, i)
  {
    if a != [] {
      CountConcat(a[1..], b, i);
      assert (a + b)[1..] == a[1..] + b;
    } else {
      assert a + b == b;
    }
  }

  lemma {:induction false} CountPositive(ids: seq<nat>, i: nat)
    ensures Count(ids, i) > 0 <==> i in ids
  {
    if ids != [] {
      CountPositive(ids[1..], i);
    }
  }

  /***** Traces *****/

  predicate IsTrace(s: State, steps: seq<Step>)
    decreases |steps|
  {
    steps == [] || (Enabled(s, steps[0]) && IsTrace(Apply(s, steps[0]), steps[1..]))
  }

  function After(s: State, steps: seq<Step>): State
    requires IsTrace(s, steps)
    decreases |steps|
  {
    if steps == [] then s else After(Apply(s, steps[0]), steps[1..])
  }

  lemma {:induction false} TraceSnoc(s: State, steps: seq<Step>, last: Step)
    requires IsTrace(s, steps) && Enabled(After(s, steps), last)
    ensures IsTrace(s, steps + [last]) && After(s, steps + [last]) == Apply(After(s, steps), last)
    decreases |steps|
  {
    if steps != [] {
      TraceSnoc(Apply(s, steps[0]), steps[1..], last);
      assert (steps + [last])[1..] == steps[1..] + [last];
    } else {
      var t := Apply(s, last);
      assert steps + [last] == [last] && [last][1..] == [];
      assert IsTrace(t, []) && After(t, []) == t;
    }
  }

  /** An empty outbox in front of a database that already holds `keyed`. */
  function Initial(keyed: KeyedTables): State {
    State([], {}, Remote(keyed, []), [], [], [])
  }

  /***** What every trace keeps *****/

  predicate Present(m: Remote, id: nat, row: Row) {
    if row.table.Keyed() then (row.table, row.key) in m.keyed && (row.NeedsChat() ==> (Chats, row.chatId) in m.keyed)
    else id in m.appended
  }

  predicate RunOk(s: State, run: ReplayRun) {
    && Ascending(run.todo)
    && (forall j :: 0 <= j < |run.todo| ==> run.todo[j] < |s.rows|)
    && (run.stage != Ready ==> run.todo != [])
    && run.attempted == run.replayed + run.failed + |run.todo|
    && (run.todo != [] ==>
          var row := s.rows[run.todo[0]];
          && (row.NeedsChat() && run.stage != Ready ==> (Chats, row.chatId) in s.remote.keyed)
          && (run.stage == ChatReady ==> row.NeedsChat())
          && (run.stage == Landed ==> Present(s.remote, run.todo[0], row)))
  }

  /** A row marked replayed is present remotely. */
  ghost predicate MarkedPresent(s: State) {
    && (forall i :: i in s.marked ==> i < |s.rows| && Present(s.remote, i, s.rows[i]))
    && (forall i: nat :: i in s.marked <==> i in s.marks)
  }

  predicate RunsOk(s: State) {
    forall r :: 0 <= r < |s.runs| ==> RunOk(s, s.runs[r])
  }

  /** Every copy of a keyless row was marked, lost its mark, or is about to be marked. */
  predicate Balanced(s: State, i: nat) {
    var copies := Count(s.remote.appended, i);
    var accounted := Count(s.marks, i) + Count(s.lost, i) + Count(Window(s.runs), i);
    if i >= |s.rows| then copies == accounted == 0
    else if s.rows[i].table.Keyed() then copies == 0
    else copies == accounted
  }

  ghost predicate Conserved(s: State) {
    forall i: nat :: Balanced(s, i)
  }

  ghost predicate Inv(s: State) {
    RunsOk(s) && MarkedPresent(s) && Conserved(s)
  }

  lemma {:induction false} WindowUpdate(runs: seq<ReplayRun>, r: nat, run: ReplayRun, i: nat)
    requires r < |runs|
    ensures Count(Window(runs[r := run]), i) + Count(WindowOf(runs[r]), i)
         == Count(Window(runs), i) + Count(WindowOf(run), i)
  {
    var changed := runs[r := run];
    CountConcat(WindowOf(runs[0]), Window(runs[1..]), i);
    CountConcat(WindowOf(changed[0]), Window(changed[1..]), i);
    if r > 0 {
      WindowUpdate(runs[1..], r - 1, run, i);
      assert changed[1..] == runs[1..][r - 1 := run] && runs[1..][r - 1] == runs[r];
    } else {
      assert changed[1..] == runs[1..];
    }
  }

  lemma {:induction false} WindowAppend(runs: seq<ReplayRun>, run: ReplayRun)
    ensures Window(runs + [run]) == Window(runs) + WindowOf(run)
  {
    if runs != [] {
      WindowAppend(runs[1..], run);
      assert (runs + [run])[1..] == runs[1..] + [run];
    } else {
      assert runs + [run] == [run] && [run][1..] == [];
    }
  }

  /***** The invariant is kept *****/

  /** `t` may have more rows and more remote data than `s`, and nothing less. */
  predicate Grows(s: State, t: State) {
    && s.rows <= t.rows
    && (forall key :: key in s.remote.keyed ==> key in t.remote.keyed && t.remote.keyed[key] == s.remote.keyed[key])
    && s.remote.appended <= t.remote.appended
  }

  lemma GrowsKeepsRuns(s: State, t: State, run: ReplayRun)
    requires Grows(s, t) && RunOk(s, run)
    ensures RunOk(t, run)
  {
    if run.todo != [] {
      assert t.rows[run.todo[0]] == s.rows[run.todo[0]];
    }
  }

  lemma ApplyGrows(s: State, st: Step)
    requires Enabled(s, st)
    ensures Grows(s, Apply(s, st))
  {
  }

  lemma StepKeepsInv(s: State, st: Step)
    requires Inv(s) && Enabled(s, st)
    ensures Inv(Apply(s, st))
  {
    StepKeepsRuns(s, st);
    StepKeepsMarked(s, st);
    StepKeepsConserved(s, st);
  }

  lemma StepKeepsRuns(s: State, st: Step)
    requires RunsOk(s) && Enabled(s, st)
    ensures RunsOk(Apply(s, st))
  {
    ApplyGrows(s, st);
    var t := Apply(s, st);
    if st.StartReplay? {
      var run := ReplayRun(s.Backlog(), Ready, |s.Backlog()|, 0, 0);
      PendingFacts(|s.rows|, s.marked);
      assert RunOk(t, run);
    } else if st.OnRow? {
      RowStepKeepsRun(s, st.r, st.what);
    }
    forall q | 0 <= q < |t.runs| ensures RunOk(t, t.runs[q]) {
      if q < |s.runs| && (st.OnRow? ==> q != st.r) {
        GrowsKeepsRuns(s, t, s.runs[q]);
      }
    }
  }

  lemma RowStepKeepsRun(s: State, r: nat, what: RowStep)
    requires Enabled(s, OnRow(r, what)) && RunOk(s, s.runs[r])
    ensures RunOk(Apply(s, OnRow(r, what)), NextRun(s.runs[r], what))
  {
  }

  lemma StepKeepsMarked(s: State, st: Step)
    requires RunsOk(s) && MarkedPresent(s) && Enabled(s, st)
    ensures MarkedPresent(Apply(s, st))
  {
    ApplyGrows(s, st);
    var t := Apply(s, st);
    if st.OnRow? && st.what.Mark? {
      var id := s.runs[st.r].todo[0];
      assert RunOk(s, s.runs[st.r]);
      assert t.marks[|s.marks|] == id;
    }
  }

  lemma StepKeepsConserved(s: State, st: Step)
    requires Conserved(s) && Enabled(s, st)
    ensures Conserved(Apply(s, st))
  {
    forall i: nat ensures Balanced(Apply(s, st), i) {
      assert Balanced(s, i);
      StepKeepsBalance(s, st, i);
    }
  }

  lemma StepKeepsBalance(s: State, st: Step, i: nat)
    requires Balanced(s, i) && Enabled(s, st)
    ensures Balanced(Apply(s, st), i)
  {
    match st
    case Enqueue(_) =>
    case StartReplay =>
      WindowAppend(s.runs, ReplayRun(s.Backlog(), Ready, |s.Backlog()|, 0, 0));
      assert Window(s.runs) + [] == Window(s.runs);
    case Crash => CountConcat(s.lost, Window(s.runs), i);
    case OnRow(r, what) =>
      if what.Insert? {
        InsertKeepsBalance(s, r, i);
      } else {
        OtherRowStepKeepsBalance(s, r, what, i);
      }
  }

  function One(id: nat, i: nat): nat {
    if id == i then 1 else 0
  }

  lemma CountPush(ids: seq<nat>, id: nat, i: nat)
    ensures Count(ids + [id], i) == Count(ids, i) + One(id, i)
  {
    CountConcat(ids, [id], i);
    assert [id][1..] == [];
  }

  lemma InsertKeepsBalance(s: State, r: nat, i: nat)
    requires Balanced(s, i) && Enabled(s, OnRow(r, Insert))
    ensures Balanced(Apply(s, OnRow(r, Insert)), i)
  {
    var t, id := Apply(s, OnRow(r, Insert)), s.runs[r].todo[0];
    WindowUpdate(s.runs, r, t.runs[r], i);
    CountPush([], id, i);
    assert [] + [id] == [id];
    CountPush(s.remote.appended, id, i);
    assert t.runs == s.runs[r := t.runs[r]];
    assert WindowOf(s.runs[r]) == [] && WindowOf(t.runs[r]) == [id];
    assert t.remote.appended == s.remote.appended + (if s.rows[id].table.Keyed() then [] else [id]);
  }

  lemma OtherRowStepKeepsBalance(s: State, r: nat, what: RowStep, i: nat)
    requires Balanced(s, i) && Enabled(s, OnRow(r, what)) && !what.Insert?
    ensures Balanced(Apply(s, OnRow(r, what)), i)
  {
    var t, id := Apply(s, OnRow(r, what)), s.runs[r].todo[0];
    WindowUpdate(s.runs, r, t.runs[r], i);
    CountPush([], id, i);
    assert [] + [id] == [id];
    CountPush(s.marks, id, i);
    CountPush(s.lost, id, i);
    assert t.runs == s.runs[r := t.runs[r]];
    assert WindowOf(s.runs[r]) == (if what.Mark? || what.MarkFails? then [id] else []) && WindowOf(t.runs[r]) == [];
  }

  lemma {:induction false} TraceKeepsInv(s: State, steps: seq<Step>)
    requires Inv(s) && IsTrace(s, steps)
    ensures Inv(After(s, steps))
    decreases |steps|
  {
    if steps != [] {
      StepKeepsInv(s, steps[0]);
      TraceKeepsInv(Apply(s, steps[0]), steps[1..]);
    }
  }

  /***** What holds after every trace *****/

  /** A row marked replayed is present remotely, a replay that has finished accounts for every row of its
      snapshot, and every copy of a keyless row is one mark, one lost mark or one pending mark. */
  lemma EveryTrace(keyed: KeyedTables, steps: seq<Step>, s: State)
    requires Reaches(Initial(keyed), steps, s)
    ensures forall i :: i in s.marked ==> i < |s.rows| && Present(s.remote, i, s.rows[i])
    ensures forall r :: 0 <= r < |s.runs| && s.runs[r].todo == [] ==>
              s.runs[r].attempted == s.runs[r].replayed + s.runs[r].failed
    ensures forall i :: 0 <= i < |s.rows| && Keyless(s.rows[i].table) ==>
              Count(s.remote.appended, i) == Count(s.marks, i) + Count(s.lost, i) + Count(Window(s.runs), i)
  {
    TraceKeepsInv(Initial(keyed), steps);
    assert forall r :: 0 <= r < |s.runs| ==> RunOk(s, s.runs[r]);
    forall i | 0 <= i < |s.rows| && Keyless(s.rows[i].table)
      ensures Count(s.remote.appended, i) == Count(s.marks, i) + Count(s.lost, i) + Count(Window(s.runs), i)
    {
      assert Balanced(s, i);
    }
  }

  /** A queued message with a non-empty chat id never fails on its foreign key: whenever a replay is about
      to insert it, the insert is admissible. */
  lemma MessageForeignKeyNeverFails(keyed: KeyedTables, steps: seq<Step>, s: State, r: nat)
    requires Reaches(Initial(keyed), steps, s)
    requires r < |s.runs| && Enabled(s, OnRow(r, InsertFails))
    requires s.rows[s.runs[r].todo[0]].chatId != ""
    ensures Enabled(s, OnRow(r, Insert))
  {
    TraceKeepsInv(Initial(keyed), steps);
    assert RunOk(s, s.runs[r]);
  }

  /***** Copies of keyless rows when replays do not overlap *****/

  predicate Finished(run: ReplayRun) {
    run.todo == []
  }

  /** A replay only starts when every earlier one has finished or died with its process. */
  predicate NoOverlap(s: State, steps: seq<Step>)
    requires IsTrace(s, steps)
    decreases |steps|
  {
    steps != [] ==>
      && (steps[0].StartReplay? ==> forall r :: 0 <= r < |s.runs| ==> Finished(s.runs[r]))
      && NoOverlap(Apply(s, steps[0]), steps[1..])
  }

  predicate Unmarked(todo: seq<nat>, marks: seq<nat>) {
    Ascending(todo) && forall j :: 0 <= j < |todo| ==> todo[j] !in marks
  }

  ghost predicate OneAtATime(s: State) {
    && (forall r :: 0 <= r < |s.runs| - 1 ==> Finished(s.runs[r]))
    && (forall r :: 0 <= r < |s.runs| ==> Unmarked(s.runs[r].todo, s.marks))
    && (forall i: nat :: Count(s.marks, i) <= 1)
    && (forall i :: i in s.marks ==> i in s.marked)
  }

  lemma {:induction false} NoOverlapMarksOnce(s: State, steps: seq<Step>)
    requires OneAtATime(s) && IsTrace(s, steps) && NoOverlap(s, steps)
    ensures OneAtATime(After(s, steps))
    decreases |steps|
  {
    if steps != [] {
      StepKeepsOneAtATime(s, steps[0]);
      NoOverlapMarksOnce(Apply(s, steps[0]), steps[1..]);
    }
  }

  lemma StepKeepsOneAtATime(s: State, st: Step)
    requires OneAtATime(s) && Enabled(s, st)
    requires st.StartReplay? ==> forall r :: 0 <= r < |s.runs| ==> Finished(s.runs[r])
    ensures OneAtATime(Apply(s, st))
  {
    if st.StartReplay? {
      PendingFacts(|s.rows|, s.marked);
    } else if st.OnRow? {
      var todo, t := s.runs[st.r].todo, Apply(s, st);
      assert !Finished(s.runs[st.r]) && st.r == |s.runs| - 1;
      assert Unmarked(todo, s.marks);
      assert Unmarked(t.runs[st.r].todo, t.marks);
      if st.what.Mark? {
        forall i: nat ensures Count(t.marks, i) <= 1 {
          CountPush(s.marks, todo[0], i);
          CountPositive(s.marks, i);
        }
        forall r | 0 <= r < |t.runs| ensures Unmarked(t.runs[r].todo, t.marks) {
          assert r < st.r ==> Finished(s.runs[r]);
        }
      }
    }
  }

  /** With no two replays overlapping, once the backlog is empty every keyless row has landed exactly once,
      plus once for every insert of it whose mark was lost to a crash or a failure. */
  lemma KeylessCopies(keyed: KeyedTables, steps: seq<Step>, s: State, i: nat)
    requires Reaches(Initial(keyed), steps, s) && NoOverlap(Initial(keyed), steps)
    requires s.Backlog() == [] && i < |s.rows| && Keyless(s.rows[i].table)
    ensures Count(s.remote.appended, i) == 1 + Count(s.lost, i)
  {
    TraceKeepsInv(Initial(keyed), steps);
    NoOverlapMarksOnce(Initial(keyed), steps);
    CopiesWhenDrained(s, i);
  }

  lemma CopiesWhenDrained(s: State, i: nat)
    requires Inv(s) && OneAtATime(s) && s.Backlog() == [] && i < |s.rows| && !s.rows[i].table.Keyed()
    ensures Count(s.remote.appended, i) == 1 + Count(s.lost, i)
  {
    assert Balanced(s, i);
    PendingFacts(|s.rows|, s.marked);
    assert i in s.marked by { assert i !in s.Backlog(); }
    CountPositive(s.marks, i);
    MarkedLeavesWindow(s.runs, s.marks, i);
    CountPositive(Window(s.runs), i);
  }

  lemma {:induction false} MarkedLeavesWindow(runs: seq<ReplayRun>, marks: seq<nat>, i: nat)
    requires i in marks && forall r :: 0 <= r < |runs| ==> Unmarked(runs[r].todo, marks)
    ensures i !in Window(runs)
  {
    if runs != [] {
      MarkedLeavesWindow(runs[1..], marks, i);
      assert Unmarked(runs[0].todo, marks);
    }
  }

  lemma {:induction false} NothingPending(n: nat, marked: set<nat>)
    requires forall i: nat :: i < n ==> i in marked
    ensures Pending(n, marked) == []
  {
    if n > 0 {
      NothingPending(n - 1, marked);
    }
  }

  lemma {:induction false} NothingLanded(runs: seq<ReplayRun>)
    requires forall r :: 0 <= r < |runs| ==> Finished(runs[r])
    ensures Window(runs) == []
  {
    if runs != [] {
      NothingLanded(runs[1..]);
    }
  }

  /** With overlap allowed: once the replays are over, a keyless row is there once plus its lost marks exactly if it was
      marked once; every further mark is a further copy. */
  lemma KeylessCopiesIff(keyed: KeyedTables, steps: seq<Step>, s: State, i: nat)
    requires Reaches(Initial(keyed), steps, s) && forall r :: 0 <= r < |s.runs| ==> Finished(s.runs[r])
    requires i < |s.rows| && Keyless(s.rows[i].table)
    ensures Count(s.remote.appended, i) == 1 + Count(s.lost, i) <==> Count(s.marks, i) == 1
  {
    TraceKeepsInv(Initial(keyed), steps);
    NothingLanded(s.runs);
    assert Balanced(s, i);
  }

  /***** The backlog, with overlap *****/

  predicate MarksRow(st: Step) {
    st.OnRow? && st.what.Mark?
  }

  /** Marks of rows that another replay had not marked already. */
  function FirstMarks(s: State, steps: seq<Step>): nat
    requires IsTrace(s, steps)
    decreases |steps|
  {
    if steps == [] then 0
    else
      (if MarksRow(steps[0]) && s.runs[steps[0].r].todo[0] !in s.marked then 1 else 0)
      + FirstMarks(Apply(s, steps[0]), steps[1..])
  }

  function Marks(steps: seq<Step>): nat {
    if steps == [] then 0 else (if MarksRow(steps[0]) then 1 else 0) + Marks(steps[1..])
  }

  function Enqueues(steps: seq<Step>): nat {
    if steps == [] then 0 else (if steps[0].Enqueue? then 1 else 0) + Enqueues(steps[1..])
  }

  lemma {:induction false} MarkShrinksBacklog(n: nat, marked: set<nat>, id: nat)
    requires id < n && id !in marked
    ensures |Pending(n, marked + {id})| == |Pending(n, marked)| - 1
  {
    if id < n - 1 {
      MarkShrinksBacklog(n - 1, marked, id);
    } else {
      MarkBeyond(n - 1, marked, id);
    }
  }

  lemma {:induction false} MarkBeyond(n: nat, marked: set<nat>, id: nat)
    requires id >= n
    ensures Pending(n, marked + {id}) == Pending(n, marked)
  {
    if n > 0 {
      MarkBeyond(n - 1, marked, id);
    }
  }

  /** Over every trace the backlog falls by the rows marked for the first time and grows by what is enqueued; a row
      that two overlapping replays both report as replayed counts once. */
  lemma {:induction false} BacklogLaw(s: State, steps: seq<Step>)
    requires IsTrace(s, steps) && RunsOk(s) && forall i :: i in s.marked ==> i < |s.rows|
    ensures |After(s, steps).Backlog()| + FirstMarks(s, steps) == |s.Backlog()| + Enqueues(steps)
    ensures FirstMarks(s, steps) <= Marks(steps)
    decreases |steps|
  {
    if steps != [] {
      StepKeepsRuns(s, steps[0]);
      StepBacklog(s, steps[0]);
      BacklogLaw(Apply(s, steps[0]), steps[1..]);
    }
  }

  lemma StepBacklog(s: State, st: Step)
    requires Enabled(s, st) && RunsOk(s) && forall i :: i in s.marked ==> i < |s.rows|
    ensures var t := Apply(s, st);
      && (forall i :: i in t.marked ==> i < |t.rows|)
      && |t.Backlog()| + (if MarksRow(st) && s.runs[st.r].todo[0] !in s.marked then 1 else 0)
         == |s.Backlog()| + (if st.Enqueue? then 1 else 0)
  {
    if MarksRow(st) {
      var id := s.runs[st.r].todo[0];
      if id in s.marked {
        assert s.marked + {id} == s.marked;
      } else {
        MarkShrinksBacklog(|s.rows|, s.marked, id);
      }
    }
  }

  /** What the replays under way have counted as replayed, and as failed. */
  function Reported(runs: seq<ReplayRun>): (nat, nat) {
    if runs == [] then (0, 0)
    else
      var (replayed, failed) := Reported(runs[1..]);
      (runs[0].replayed + replayed, runs[0].failed + failed)
  }

  lemma {:induction false} ReportedChanged(runs: seq<ReplayRun>, r: nat, run: ReplayRun)
    requires r < |runs|
    ensures Reported(runs[r := run]).0 == Reported(runs).0 - runs[r].replayed + run.replayed
    ensures Reported(runs[r := run]).1 == Reported(runs).1 - runs[r].failed + run.failed
  {
    if r > 0 {
      ReportedChanged(runs[1..], r - 1, run);
      assert runs[r := run][1..] == runs[1..][r - 1 := run];
    }
  }

  lemma {:induction false} ReportedNew(runs: seq<ReplayRun>, run: ReplayRun)
    requires run.replayed == run.failed == 0
    ensures Reported(runs + [run]) == Reported(runs)
  {
    if runs == [] {
      assert [run][1..] == [] && runs + [run] == [run];
    } else {
      assert (runs + [run])[1..] == runs[1..] + [run];
      ReportedNew(runs[1..], run);
    }
  }

  predicate FailsRow(st: Step) {
    st.OnRow? && (st.what.PlaceholderFails? || st.what.InsertFails? || st.what.MarkFails?)
  }

  function RowFailures(steps: seq<Step>): nat {
    if steps == [] then 0 else (if FailsRow(steps[0]) then 1 else 0) + RowFailures(steps[1..])
  }

  lemma StepReports(s: State, st: Step)
    requires Enabled(s, st) && !st.Crash?
    ensures Reported(Apply(s, st).runs).0 == Reported(s.runs).0 + (if MarksRow(st) then 1 else 0)
    ensures Reported(Apply(s, st).runs).1 == Reported(s.runs).1 + (if FailsRow(st) then 1 else 0)
  {
    match st
    case Enqueue(_) =>
    case StartReplay => ReportedNew(s.runs, ReplayRun(s.Backlog(), Ready, |s.Backlog()|, 0, 0));
    case OnRow(r, what) => ReportedChanged(s.runs, r, NextRun(s.runs[r], what));
  }

  /** While nothing crashes, replays count as replayed exactly the rows they mark, and as failed those at which
      something failed. */
  lemma {:induction false} ReportsAreMarks(s: State, steps: seq<Step>)
    requires IsTrace(s, steps) && Crash !in steps
    ensures Reported(After(s, steps).runs).0 == Reported(s.runs).0 + Marks(steps)
    ensures Reported(After(s, steps).runs).1 == Reported(s.runs).1 + RowFailures(steps)
    decreases |steps|
  {
    if steps != [] {
      assert steps[0] in steps && forall st :: st in steps[1..] ==> st in steps;
      StepReports(s, steps[0]);
      ReportsAreMarks(Apply(s, steps[0]), steps[1..]);
    }
  }

  /** Two overlapping replays copy a keyless row twice with no crash and no failure at all. */
  lemma OverlapDuplicates(row: Row) returns (steps: seq<Step>, s: State)
    requires Keyless(row.table)
    ensures Reaches(Initial(map[]), steps, s)
    ensures forall st :: st in steps ==> !st.Crash? && (st.OnRow? ==> st.what.Insert? || st.what.Mark?)
    ensures s.Backlog() == [] && s.lost == [] && s.remote.appended == [0, 0]
  {
    steps, s := TwoSnapshots(row);
    var s0 := Initial(map[]);
    assert [0][1..] == [];
    steps, s := Extend(s0, steps, s, OnRow(0, Insert));
    steps, s := Extend(s0, steps, s, OnRow(0, Mark));
    steps, s := Extend(s0, steps, s, OnRow(1, Insert));
    steps, s := Extend(s0, steps, s, OnRow(1, Mark));
    assert s.marked == {0};
    NothingPending(1, {0});
  }

  lemma TwoSnapshots(row: Row) returns (steps: seq<Step>, s: State)
    ensures Reaches(Initial(map[]), steps, s) && steps == [Enqueue(row), StartReplay, StartReplay]
    ensures var run := ReplayRun([0], Ready, 1, 0, 0);
            s == State([row], {}, Remote(map[], []), [run, run], [], [])
  {
    var s0 := Initial(map[]);
    steps, s := Extend(s0, [], s0, Enqueue(row));
    NothingPending(0, {});
    assert s.Backlog() == [0];
    steps, s := Extend(s0, steps, s, StartReplay);
    steps, s := Extend(s0, steps, s, StartReplay);
  }

  predicate Reaches(s0: State, steps: seq<Step>, s: State) {
    IsTrace(s0, steps) && s == After(s0, steps)
  }

  lemma Extend(s0: State, steps: seq<Step>, s: State, last: Step) returns (longer: seq<Step>, t: State)
    requires Reaches(s0, steps, s) && Enabled(s, last)
    ensures longer == steps + [last] && t == Apply(s, last) && Reaches(s0, longer, t)
  {
    TraceSnoc(s0, steps, last);
    longer, t := steps + [last], Apply(s, last);
  }
}
