/** What the replayed tables contain, compared with one crash-free replay of the whole queue. */
module OutboxOrder {
  import opened OutboxMachine

  function RowEffect(k: KeyedTables, row: Row): KeyedTables {
    if row.table.Keyed() then Put(PutChat(k, row), (row.table, row.key), row.payload) else k
  }

  /** A single replay of the queue, in order, with no crash and no failure. */
  function CleanReplay(k0: KeyedTables, rows: seq<Row>): KeyedTables {
    if rows == [] then k0 else RowEffect(CleanReplay(k0, rows[..|rows| - 1]), rows[|rows| - 1])
  }

  lemma CleanReplayNext(k0: KeyedTables, rows: seq<Row>, m: nat)
    requires m < |rows|
    ensures CleanReplay(k0, rows[..m + 1]) == RowEffect(CleanReplay(k0, rows[..m]), rows[m])
  {
    assert rows[..m + 1][..m] == rows[..m];
  }

  predicate RowKeysIn(k: KeyedTables, row: Row) {
    row.table.Keyed() ==> (row.table, row.key) in k && (row.NeedsChat() ==> (Chats, row.chatId) in k)
  }

  lemma {:induction false} CleanReplayContains(k0: KeyedTables, rows: seq<Row>, i: nat)
    requires i < |rows|
    ensures RowKeysIn(CleanReplay(k0, rows), rows[i])
    decreases |rows|
  {
    if i < |rows| - 1 {
      CleanReplayContains(k0, rows[..|rows| - 1], i);
    }
  }

  /***** Runs in which no row fails *****/

  predicate NoRowFails(steps: seq<Step>) {
    forall st :: st in steps && st.OnRow? ==> !st.what.InsertFails? && !st.what.PlaceholderFails?
  }

  /** Between two rows of a snapshot there is nothing that has not been inserted yet. */
  predicate Gapless(todo: seq<nat>, m: nat) {
    && (todo != [] ==> todo[0] <= m)
    && forall j :: 0 < j < |todo| ==> todo[j] <= todo[j - 1] + 1 || todo[j] <= m
  }

  predicate RunInOrder(k0: KeyedTables, s: State, run: ReplayRun, m: nat)
    requires m <= |s.rows|
  {
    && Gapless(run.todo, m)
    && (run.stage.Landed? && run.todo != [] ==> run.todo[0] < m)
    && (run.stage.ChatReady? && run.todo != [] && run.todo[0] == m < |s.rows| ==>
          s.remote.keyed == PutChat(CleanReplay(k0, s.rows[..m]), s.rows[m]))
  }

  /** The first m rows have been inserted, in order, and perhaps the placeholder of the next one. */
  predicate InOrder(k0: KeyedTables, s: State, m: nat) {
    && m <= |s.rows|
    && (s.remote.keyed == CleanReplay(k0, s.rows[..m])
        || (m < |s.rows| && s.remote.keyed == PutChat(CleanReplay(k0, s.rows[..m]), s.rows[m])))
    && (forall i :: i in s.marked ==> i < m)
    && (forall r :: 0 <= r < |s.runs| ==> RunInOrder(k0, s, s.runs[r], m))
  }

  /** Re-inserting anything among the first m rows changes nothing. */
  lemma AlreadyThere(k0: KeyedTables, s: State, m: nat, i: nat)
    requires InOrder(k0, s, m) && i < m
    ensures RowKeysIn(s.remote.keyed, s.rows[i])
  {
    CleanReplayContains(k0, s.rows[..m], i);
  }

  lemma EnqueueInOrder(k0: KeyedTables, s: State, row: Row, m: nat)
    requires RunsOk(s) && InOrder(k0, s, m)
    ensures InOrder(k0, Apply(s, Enqueue(row)), m)
  {
    var t := Apply(s, Enqueue(row));
    assert t.rows[..m] == s.rows[..m];
    forall q | 0 <= q < |t.runs| ensures RunInOrder(k0, t, t.runs[q], m) {
      assert RunOk(s, s.runs[q]) && RunInOrder(k0, s, s.runs[q], m);
    }
  }

  lemma StepInOrder(k0: KeyedTables, s: State, st: Step, m: nat) returns (m': nat)
    requires RunsOk(s) && InOrder(k0, s, m) && Enabled(s, st)
    requires st.OnRow? ==> !st.what.InsertFails? && !st.what.PlaceholderFails?
    ensures InOrder(k0, Apply(s, st), m')
  {
    hide CleanReplay, PutChat;
    m' := m;
    match st
    case Enqueue(row) => EnqueueInOrder(k0, s, row, m);
    case StartReplay => SnapshotInOrder(s, m);
    case Crash =>
    case OnRow(r, what) =>
      hide Apply;
      assert RunInOrder(k0, s, s.runs[r], m);
      if what.Mark? || what.MarkFails? {
        MarkInOrder(k0, s, r, what, m);
      } else {
        m' := WriteInOrder(k0, s, r, what, m);
      }
  }

  lemma SnapshotInOrder(s: State, m: nat)
    requires m <= |s.rows| && forall i :: i in s.marked ==> i < m
    ensures Gapless(s.Backlog(), m)
  {
    var todo := s.Backlog();
    PendingFacts(|s.rows|, s.marked);
    if todo != [] {
      FirstPending(|s.rows|, s.marked, m);
    }
    forall j | 0 < j < |todo| ensures todo[j] <= todo[j - 1] + 1 || todo[j] <= m {
      assert todo[j] in todo;
      var x := todo[j] - 1;
      if x > todo[j - 1] {
        NotBetween(todo, j, x);
      }
    }
  }

  lemma NotBetween(todo: seq<nat>, j: nat, x: nat)
    requires Ascending(todo) && 0 < j < |todo| && todo[j - 1] < x < todo[j]
    ensures x !in todo
  {
    forall k | 0 <= k < |todo| ensures todo[k] != x {
      if k < j - 1 {
        assert todo[k] < todo[j - 1];
      } else if k > j {
        assert todo[j] < todo[k];
      }
    }
  }

  lemma FirstPending(n: nat, marked: set<nat>, m: nat)
    requires Pending(n, marked) != [] && m <= n && forall i :: i in marked ==> i < m
    ensures Pending(n, marked)[0] <= m
  {
    PendingFacts(n, marked);
    var todo := Pending(n, marked);
    assert m < n ==> m in todo;
  }

  lemma MarkInOrder(k0: KeyedTables, s: State, r: nat, what: RowStep, m: nat)
    requires RunsOk(s) && InOrder(k0, s, m) && Enabled(s, OnRow(r, what)) && (what.Mark? || what.MarkFails?)
    ensures InOrder(k0, Apply(s, OnRow(r, what)), m)
  {
    var t, todo := Apply(s, OnRow(r, what)), s.runs[r].todo;
    assert RunInOrder(k0, s, s.runs[r], m) && RunOk(s, s.runs[r]);
    assert todo[0] < m;
    assert |todo| > 1 ==> todo[1] <= m;
    forall j | 0 < j < |todo[1..]| ensures todo[1..][j] <= todo[1..][j - 1] + 1 || todo[1..][j] <= m {
      assert todo[1..][j] == todo[j + 1];
    }
    forall q | 0 <= q < |t.runs| ensures RunInOrder(k0, t, t.runs[q], m) {
      if q != r {
        assert RunInOrder(k0, s, s.runs[q], m);
      }
    }
  }

  lemma WriteInOrder(k0: KeyedTables, s: State, r: nat, what: RowStep, m: nat) returns (m': nat)
    requires RunsOk(s) && InOrder(k0, s, m) && Enabled(s, OnRow(r, what)) && (what.PutPlaceholder? || what.Insert?)
    ensures InOrder(k0, Apply(s, OnRow(r, what)), m')
  {
    var t, i := Apply(s, OnRow(r, what)), s.runs[r].todo[0];
    assert RunInOrder(k0, s, s.runs[r], m) && RunOk(s, s.runs[r]);
    m' := m;
    if i < m {
      AlreadyThere(k0, s, m, i);
      assert t.remote.keyed == s.remote.keyed;
    } else if what.Insert? {
      CleanReplayNext(k0, s.rows, m);
      m' := m + 1;
      assert t.remote.keyed == CleanReplay(k0, s.rows[..m']);
    }
    forall q | 0 <= q < |t.runs| ensures RunInOrder(k0, t, t.runs[q], m') {
      if q != r {
        assert RunInOrder(k0, s, s.runs[q], m);
      }
    }
  }

  lemma {:induction false} TraceInOrder(k0: KeyedTables, s: State, steps: seq<Step>, m: nat) returns (m': nat)
    requires RunsOk(s) && InOrder(k0, s, m) && IsTrace(s, steps) && NoRowFails(steps)
    ensures InOrder(k0, After(s, steps), m')
    decreases |steps|
  {
    if steps == [] {
      return m;
    }
    assert steps[0] in steps;
    m' := StepInOrder(k0, s, steps[0], m);
    StepKeepsRuns(s, steps[0]);
    assert forall st :: st in steps[1..] ==> st in steps;
    m' := TraceInOrder(k0, Apply(s, steps[0]), steps[1..], m');
  }

  /** Whatever enqueues, overlapping replays, lost marks and crashes happened, as long as no row failed
      individually: once the backlog is empty the keyed tables equal one crash-free replay of the queue. */
  lemma DrainedEqualsCleanReplay(k0: KeyedTables, steps: seq<Step>, s: State)
    requires Reaches(Initial(k0), steps, s) && NoRowFails(steps) && s.Backlog() == []
    ensures s.remote.keyed == CleanReplay(k0, s.rows)
  {
    var m := TraceInOrder(k0, Initial(k0), steps, 0);
    PendingFacts(|s.rows|, s.marked);
    assert m < |s.rows| ==> m in s.Backlog();
    assert s.rows[..m] == s.rows;
  }

  /***** Runs in which rows may fail and be retried *****/

  lemma {:induction false} CleanReplayGrows(k0: KeyedTables, rows: seq<Row>, row: Row)
    ensures CleanReplay(k0, rows).Keys <= CleanReplay(k0, rows + [row]).Keys
  {
    assert (rows + [row])[..|rows|] == rows;
  }

  predicate KeysBounded(k0: KeyedTables, s: State) {
    k0.Keys <= s.remote.keyed.Keys <= CleanReplay(k0, s.rows).Keys
  }

  lemma StepKeepsKeysBounded(k0: KeyedTables, s: State, st: Step)
    requires RunsOk(s) && KeysBounded(k0, s) && Enabled(s, st)
    ensures KeysBounded(k0, Apply(s, st))
  {
    match st
    case Enqueue(row) => CleanReplayGrows(k0, s.rows, row);
    case StartReplay =>
    case Crash =>
    case OnRow(r, what) => CleanReplayContains(k0, s.rows, s.runs[r].todo[0]);
  }

  lemma {:induction false} TraceKeysBounded(k0: KeyedTables, s: State, steps: seq<Step>)
    requires RunsOk(s) && KeysBounded(k0, s) && IsTrace(s, steps)
    ensures KeysBounded(k0, After(s, steps))
    decreases |steps|
  {
    if steps != [] {
      StepKeepsRuns(s, steps[0]);
      StepKeepsKeysBounded(k0, s, steps[0]);
      TraceKeysBounded(k0, Apply(s, steps[0]), steps[1..]);
    }
  }

  lemma {:induction false} CleanKeysComeFromRows(k0: KeyedTables, rows: seq<Row>, k: KeyedTables)
    requires k0.Keys <= k.Keys && forall i :: 0 <= i < |rows| ==> RowKeysIn(k, rows[i])
    ensures CleanReplay(k0, rows).Keys <= k.Keys
  {
    if rows != [] {
      CleanKeysComeFromRows(k0, rows[..|rows| - 1], k);
      assert RowKeysIn(k, rows[|rows| - 1]);
    }
  }

  /** Even when rows fail one by one and are retried later, a drained queue has inserted exactly the keys
      of one crash-free replay. */
  lemma DrainedHasTheSameKeys(k0: KeyedTables, steps: seq<Step>, s: State)
    requires Reaches(Initial(k0), steps, s) && s.Backlog() == []
    ensures s.remote.keyed.Keys == CleanReplay(k0, s.rows).Keys
  {
    TraceKeepsInv(Initial(k0), steps);
    TraceKeysBounded(k0, Initial(k0), steps);
    PendingFacts(|s.rows|, s.marked);
    forall i | 0 <= i < |s.rows| ensures RowKeysIn(s.remote.keyed, s.rows[i]) {
      assert i !in s.Backlog();
    }
    CleanKeysComeFromRows(k0, s.rows, s.remote.keyed);
  }
}
