/** When does a drained queue leave the tables of one crash-free replay, whatever failed and was retried in between?
    Exactly when any two queued writes of one new key agree on its value, which can be checked on the queue. */
module OutboxAgreement {
  import opened OutboxMachine
  import opened OutboxOrder

  /** Replaying the row writes this value under this key, if the key is not there yet. */
  predicate Writes(row: Row, key: (Table, string), value: string) {
    row.table.Keyed() &&
    ((key == (row.table, row.key) && value == row.payload)
     || (row.NeedsChat() && key == (Chats, row.chatId) && value == PLACEHOLDER))
  }

  ghost predicate RowsAgree(k0: KeyedTables, a: Row, b: Row) {
    forall key, v, w :: Writes(a, key, v) && Writes(b, key, w) && key !in k0 ==> v == w
  }

  ghost predicate Agree(k0: KeyedTables, rows: seq<Row>) {
    forall i, j :: 0 <= i < |rows| && 0 <= j < |rows| ==> RowsAgree(k0, rows[i], rows[j])
  }

  /***** Agreement is enough *****/

  predicate SomeRowWrites(rows: seq<Row>, key: (Table, string), value: string) {
    exists i :: 0 <= i < |rows| && Writes(rows[i], key, value)
  }

  /** What was there stays, and what is new was written by some queued row. */
  predicate Sourced(k0: KeyedTables, k: KeyedTables, rows: seq<Row>) {
    && k0.Keys <= k.Keys
    && forall key :: key in k ==> if key in k0 then k[key] == k0[key] else SomeRowWrites(rows, key, k[key])
  }

  lemma RowSourced(k0: KeyedTables, k: KeyedTables, rows: seq<Row>, i: nat)
    requires Sourced(k0, k, rows) && i < |rows| && rows[i].table.Keyed()
    ensures Sourced(k0, PutChat(k, rows[i]), rows)
    ensures Sourced(k0, Put(k, (rows[i].table, rows[i].key), rows[i].payload), rows)
  {
    var row := rows[i];
    assert row.NeedsChat() ==> Writes(rows[i], (Chats, row.chatId), PLACEHOLDER);
    assert Writes(rows[i], (row.table, row.key), row.payload);
  }

  lemma MoreRowsSourced(k0: KeyedTables, k: KeyedTables, rows: seq<Row>, row: Row)
    requires Sourced(k0, k, rows)
    ensures Sourced(k0, k, rows + [row])
  {
    forall key | key in k && key !in k0 ensures SomeRowWrites(rows + [row], key, k[key]) {
      var i :| 0 <= i < |rows| && Writes(rows[i], key, k[key]);
      assert (rows + [row])[i] == rows[i];
    }
  }

  lemma StepKeepsSourced(k0: KeyedTables, s: State, st: Step)
    requires RunsOk(s) && Sourced(k0, s.remote.keyed, s.rows) && Enabled(s, st)
    ensures Sourced(k0, Apply(s, st).remote.keyed, Apply(s, st).rows)
  {
    match st
    case Enqueue(row) => MoreRowsSourced(k0, s.remote.keyed, s.rows, row);
    case StartReplay =>
    case Crash =>
    case OnRow(r, what) =>
      var id := s.runs[r].todo[0];
      if s.rows[id].table.Keyed() {
        RowSourced(k0, s.remote.keyed, s.rows, id);
      }
  }

  lemma {:induction false} TraceSourced(k0: KeyedTables, s: State, steps: seq<Step>)
    requires RunsOk(s) && Sourced(k0, s.remote.keyed, s.rows) && IsTrace(s, steps)
    ensures Sourced(k0, After(s, steps).remote.keyed, After(s, steps).rows)
    decreases |steps|
  {
    if steps != [] {
      StepKeepsRuns(s, steps[0]);
      StepKeepsSourced(k0, s, steps[0]);
      TraceSourced(k0, Apply(s, steps[0]), steps[1..]);
    }
  }

  lemma {:induction false} CleanReplaySourced(k0: KeyedTables, rows: seq<Row>)
    ensures Sourced(k0, CleanReplay(k0, rows), rows)
  {
    if rows != [] {
      var n := |rows| - 1;
      CleanReplaySourced(k0, rows[..n]);
      MoreRowsSourced(k0, CleanReplay(k0, rows[..n]), rows[..n], rows[n]);
      assert rows[..n] + [rows[n]] == rows;
      if rows[n].table.Keyed() {
        RowSourced(k0, CleanReplay(k0, rows[..n]), rows, n);
        RowSourced(k0, PutChat(CleanReplay(k0, rows[..n]), rows[n]), rows, n);
      }
    }
  }

  /** Two tables with the same keys, both written by a queue whose rows agree, are the same. */
  lemma AgreementDecides(k0: KeyedTables, a: KeyedTables, b: KeyedTables, rows: seq<Row>)
    requires Agree(k0, rows) && Sourced(k0, a, rows) && Sourced(k0, b, rows) && a.Keys == b.Keys
    ensures a == b
  {
    forall key | key in a ensures a[key] == b[key] {
      if key !in k0 {
        var i :| 0 <= i < |rows| && Writes(rows[i], key, a[key]);
        var j :| 0 <= j < |rows| && Writes(rows[j], key, b[key]);
        assert RowsAgree(k0, rows[i], rows[j]);
      }
    }
  }

  /** A queue whose rows agree may fail row by row, be retried, crash and be replayed by several processes at once:
      once drained, the keyed tables equal one crash-free replay. */
  lemma AgreeingQueuesReplayAlike(k0: KeyedTables, steps: seq<Step>, s: State)
    requires Reaches(Initial(k0), steps, s) && s.Backlog() == [] && Agree(k0, s.rows)
    ensures s.remote.keyed == CleanReplay(k0, s.rows)
  {
    DrainedHasTheSameKeys(k0, steps, s);
    TraceSourced(k0, Initial(k0), steps);
    CleanReplaySourced(k0, s.rows);
    AgreementDecides(k0, s.remote.keyed, CleanReplay(k0, s.rows), s.rows);
  }

  /***** Without agreement some failures show *****/

  predicate IsFailure(st: Step) {
    st.OnRow? && (st.what.PlaceholderFails? || st.what.InsertFails?)
  }

  function Failures(steps: seq<Step>): nat {
    if steps == [] then 0 else Failures(steps[..|steps| - 1]) + (if IsFailure(steps[|steps| - 1]) then 1 else 0)
  }

  /** Nothing but failing rows goes wrong: no crash, no lost mark. */
  predicate OnlyRowsFail(steps: seq<Step>) {
    forall st :: st in steps ==> !st.Crash? && (st.OnRow? ==> !st.what.MarkFails?)
  }

  lemma More(s0: State, steps: seq<Step>, s: State, st: Step) returns (longer: seq<Step>, t: State)
    requires Reaches(s0, steps, s) && Enabled(s, st) && OnlyRowsFail(steps)
    requires !st.Crash? && (st.OnRow? ==> !st.what.MarkFails?)
    ensures t == Apply(s, st) && Reaches(s0, longer, t) && OnlyRowsFail(longer)
    ensures Failures(longer) == Failures(steps) + (if IsFailure(st) then 1 else 0)
  {
    longer, t := Extend(s0, steps, s, st);
    assert longer[..|steps|] == steps;
  }

  /** Every message has its chat id, as the code's always have; otherwise it might never be inserted. */
  predicate Deliverable(rows: seq<Row>) {
    forall i :: 0 <= i < |rows| && rows[i].table.Messages? ==> rows[i].NeedsChat()
  }

  /** Run r is between two rows and nothing else is going on in it. */
  predicate AtRow(s: State, r: nat) {
    r < |s.runs| && s.runs[r].stage.Ready? && s.runs[r].todo != [] && s.runs[r].todo[0] < |s.rows|
  }

  /** The next state apart from the counters: the head of the run is done. */
  predicate HeadDone(s: State, t: State, r: nat)
    requires AtRow(s, r)
  {
    && t.rows == s.rows && |t.runs| == |s.runs|
    && t.runs[r].todo == s.runs[r].todo[1..] && t.runs[r].stage.Ready?
  }

  lemma CleanHead(s0: State, steps: seq<Step>, s: State, r: nat) returns (longer: seq<Step>, t: State)
    requires Reaches(s0, steps, s) && OnlyRowsFail(steps) && AtRow(s, r) && Deliverable(s.rows)
    ensures Reaches(s0, longer, t) && OnlyRowsFail(longer) && HeadDone(s, t, r)
    ensures Failures(longer) == Failures(steps) && t.marked == s.marked + {s.runs[r].todo[0]}
    ensures t.remote.keyed == RowEffect(s.remote.keyed, s.rows[s.runs[r].todo[0]])
  {
    var row := s.rows[s.runs[r].todo[0]];
    longer, t := steps, s;
    if row.NeedsChat() {
      longer, t := More(s0, longer, t, OnRow(r, PutPlaceholder));
    }
    longer, t := More(s0, longer, t, OnRow(r, Insert));
    longer, t := More(s0, longer, t, OnRow(r, Mark));
  }

  lemma FailHead(s0: State, steps: seq<Step>, s: State, r: nat) returns (longer: seq<Step>, t: State)
    requires Reaches(s0, steps, s) && OnlyRowsFail(steps) && AtRow(s, r)
    ensures Reaches(s0, longer, t) && OnlyRowsFail(longer) && HeadDone(s, t, r)
    ensures Failures(longer) == Failures(steps) + 1 && t.marked == s.marked && t.remote == s.remote
  {
    var row := s.rows[s.runs[r].todo[0]];
    longer, t := More(s0, steps, s, OnRow(r, if row.NeedsChat() then PlaceholderFails else InsertFails));
  }

  predicate Touches(row: Row, key: (Table, string)) {
    row.table.Keyed() && (key == (row.table, row.key) || (row.NeedsChat() && key == (Chats, row.chatId)))
  }

  /** How many of the rows before j write the key. */
  function EarlierWriters(ids: seq<nat>, rows: seq<Row>, key: (Table, string), j: nat): nat {
    if ids == [] then 0
    else (if ids[0] < j && ids[0] < |rows| && Touches(rows[ids[0]], key) then 1 else 0)
         + EarlierWriters(ids[1..], rows, key, j)
  }

  lemma RowEffectKeeps(k: KeyedTables, row: Row, key: (Table, string), w: string)
    ensures key in k ==> key in RowEffect(k, row) && RowEffect(k, row)[key] == k[key]
    ensures key !in k && !Touches(row, key) ==> key !in RowEffect(k, row)
    ensures key !in k && Writes(row, key, w) ==> key in RowEffect(k, row) && RowEffect(k, row)[key] == w
  {
  }

  predicate Todo(s: State, r: nat) {
    && r < |s.runs| && s.runs[r].stage.Ready? && Ascending(s.runs[r].todo)
    && forall i :: 0 <= i < |s.runs[r].todo| ==> s.runs[r].todo[i] < |s.rows|
  }

  /** A replay in which the writers of the key before row j fail, so that row j is the one to write it. */
  lemma {:induction false} FavourRow(s0: State, steps: seq<Step>, s: State, r: nat, j: nat, key: (Table, string),
                                     w: string)
    returns (longer: seq<Step>, t: State)
    requires Reaches(s0, steps, s) && OnlyRowsFail(steps) && Todo(s, r) && Deliverable(s.rows)
    requires j < |s.rows| && Writes(s.rows[j], key, w)
    requires if j in s.runs[r].todo then key !in s.remote.keyed else key in s.remote.keyed && s.remote.keyed[key] == w
    ensures Reaches(s0, longer, t) && OnlyRowsFail(longer) && t.rows == s.rows && |t.runs| == |s.runs|
    ensures Failures(longer) == Failures(steps) + EarlierWriters(s.runs[r].todo, s.rows, key, j)
    ensures t.runs[r].todo == [] && key in t.remote.keyed && t.remote.keyed[key] == w
    decreases |s.runs[r].todo|
  {
    var todo := s.runs[r].todo;
    if todo == [] {
      longer, t := steps, s;
    } else {
      var id := todo[0];
      assert j in todo <==> j == id || j in todo[1..];
      assert j in todo[1..] ==> id < j;
      if id < j && Touches(s.rows[id], key) {
        longer, t := FailHead(s0, steps, s, r);
      } else {
        longer, t := CleanHead(s0, steps, s, r);
        RowEffectKeeps(s.remote.keyed, s.rows[id], key, w);
        assert j in todo && id != j ==> id < j;
      }
      longer, t := FavourRow(s0, longer, t, r, j, key, w);
    }
  }

  /** A replay in which nothing fails. */
  lemma {:induction false} FinishCleanly(s0: State, steps: seq<Step>, s: State, r: nat, key: (Table, string))
    returns (longer: seq<Step>, t: State)
    requires Reaches(s0, steps, s) && OnlyRowsFail(steps) && Todo(s, r) && Deliverable(s.rows)
    requires key in s.remote.keyed
    ensures Reaches(s0, longer, t) && OnlyRowsFail(longer) && t.rows == s.rows && Failures(longer) == Failures(steps)
    ensures t.marked == s.marked + (set id | id in s.runs[r].todo)
    ensures key in t.remote.keyed && t.remote.keyed[key] == s.remote.keyed[key]
    decreases |s.runs[r].todo|
  {
    var todo := s.runs[r].todo;
    if todo == [] {
      longer, t := steps, s;
    } else {
      longer, t := CleanHead(s0, steps, s, r);
      RowEffectKeeps(s.remote.keyed, s.rows[todo[0]], key, "");
      longer, t := FinishCleanly(s0, longer, t, r, key);
      assert todo == [todo[0]] + todo[1..];
    }
  }

  lemma {:induction false} Queue(k0: KeyedTables, rows: seq<Row>) returns (steps: seq<Step>, s: State)
    ensures Reaches(Initial(k0), steps, s) && OnlyRowsFail(steps) && Failures(steps) == 0
    ensures s == State(rows, {}, Remote(k0, []), [], [], [])
  {
    if rows == [] {
      steps, s := [], Initial(k0);
    } else {
      var n := |rows| - 1;
      steps, s := Queue(k0, rows[..n]);
      steps, s := More(Initial(k0), steps, s, Enqueue(rows[n]));
      assert rows[..n] + [rows[n]] == rows;
    }
  }

  lemma StartOne(s0: State, steps: seq<Step>, s: State) returns (longer: seq<Step>, t: State)
    requires Reaches(s0, steps, s) && OnlyRowsFail(steps)
    ensures Reaches(s0, longer, t) && OnlyRowsFail(longer) && Failures(longer) == Failures(steps)
    ensures t.rows == s.rows && t.marked == s.marked && t.remote == s.remote && |t.runs| == |s.runs| + 1
    ensures Todo(t, |s.runs|) && t.runs[|s.runs|].todo == s.Backlog()
  {
    PendingFacts(|s.rows|, s.marked);
    longer, t := More(s0, steps, s, StartReplay);
  }

  /** One more replay, in which nothing fails, drains the queue and leaves a key that is there alone. */
  lemma Drain(s0: State, steps: seq<Step>, s: State, key: (Table, string)) returns (longer: seq<Step>, t: State)
    requires Reaches(s0, steps, s) && OnlyRowsFail(steps) && Deliverable(s.rows) && key in s.remote.keyed
    ensures Reaches(s0, longer, t) && OnlyRowsFail(longer) && Failures(longer) == Failures(steps)
    ensures t.rows == s.rows && t.Backlog() == []
    ensures key in t.remote.keyed && t.remote.keyed[key] == s.remote.keyed[key]
  {
    PendingFacts(|s.rows|, s.marked);
    longer, t := StartOne(s0, steps, s);
    longer, t := FinishCleanly(s0, longer, t, |s.runs|, key);
    forall i: nat | i < |s.rows| ensures i in t.marked {
      assert i in s.marked || i in s.Backlog();
    }
    NothingPending(|s.rows|, t.marked);
  }

  /** The queue is drained in two replays one after the other; in the first exactly the writers of the key before row j
      fail. In the end the key has row j's value. */
  lemma FavouredRowWins(k0: KeyedTables, rows: seq<Row>, j: nat, key: (Table, string), w: string)
    returns (steps: seq<Step>, s: State)
    requires j < |rows| && Writes(rows[j], key, w) && key !in k0 && Deliverable(rows)
    ensures Reaches(Initial(k0), steps, s) && OnlyRowsFail(steps) && s.rows == rows && s.Backlog() == []
    ensures Failures(steps) == EarlierWriters(Pending(|rows|, {}), rows, key, j)
    ensures key in s.remote.keyed && s.remote.keyed[key] == w
  {
    PendingFacts(|rows|, {});
    steps, s := Queue(k0, rows);
    steps, s := StartOne(Initial(k0), steps, s);
    steps, s := FavourRow(Initial(k0), steps, s, 0, j, key, w);
    steps, s := Drain(Initial(k0), steps, s, key);
  }

  /** So a queue with two rows that disagree on a new key can be drained to a different result: one of the two can be
      made to win by failing, once each, the writers of the key before it. */
  lemma DisagreementShows(k0: KeyedTables, rows: seq<Row>, i: nat, j: nat, key: (Table, string), v: string, w: string)
    returns (m: nat, steps: seq<Step>, s: State)
    requires i < |rows| && j < |rows| && Writes(rows[i], key, v) && Writes(rows[j], key, w)
    requires key !in k0 && v != w && Deliverable(rows)
    ensures Reaches(Initial(k0), steps, s) && OnlyRowsFail(steps) && s.rows == rows && s.Backlog() == []
    ensures s.remote.keyed != CleanReplay(k0, rows)
    ensures (m == i || m == j) && Failures(steps) == EarlierWriters(Pending(|rows|, {}), rows, key, m)
  {
    var clean := CleanReplay(k0, rows);
    if key in clean && clean[key] == v {
      m := j;
      steps, s := FavouredRowWins(k0, rows, j, key, w);
    } else {
      m := i;
      steps, s := FavouredRowWins(k0, rows, i, key, v);
    }
  }

  /** A reaction harvested twice with different times, the first failing once: the second one's time stays. */
  lemma RetryChangesWinner(reaction: string, t1: string, t2: string) returns (steps: seq<Step>, s: State)
    requires t1 != t2
    ensures var a, b := Row(ChatReactions, reaction, "", t1), Row(ChatReactions, reaction, "", t2);
      && Reaches(Initial(map[]), steps, s) && OnlyRowsFail(steps) && s.rows == [a, b] && s.Backlog() == []
      && Failures(steps) == 1
      && (ChatReactions, reaction) in s.remote.keyed && s.remote.keyed[(ChatReactions, reaction)] == t2
      && CleanReplay(map[], s.rows) == map[(ChatReactions, reaction) := t1]
  {
    var a, b := Row(ChatReactions, reaction, "", t1), Row(ChatReactions, reaction, "", t2);
    var rows, key := [a, b], (ChatReactions, reaction);
    steps, s := FavouredRowWins(map[], rows, 1, key, t2);
    assert Pending(0, {}) == [] && Pending(1, {}) == [0] && Pending(2, {}) == [0, 1];
    assert [0, 1][1..] == [1] && [1][1..] == [];
    assert EarlierWriters([1], rows, key, 1) == 0;
    assert rows[..1] == [a] && [a][..0] == [];
    assert CleanReplay(map[], [a]) == RowEffect(map[], a);
  }
}
