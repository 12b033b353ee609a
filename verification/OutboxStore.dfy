/** The outbox object: enqueue, count and replay, each performing steps of OutboxMachine. */
module OutboxStore {
  import opened OutboxMachine

  /** What the outside world does to one row of a replay, after other processes enqueued `arrivals`. */
  datatype Outcome =
    | Fine | PlaceholderError | InsertError | MarkError | CrashAtStart | CrashBeforeInsert | CrashBeforeMark

  datatype Fate = Fate(arrivals: seq<Row>, outcome: Outcome)

  datatype ReplayResult = Died | Completed(attempted: nat, replayed: nat, failed: nat)

  function Arrivals(fates: seq<Fate>): nat {
    if fates == [] then 0 else |fates[0].arrivals| + Arrivals(fates[1..])
  }

  /** The rows a replay still has to do: known, unmarked, oldest first. */
  predicate Waiting(todo: seq<nat>, n: nat, marked: set<nat>) {
    Ascending(todo) && forall j :: 0 <= j < |todo| ==> todo[j] < n && todo[j] !in marked
  }

  lemma WaitingHead(todo: seq<nat>, n: nat, marked: set<nat>)
    requires todo != [] && Waiting(todo, n, marked)
    ensures todo[0] < n && todo[0] !in marked
  {
  }

  lemma WaitingTail(todo: seq<nat>, n: nat, before: set<nat>, m: nat, after: set<nat>)
    requires todo != [] && Waiting(todo, n, before) && n <= m && after <= before + {todo[0]}
    ensures Waiting(todo[1..], m, after)
  {
  }

  /***** What becomes of a row, read off its fate *****/

  predicate Crashes(o: Outcome) {
    o.CrashAtStart? || o.CrashBeforeInsert? || o.CrashBeforeMark?
  }

  /** The process dies at this row; a crash meant for the moment after the insert needs an insert. */
  predicate Kills(k: KeyedTables, row: Row, o: Outcome) {
    Crashes(o) && (o.CrashBeforeMark? ==> ForeignKeyHolds(PutChat(k, row), row))
  }

  /** The row is inserted, whether or not it is marked. */
  predicate Inserted(k: KeyedTables, row: Row, o: Outcome) {
    && ForeignKeyHolds(PutChat(k, row), row)
    && !o.CrashAtStart? && !o.CrashBeforeInsert? && !o.InsertError? && (o.PlaceholderError? ==> !row.NeedsChat())
  }

  /** The row is inserted and marked. */
  predicate Lands(k: KeyedTables, row: Row, o: Outcome) {
    Inserted(k, row, o) && !o.MarkError? && !o.CrashBeforeMark?
  }

  function ChatWritten(k: KeyedTables, row: Row, o: Outcome): KeyedTables {
    if o.CrashAtStart? || o.PlaceholderError? then k else PutChat(k, row)
  }

  function Wrote(m: Remote, id: nat, row: Row, o: Outcome): Remote {
    var chat := m.(keyed := ChatWritten(m.keyed, row, o));
    if Inserted(m.keyed, row, o) then InsertRow(chat, id, row) else chat
  }

  datatype Replay = Replay(died: bool, landed: seq<nat>, remote: Remote)

  predicate Known(rows: seq<Row>, todo: seq<nat>) {
    forall j :: 0 <= j < |todo| ==> todo[j] < |rows|
  }

  /** A replay of a snapshot, read off the fates row by row up to the first one that kills the process. */
  function Replayed(m: Remote, rows: seq<Row>, todo: seq<nat>, fates: seq<Fate>): Replay
    requires Known(rows, todo) && |fates| == |todo|
    decreases |todo|
  {
    if todo == [] then Replay(false, [], m)
    else
      var id, o := todo[0], fates[0].outcome;
      var after := Wrote(m, id, rows[id], o);
      if Kills(m.keyed, rows[id], o) then Replay(true, [], after)
      else
        var rest := Replayed(after, rows, todo[1..], fates[1..]);
        rest.(landed := (if Lands(m.keyed, rows[id], o) then [id] else []) + rest.landed)
  }

  /** Not a message without a chat, which the server may refuse. */
  predicate Insertable(row: Row) {
    row.table.Messages? ==> row.chatId != ""
  }

  /** Nothing goes wrong with the row: a failing placeholder insert can only happen to a message. */
  predicate Harmless(row: Row, o: Outcome) {
    o == Fine || (o == PlaceholderError && row.table != Messages)
  }

  lemma InsertableLandsIff(k: KeyedTables, row: Row, o: Outcome)
    requires Insertable(row)
    ensures Lands(k, row, o) <==> Harmless(row, o)
    ensures Kills(k, row, o) <==> Crashes(o)
  {
  }

  /** A message without a chat has no placeholder insert; it gets in only if it is there already or a chat "" is. */
  lemma ChatlessLandsIff(k: KeyedTables, row: Row, o: Outcome)
    requires !Insertable(row)
    ensures Lands(k, row, o)
       <==> (o == Fine || o == PlaceholderError) && ((Messages, row.key) in k || (Chats, "") in k)
  {
  }

  /** What a replay does follows from its fates: with insertable rows it dies exactly if some fate crashes, and if it
      does not die it marks exactly the rows to which nothing happened. */
  lemma {:induction false} ReplayFollowsFates(m: Remote, rows: seq<Row>, todo: seq<nat>, fates: seq<Fate>)
    requires Known(rows, todo) && |fates| == |todo| && Ascending(todo)
    requires forall j :: 0 <= j < |todo| ==> Insertable(rows[todo[j]])
    ensures var t := Replayed(m, rows, todo, fates);
      && (t.died <==> exists j :: 0 <= j < |todo| && Crashes(fates[j].outcome))
      && (!t.died ==> forall j :: 0 <= j < |todo| ==>
                                    (todo[j] in t.landed <==> Harmless(rows[todo[j]], fates[j].outcome)))
      && (forall id :: id in t.landed ==> id in todo)
    decreases |todo|
  {
    if todo != [] {
      var id, o := todo[0], fates[0].outcome;
      InsertableLandsIff(m.keyed, rows[id], o);
      if !Crashes(o) {
        var after := Wrote(m, id, rows[id], o);
        ReplayFollowsFates(after, rows, todo[1..], fates[1..]);
        var t, rest := Replayed(m, rows, todo, fates), Replayed(after, rows, todo[1..], fates[1..]);
        assert forall x :: x in t.landed <==> (x == id && Lands(m.keyed, rows[id], o)) || x in rest.landed;
        assert forall x :: x in todo <==> x == id || x in todo[1..];
        assert id !in todo[1..];
        assert forall j :: 0 < j < |todo| ==> todo[j] == todo[1..][j - 1] && fates[j] == fates[1..][j - 1];
        assert rest.died ==> exists j :: 0 <= j < |todo| && Crashes(fates[j].outcome);
      }
    }
  }

  /** If nothing goes wrong, everything insertable is marked. */
  lemma {:induction false} AllFineAllLand(m: Remote, rows: seq<Row>, todo: seq<nat>, fates: seq<Fate>)
    requires Known(rows, todo) && |fates| == |todo|
    requires forall j :: 0 <= j < |todo| ==> Insertable(rows[todo[j]]) && fates[j].outcome == Fine
    ensures var t := Replayed(m, rows, todo, fates); !t.died && t.landed == todo
    decreases |todo|
  {
    if todo != [] {
      InsertableLandsIff(m.keyed, rows[todo[0]], Fine);
      AllFineAllLand(Wrote(m, todo[0], rows[todo[0]], Fine), rows, todo[1..], fates[1..]);
    }
  }

  lemma WroteKeeps(m: Remote, id: nat, row: Row, o: Outcome, i: nat, other: Row)
    requires Present(m, i, other)
    ensures Present(Wrote(m, id, row, o), i, other)
  {
  }

  lemma LandedIsPresent(m: Remote, id: nat, row: Row, o: Outcome)
    requires Lands(m.keyed, row, o)
    ensures Present(Wrote(m, id, row, o), id, row)
  {
    if !row.table.Keyed() {
      assert Wrote(m, id, row, o).appended == m.appended + [id];
    }
  }

  lemma {:induction false} ReplayKeeps(m: Remote, rows: seq<Row>, todo: seq<nat>, fates: seq<Fate>, i: nat, row: Row)
    requires Known(rows, todo) && |fates| == |todo| && Present(m, i, row)
    ensures Present(Replayed(m, rows, todo, fates).remote, i, row)
    decreases |todo|
  {
    if todo != [] {
      var id, o := todo[0], fates[0].outcome;
      WroteKeeps(m, id, rows[id], o, i, row);
      if !Kills(m.keyed, rows[id], o) {
        ReplayKeeps(Wrote(m, id, rows[id], o), rows, todo[1..], fates[1..], i, row);
      }
    }
  }

  /** What a replay marks is in the database when it ends, even if it dies. */
  lemma {:induction false} MarkedArePresent(m: Remote, rows: seq<Row>, todo: seq<nat>, fates: seq<Fate>, i: nat)
    requires Known(rows, todo) && |fates| == |todo| && i in Replayed(m, rows, todo, fates).landed && i < |rows|
    ensures Present(Replayed(m, rows, todo, fates).remote, i, rows[i])
    decreases |todo|
  {
    var id, o := todo[0], fates[0].outcome;
    var after := Wrote(m, id, rows[id], o);
    var rest := Replayed(after, rows, todo[1..], fates[1..]);
    if i in rest.landed {
      MarkedArePresent(after, rows, todo[1..], fates[1..], i);
    } else {
      LandedIsPresent(m, id, rows[id], o);
      ReplayKeeps(after, rows, todo[1..], fates[1..], i, rows[i]);
    }
  }

  /***** The same while the loop is under way *****/

  function AsSet(ids: seq<nat>): set<nat> {
    set i | i in ids
  }

  lemma AsSetSnoc(ids: seq<nat>, id: nat)
    ensures AsSet(ids + [id]) == AsSet(ids) + {id}
  {
  }

  /** Only what others append has been added. */
  predicate Extends(rows: seq<Row>, more: seq<Row>) {
    |rows| <= |more| && forall i :: 0 <= i < |rows| ==> more[i] == rows[i]
  }

  lemma WaitingKnown(todo: seq<nat>, rows: seq<Row>, marked: set<nat>)
    requires Waiting(todo, |rows|, marked)
    ensures Known(rows, todo)
  {
  }

  /** The replay comes to what `done` has landed and what the rest of it will do. */
  predicate Onward(m0: Remote, rows: seq<Row>, snapshot: seq<nat>, fates: seq<Fate>, m: Remote, todo: seq<nat>,
                   rest: seq<Fate>, done: seq<nat>)
  {
    && Known(rows, snapshot) && |fates| == |snapshot| && Known(rows, todo) && |rest| == |todo|
    && var t := Replayed(m, rows, todo, rest);
       Replayed(m0, rows, snapshot, fates) == t.(landed := done + t.landed)
  }

  lemma OneMore(m0: Remote, rows: seq<Row>, snapshot: seq<nat>, fates: seq<Fate>, m: Remote, todo: seq<nat>,
                rest: seq<Fate>, done: seq<nat>)
    requires Onward(m0, rows, snapshot, fates, m, todo, rest, done) && todo != []
    ensures var id, o := todo[0], rest[0].outcome;
      var after := Wrote(m, id, rows[id], o);
      if Kills(m.keyed, rows[id], o) then Replayed(m0, rows, snapshot, fates) == Replay(true, done, after)
      else Onward(m0, rows, snapshot, fates, after, todo[1..], rest[1..],
                  if Lands(m.keyed, rows[id], o) then done + [id] else done)
  {
    hide Wrote, Kills, Lands;
    var id, o := todo[0], rest[0].outcome;
    assert done + [] == done;
    if !Kills(m.keyed, rows[id], o) {
      var later := Replayed(Wrote(m, id, rows[id], o), rows, todo[1..], rest[1..]).landed;
      assert done + ([id] + later) == (done + [id]) + later;
      assert [] + later == later;
    }
  }

  lemma Begun(m: Remote, rows: seq<Row>, todo: seq<nat>, fates: seq<Fate>)
    requires Known(rows, todo) && |fates| == |todo|
    ensures Onward(m, rows, todo, fates, m, todo, fates, [])
  {
    hide Replayed;
    assert [] + Replayed(m, rows, todo, fates).landed == Replayed(m, rows, todo, fates).landed;
  }

  lemma Ended(m0: Remote, rows: seq<Row>, snapshot: seq<nat>, fates: seq<Fate>, m: Remote, done: seq<nat>)
    requires Onward(m0, rows, snapshot, fates, m, [], [], done)
    ensures Replayed(m0, rows, snapshot, fates) == Replay(false, done, m)
  {
  }

  class PgOutbox {
    var rows: seq<Row>
    var marked: set<nat>
    var replayLog: seq<ReplayResult>
    var keyed: KeyedTables
    var appended: seq<nat>
    ghost var machine: State

    ghost predicate Valid()
      reads this
    {
      && machine.rows == rows && machine.marked == marked && machine.remote == Remote(keyed, appended)
      && RunsOk(machine)
      && forall i :: i in marked ==> i < |rows|
    }

    constructor (keyed: KeyedTables)
      ensures Valid() && machine == Initial(keyed) && replayLog == []
    {
      rows, marked, replayLog, appended := [], {}, [], [];
      this.keyed := keyed;
      machine := Initial(keyed);
    }

    method EnqueueOutboxWrite(row: Row)
      requires Valid()
      modifies this`rows, this`machine
      ensures Valid() && machine == Apply(old(machine), Enqueue(row))
    {
      StepKeepsRuns(machine, Enqueue(row));
      rows := rows + [row];
      machine := Apply(machine, Enqueue(row));
    }

    method OutboxBacklogCount() returns (n: nat)
      requires Valid()
      ensures n == |machine.Backlog()|
    {
      n := 0;
      for i := 0 to |rows|
        invariant n == |Pending(i, marked)|
      {
        if i !in marked {
          n := n + 1;
        }
      }
    }

    /** Several other processes append while this one is waiting. */
    method Arrive(arrivals: seq<Row>, ghost s0: State, ghost before: seq<Step>) returns (ghost trace: seq<Step>)
      requires Valid() && Reaches(s0, before, machine)
      modifies this`rows, this`machine
      ensures Valid() && Reaches(s0, trace, machine)
      ensures machine == old(machine).(rows := old(machine.rows) + arrivals)
      ensures |machine.Backlog()| == old(|machine.Backlog()|) + |arrivals|
    {
      trace := before;
      var k := 0;
      while k < |arrivals|
        invariant 0 <= k <= |arrivals| && Valid() && Reaches(s0, trace, machine)
        invariant machine == old(machine).(rows := old(machine.rows) + arrivals[..k])
        invariant |machine.Backlog()| == old(|machine.Backlog()|) + k
      {
        ghost var longer, after := Extend(s0, trace, machine, Enqueue(arrivals[k]));
        trace := longer;
        EnqueueOutboxWrite(arrivals[k]);
        assert arrivals[..k + 1] == arrivals[..k] + [arrivals[k]];
        k := k + 1;
      }
      assert arrivals[..k] == arrivals;
    }

    ghost method Perform(st: Step, s0: State, before: seq<Step>) returns (trace: seq<Step>)
      requires Reaches(s0, before, machine) && RunsOk(machine) && Enabled(machine, st)
      modifies this`machine
      ensures machine == Apply(old(machine), st) && RunsOk(machine)
      ensures trace == before + [st] && Reaches(s0, trace, machine)
    {
      StepKeepsRuns(machine, st);
      trace, machine := Extend(s0, before, machine, st);
    }

    /** The placeholder chat of a message, before the message itself. */
    method PutChatFirst(outcome: Outcome, row: Row, ghost r: nat, ghost s0: State, ghost before: seq<Step>)
      returns (refused: bool, ghost trace: seq<Step>)
      requires Valid() && Reaches(s0, before, machine)
      requires r < |machine.runs| && machine.runs[r].stage == Ready
      requires machine.runs[r].todo != [] && machine.runs[r].todo[0] < |rows| && rows[machine.runs[r].todo[0]] == row
      modifies this`keyed, this`machine
      ensures Valid() && Reaches(s0, trace, machine)
      ensures machine.rows == old(machine.rows) && machine.marked == old(machine.marked)
      ensures refused == (row.NeedsChat() && outcome.PlaceholderError?)
      ensures keyed == if refused then old(keyed) else PutChat(old(keyed), row)
      ensures refused ==> machine.runs == old(machine.runs)[r := NextRun(old(machine.runs[r]), PlaceholderFails)]
      ensures var stage := if row.NeedsChat() then ChatReady else Ready;
        !refused ==> machine.runs == old(machine.runs)[r := old(machine.runs[r]).(stage := stage)]
    {
      trace, refused := before, false;
      if row.NeedsChat() {
        if outcome.PlaceholderError? {
          trace := Perform(OnRow(r, PlaceholderFails), s0, trace);
          return true, trace;
        }
        keyed := PutChat(keyed, row);
        trace := Perform(OnRow(r, PutPlaceholder), s0, trace);
      }
    }

    /** The insert of the row itself. */
    method InsertRemote(outcome: Outcome, id: nat, ghost r: nat, ghost s0: State, ghost before: seq<Step>)
      returns (refused: bool, ghost trace: seq<Step>)
      requires Valid() && Reaches(s0, before, machine)
      requires r < |machine.runs| && machine.runs[r].todo != [] && machine.runs[r].todo[0] == id && id < |rows|
      requires machine.runs[r].stage == if rows[id].NeedsChat() then ChatReady else Ready
      modifies this`keyed, this`appended, this`machine
      ensures Valid() && Reaches(s0, trace, machine)
      ensures machine.rows == old(machine.rows) && machine.marked == old(machine.marked)
      ensures refused == (outcome.InsertError? || !ForeignKeyHolds(old(keyed), rows[id]))
      ensures Remote(keyed, appended)
           == if refused then old(Remote(keyed, appended)) else InsertRow(old(Remote(keyed, appended)), id, rows[id])
      ensures var what := if refused then InsertFails else Insert;
        machine.runs == old(machine.runs)[r := NextRun(old(machine.runs[r]), what)]
    {
      refused := outcome.InsertError? || !ForeignKeyHolds(keyed, rows[id]);
      if refused {
        trace := Perform(OnRow(r, InsertFails), s0, before);
      } else {
        var remote := InsertRow(Remote(keyed, appended), id, rows[id]);
        keyed, appended := remote.keyed, remote.appended;
        trace := Perform(OnRow(r, Insert), s0, before);
      }
    }

    /** The local mark, right after the insert. */
    method MarkReplayed(outcome: Outcome, id: nat, ghost r: nat, ghost s0: State, ghost before: seq<Step>)
      returns (landed: bool, ghost trace: seq<Step>)
      requires Valid() && Reaches(s0, before, machine)
      requires r < |machine.runs| && machine.runs[r].todo != [] && machine.runs[r].todo[0] == id && id < |rows|
      requires machine.runs[r].stage == Landed
      modifies this`marked, this`machine
      ensures Valid() && Reaches(s0, trace, machine) && machine.rows == old(machine.rows)
      ensures landed == !outcome.MarkError?
      ensures machine.runs == old(machine.runs)[r := NextRun(old(machine.runs[r]), if landed then Mark else MarkFails)]
      ensures machine.marked == old(machine.marked) + (if landed then {id} else {})
    {
      landed := !outcome.MarkError?;
      if landed {
        marked := marked + {id};
        trace := Perform(OnRow(r, Mark), s0, before);
      } else {
        trace := Perform(OnRow(r, MarkFails), s0, before);
      }
    }

    method Die(ghost s0: State, ghost before: seq<Step>) returns (ghost trace: seq<Step>)
      requires Valid() && Reaches(s0, before, machine)
      modifies this`machine
      ensures Valid() && Reaches(s0, trace, machine) && machine.rows == old(machine.rows) && Crash in trace
    {
      trace := Perform(Crash, s0, before);
      assert trace[|before|] == Crash;
    }

    /** One row of a replay, performed by run `r` of the machine. */
    method ReplayRow(outcome: Outcome, id: nat, ghost r: nat, ghost s0: State, ghost before: seq<Step>)
      returns (died: bool, landed: bool, ghost trace: seq<Step>)
      requires Valid() && Reaches(s0, before, machine)
      requires r < |machine.runs| && machine.runs[r].stage == Ready
      requires machine.runs[r].todo != [] && machine.runs[r].todo[0] == id && id < |rows|
      modifies this`marked, this`keyed, this`appended, this`machine
      ensures Valid() && Reaches(s0, trace, machine) && machine.rows == old(machine.rows)
      ensures died == Kills(old(keyed), old(rows)[id], outcome) && landed == Lands(old(keyed), old(rows)[id], outcome)
      ensures Remote(keyed, appended) == Wrote(old(Remote(keyed, appended)), id, old(rows)[id], outcome)
      ensures died ==> Crash in trace && machine.marked == old(machine.marked)
      ensures !died ==>
        && machine.runs == old(machine.runs)[r := NextRun(old(machine.runs[r]), if landed then Mark else MarkFails)]
        && machine.marked == old(machine.marked) + (if landed then {id} else {})
    {
      hide Apply, Reaches, RunsOk;
      landed := false;
      if outcome.CrashAtStart? {
        trace := Die(s0, before);
        return true, false, trace;
      }
      var refused;
      refused, trace := PutChatFirst(outcome, rows[id], r, s0, before);
      if refused {
        return false, false, trace;
      }
      if outcome.CrashBeforeInsert? {
        trace := Die(s0, trace);
        return true, false, trace;
      }
      refused, trace := InsertRemote(outcome, id, r, s0, trace);
      if refused {
        return false, false, trace;
      }
      if outcome.CrashBeforeMark? {
        trace := Die(s0, trace);
        return true, false, trace;
      }
      died := false;
      landed, trace := MarkReplayed(outcome, id, r, s0, trace);
    }

    /** One round of the loop: others enqueue, then the row is replayed. */
    method ReplayRound(fate: Fate, id: nat, ghost r: nat, ghost s0: State, ghost before: seq<Step>)
      returns (died: bool, landed: bool, ghost trace: seq<Step>)
      requires Valid() && Reaches(s0, before, machine)
      requires r < |machine.runs| && machine.runs[r].stage == Ready
      requires machine.runs[r].todo != [] && machine.runs[r].todo[0] == id && id < |rows| && id !in marked
      modifies this`rows, this`marked, this`keyed, this`appended, this`machine
      ensures Valid() && Reaches(s0, trace, machine) && rows == old(rows) + fate.arrivals
      ensures died == Kills(old(keyed), old(rows)[id], fate.outcome)
      ensures landed == Lands(old(keyed), old(rows)[id], fate.outcome)
      ensures Remote(keyed, appended) == Wrote(old(Remote(keyed, appended)), id, old(rows)[id], fate.outcome)
      ensures died ==> Crash in trace && marked == old(marked)
      ensures !died ==>
        && |machine.runs| == old(|machine.runs|)
        && machine.runs[r] == NextRun(old(machine.runs[r]), if landed then Mark else MarkFails)
        && machine.marked == old(machine.marked) + (if landed then {id} else {})
        && |machine.Backlog()| == old(|machine.Backlog()|) + |fate.arrivals| - (if landed then 1 else 0)
    {
      trace := Arrive(fate.arrivals, s0, before);
      assert rows[id] == old(rows)[id];
      ghost var (n, was) := (|rows|, marked);
      died, landed, trace := ReplayRow(fate.outcome, id, r, s0, trace);
      MarkShrinksBacklog(n, was, id);
      assert was + {} == was;
    }

    /** The snapshot of what is not marked. */
    method ListWaiting() returns (todo: seq<nat>, ghost trace: seq<Step>)
      requires Valid()
      modifies this`machine
      ensures Valid() && Reaches(old(machine), trace, machine) && machine == Apply(old(machine), StartReplay)
      ensures todo == old(machine.Backlog()) == machine.Backlog() && Waiting(todo, |rows|, marked)
      ensures machine.runs == old(machine.runs) + [ReplayRun(todo, Ready, |todo|, 0, 0)]
    {
      todo := Pending(|rows|, marked);
      PendingFacts(|rows|, marked);
      trace := Perform(StartReplay, machine, []);
    }

    /** The loop over the snapshot. */
    method ReplayRows(snapshot: seq<nat>, fates: seq<Fate>, ghost r: nat, ghost s0: State, ghost before: seq<Step>)
      returns (died: bool, replayed: nat, failed: nat, ghost trace: seq<Step>)
      requires Valid() && Reaches(s0, before, machine) && |fates| == |snapshot|
      requires r < |machine.runs| && machine.runs[r].todo == snapshot && machine.runs[r].stage == Ready
      requires Waiting(snapshot, |rows|, marked)
      modifies this`rows, this`marked, this`keyed, this`appended, this`machine
      ensures Valid() && Reaches(s0, trace, machine)
      ensures |rows| >= old(|rows|) && Known(old(rows), snapshot)
      ensures var t := Replayed(old(Remote(keyed, appended)), old(rows), snapshot, fates);
        && died == t.died && marked == old(marked) + AsSet(t.landed) && Remote(keyed, appended) == t.remote
        && (!died ==> replayed == |t.landed|)
      ensures died ==> Crash in trace
      ensures !died ==> |snapshot| == replayed + failed
      ensures !died ==> |machine.Backlog()| == old(|machine.Backlog()|) - replayed + Arrivals(fates)
    {
      hide Apply, Reaches, RunsOk, Pending, Waiting, Wrote, Lands, Kills;
      WaitingKnown(snapshot, rows, marked);
      var todo, rest := snapshot, fates;
      replayed, failed, trace := 0, 0, before;
      ghost var arrived := 0;
      ghost var m0, rows0 := Remote(keyed, appended), rows;
      ghost var landedIds: seq<nat> := [];
      assert marked == marked + AsSet([]);
      Begun(m0, rows0, snapshot, fates);
      hide Onward, Replayed, AsSet;
      while todo != []
        invariant Valid() && Reaches(s0, trace, machine)
        invariant r < |machine.runs| && machine.runs[r].todo == todo && machine.runs[r].stage == Ready
        invariant Waiting(todo, |rows|, marked)
        invariant |snapshot| == replayed + failed + |todo| && |rest| == |todo|
        invariant arrived + Arrivals(rest) == Arrivals(fates)
        invariant |machine.Backlog()| == old(|machine.Backlog()|) - replayed + arrived
        invariant Extends(rows0, rows) && Known(rows0, todo) && replayed == |landedIds|
        invariant marked == old(marked) + AsSet(landedIds)
        invariant Onward(m0, rows0, snapshot, fates, Remote(keyed, appended), todo, rest, landedIds)
        decreases |todo|
      {
        var landed;
        ghost var (n, was) := (|rows|, marked);
        ghost var m, id := Remote(keyed, appended), todo[0];
        WaitingHead(todo, |rows|, marked);
        OneMore(m0, rows0, snapshot, fates, m, todo, rest, landedIds);
        died, landed, trace := ReplayRound(rest[0], todo[0], r, s0, trace);
        if died {
          return;
        }
        WaitingTail(todo, n, was, |rows|, marked);
        arrived := arrived + |rest[0].arrivals|;
        todo, rest := todo[1..], rest[1..];
        if landed {
          replayed := replayed + 1;
          AsSetSnoc(landedIds, id);
          landedIds := landedIds + [id];
        } else {
          failed := failed + 1;
        }
      }
      died := false;
      Ended(m0, rows0, snapshot, fates, Remote(keyed, appended), landedIds);
    }

    /** Replays the backlog oldest first, marking each row right after its own insert. Whatever happens on
        the way is a trace of the machine. Whether it dies, what it marks and what it leaves in the database follows
        from the fates; a replay that completes accounts for every row it attempted and lowers the backlog by exactly
        the rows it marked, less what others enqueued meanwhile. */
    method ReplayOutbox(fates: seq<Fate>) returns (result: ReplayResult, ghost trace: seq<Step>)
      requires Valid() && |fates| == |machine.Backlog()|
      modifies this
      ensures Valid() && Reaches(old(machine), trace, machine)
      ensures Known(old(rows), old(machine.Backlog()))
      ensures var t := Replayed(old(Remote(keyed, appended)), old(rows), old(machine.Backlog()), fates);
        && result.Died? == t.died && marked == old(marked) + AsSet(t.landed) && Remote(keyed, appended) == t.remote
        && (result.Completed? ==> result.replayed == |t.landed|)
      ensures result.Died? ==> Crash in trace && replayLog == old(replayLog)
      ensures result.Completed? ==>
        && result.attempted == old(|machine.Backlog()|) == result.replayed + result.failed
        && |machine.Backlog()| == old(|machine.Backlog()|) - result.replayed + Arrivals(fates)
        && replayLog == old(replayLog) + [result]
    {
      hide Apply, Reaches, RunsOk, Pending, Waiting;
      ghost var s0, r := machine, |machine.runs|;
      var todo, died, replayed, failed;
      todo, trace := ListWaiting();
      died, replayed, failed, trace := ReplayRows(todo, fates, r, s0, trace);
      if died {
        return Died, trace;
      }
      result := Completed(|todo|, replayed, failed);
      replayLog := replayLog + [result];
    }
  }
}
