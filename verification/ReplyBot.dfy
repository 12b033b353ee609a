/** The reply worker in the form the channel has it: fields updated in place, one method per stretch of code
    between two awaits. Each stretch is one step of ReplyMachine, so every run of these methods is a trace. */
module ReplyBot {
  import opened ReplyMachine

  class BotChannel {
    // The store: the pending_replies rows and the LP ledger as far as replies touch it.
    var rows: map<nat, Row>
    var nextId: nat
    var accounts: map<nat, Account>
    // The process: gone at a restart.
    var processing: bool
    var queue: seq<Job>
    var active: seq<Frame>
    var arriving: set<Job>
    var todo: seq<Listed>
    var recovery: RecoveryStage
    // Where each message is, and the order of queueing and starting, for the statements about them.
    ghost var place: map<nat, Place>
    ghost var pushed: seq<nat>
    ghost var started: seq<nat>

    ghost function View(): State
      reads this
    {
      State(rows, nextId, accounts, processing, queue, active, arriving, todo, recovery, place, pushed, started)
    }

    constructor ()
      ensures View() == INITIAL
    {
      rows, nextId, accounts := map[], 0, map[];
      processing, queue, active, arriving := false, [], [], {};
      todo, recovery := [], Fresh;
      place, pushed, started := map[], [], [];
    }

    method AccountOf(id: nat) returns (a: Account)
      ensures a == Acc(View(), id)
    {
      a := if id in accounts then accounts[id] else Account(0, 0, 0);
    }

    /** pump(): up to the first await of processJob. */
    method StartNext()
      modifies this
      ensures View() == Pump(old(View()))
    {
      if processing || queue == [] {
        return;
      }
      var job := queue[0];
      queue := queue[1..];
      processing := true;
      var a := AccountOf(job.id);
      accounts := accounts[job.id := a.(starts := a.starts + 1)];
      active := active + [Frame(job, Starting, 0, false)];
      place := place[job.id := Running];
      started := started + [job.id];
    }

    /** handleEvent up to the reaction: the row is written before anything else happens. */
    method Persist(written: bool, sender: bool) returns (job: Job)
      modifies this
      ensures View() == Apply(old(View()), Arrive(written, sender))
      ensures job == Job(old(nextId), written, sender) && job in arriving
    {
      job := Job(nextId, written, sender);
      if written {
        rows := rows[nextId := Row(0, false, sender)];
      }
      arriving := arriving + {job};
      place := place[nextId := Arriving];
      nextId := nextId + 1;
    }

    /** handleEvent after the reaction: queue.push and pump. */
    method QueueUp(job: Job)
      requires job in arriving
      modifies this
      ensures View() == Apply(old(View()), Enqueue(job))
    {
      arriving := arriving - {job};
      PushBack(job);
      StartNext();
    }

    method PushBack(job: Job)
      modifies this
      ensures View() == Push(old(View()), job)
    {
      queue := queue + [job];
      place := place[job.id := Queued];
      pushed := pushed + [job.id];
    }

    /** spendPt for the running job. */
    method Charge(f: nat, cost: nat, result: Spending)
      requires Enabled(View(), Spend(f, cost, result))
      modifies this
      ensures View() == Apply(old(View()), Spend(f, cost, result))
    {
      var frame := active[f];
      var booked := if result.Spent? || (result.SpendThrows? && result.booked) then cost else 0;
      var a := AccountOf(frame.job.id);
      accounts := accounts[frame.job.id := a.(net := a.net + booked)];
      match result
      case Insufficient =>
        active := active[f := frame.(stage := Delivered)];
      case SpendThrows(_) =>
        active := active[f := frame.(stage := Closing)];
      case Spent =>
        active := active[f := frame.(stage := Charged, cost := cost)];
    }

    /** updatePendingReply({ ptSpent: true }). */
    method MarkCharged(f: nat, written: bool)
      requires Enabled(View(), RecordFlag(f, written))
      modifies this
      ensures View() == Apply(old(View()), RecordFlag(f, written))
    {
      var frame := active[f];
      if written && frame.job.persisted && frame.job.id in rows {
        rows := rows[frame.job.id := rows[frame.job.id].(ptSpent := true)];
      }
      active := active[f := frame.(stage := Answering)];
    }

    /** The catch block of a failed answer: give the cost back, send a notice. */
    method RefundOnError(f: nat, refund: Refund)
      requires Enabled(View(), AnswerError(f, refund))
      modifies this
      ensures View() == Apply(old(View()), AnswerError(f, refund))
    {
      var frame := active[f];
      var booked := if refund.Returned? || refund.booked then frame.cost else 0;
      var a := AccountOf(frame.job.id);
      accounts := accounts[frame.job.id := a.(net := a.net - booked)];
      active := active[f := frame.(stage := if refund.Returned? then Delivered else Closing)];
    }

    /** The finally block of pump(): drop the row, free the worker, start the next job. */
    method Finish(f: nat, removed: bool)
      requires Enabled(View(), Close(f, removed))
      modifies this
      ensures View() == Apply(old(View()), Close(f, removed))
    {
      var job := active[f].job;
      if removed && job.persisted {
        rows := rows - {job.id};
      }
      place := place[job.id := Over(active[f].answered, active[f].cost)];
      active := active[..f] + active[f + 1..];
      processing := false;
      StartNext();
    }

    /** listPendingReplies: the owed replies, oldest first. */
    method ListPending() returns (pendings: seq<Listed>)
      ensures pendings == ListRows(rows, nextId)
    {
      pendings := [];
      for id := 0 to nextId
        invariant pendings == ListRows(rows, id)
      {
        if id in rows {
          pendings := pendings + [Listed(id, rows[id])];
        }
      }
    }

    /** The process dies here and a new one starts. */
    method Reboot(listed: bool)
      modifies this
      ensures View() == Restarted(old(View()), listed)
    {
      hide ListRows, PlaceAll;
      var pendings := [];
      if listed {
        pendings := ListPending();
      }
      processing, queue, active, arriving := false, [], [], {};
      todo, recovery := pendings, Fresh;
      place, pushed, started := PlaceAll(pendings), [], [];
    }

    /** Steps 1 and 2 of recover()'s loop: give back what the row says was charged. */
    method RefundListed(booked: bool)
      requires Enabled(View(), RecoverRefund(booked))
      modifies this
      ensures View() == Apply(old(View()), RecoverRefund(booked)) && todo == old(todo) && recovery == Refunded
    {
      var p := todo[0];
      var a := AccountOf(p.id);
      var amount := if booked && p.row.ptSpent && p.row.sender then LLM_PT_COST else 0;
      accounts := accounts[p.id := a.(net := a.net - amount)];
      recovery := Refunded;
    }

    /** Step 3: too many attempts. */
    method GiveUp(removed: bool)
      requires Enabled(View(), RecoverGiveUp(removed))
      modifies this
      ensures View() == Apply(old(View()), RecoverGiveUp(removed)) && todo == old(todo)[1..] && recovery == Fresh
    {
      var p := todo[0];
      if removed {
        rows := rows - {p.id};
      }
      todo, recovery, place := todo[1..], Fresh, place[p.id := Over(false, 0)];
    }

    /** Step 4, first half: the row's attempts go up; ptSpent stays. */
    method CountAttempt(written: bool)
      requires Enabled(View(), RecoverBump(written))
      modifies this
      ensures View() == Apply(old(View()), RecoverBump(written)) && todo == old(todo) && recovery == Bumped
    {
      var p := todo[0];
      if written && p.id in rows {
        rows := rows[p.id := rows[p.id].(attempts := p.row.attempts + 1)];
      } else {
        var a := AccountOf(p.id);
        accounts := accounts[p.id := a.(lostBumps := a.lostBumps + 1)];
      }
      place, recovery := place[p.id := Rebound], Bumped;
    }

    /** Step 4, second half: back into the queue with the same row. */
    method Requeue()
      requires Enabled(View(), RecoverPush)
      modifies this
      ensures View() == Apply(old(View()), RecoverPush) && todo == old(todo)[1..] && recovery == Fresh
    {
      var p := todo[0];
      todo, recovery := todo[1..], Fresh;
      PushBack(Job(p.id, true, p.row.sender));
    }

    /** One turn of recover()'s loop, not interrupted. */
    method RecoverOne(refunds: bool, stored: bool) returns (ghost steps: seq<Step>)
      requires todo != [] && recovery == Fresh
      modifies this
      ensures Performs(old(View()), steps, View()) && steps == TurnFor(old(todo)[0], refunds, stored)
      ensures todo == old(todo)[1..] && recovery == Fresh
    {
      hide Apply, Performs;
      ghost var s0 := View();
      RefundListed(refunds);
      ghost var s1 := View();
      OneStep(s0, RecoverRefund(refunds), s1);
      steps := [RecoverRefund(refunds)];
      if todo[0].row.attempts >= MAX_RECOVERY_ATTEMPTS {
        GiveUp(stored);
        OneStep(s1, RecoverGiveUp(stored), View());
        steps := Joined(s0, steps, s1, [RecoverGiveUp(stored)], View());
      } else {
        CountAttempt(stored);
        ghost var s2 := View();
        OneStep(s1, RecoverBump(stored), s2);
        steps := Joined(s0, steps, s1, [RecoverBump(stored)], s2);
        Requeue();
        OneStep(s2, RecoverPush, View());
        steps := Joined(s0, steps, s2, [RecoverPush], View());
      }
    }

    /** recover() with nothing else happening: every listed reply, in its order, is refunded as far as the grants
        succeed and requeued or given up, then the worker starts. */
    method Recover(refunds: seq<bool>, stored: seq<bool>) returns (ghost steps: seq<Step>)
      requires recovery == Fresh && |refunds| == |stored| == |todo|
      modifies this
      ensures Performs(old(View()), steps, View()) && steps == TurnsFor(old(todo), refunds, stored) + [RecoverPump]
      ensures todo == []
    {
      hide Apply, Performs, TurnFor;
      ghost var s0, listed := View(), todo;
      steps := [];
      EmptyRun(s0);
      var n := 0;
      while todo != []
        invariant n <= |listed| && todo == listed[n..] && recovery == Fresh
        invariant Performs(s0, steps, View())
        invariant steps + TurnsFor(listed[n..], refunds[n..], stored[n..]) == TurnsFor(listed, refunds, stored)
        decreases |todo|
      {
        ghost var s := View();
        ghost var turn := RecoverOne(refunds[n], stored[n]);
        ghost var rest := TurnsFor(listed[n + 1..], refunds[n + 1..], stored[n + 1..]);
        NextTurn(listed, refunds, stored, n);
        assert steps + (turn + rest) == (steps + turn) + rest;
        steps := Joined(s0, steps, s, turn, View());
        n := n + 1;
      }
      ghost var s := View();
      StartNext();
      PumpStep(s);
      OneStep(s, RecoverPump, View());
      assert steps + TurnsFor([], [], []) == steps;
      steps := Joined(s0, steps, s, [RecoverPump], View());
    }
  }

  /** What recovery does with one listed reply, given whether its grant and its write to the row succeed. */
  function TurnFor(p: Listed, refund: bool, stored: bool): seq<Step> {
    if p.row.attempts >= 2 then [RecoverRefund(refund), RecoverGiveUp(stored)]
    else [RecoverRefund(refund), RecoverBump(stored), RecoverPush]
  }

  function TurnsFor(listed: seq<Listed>, refunds: seq<bool>, stored: seq<bool>): seq<Step>
    requires |refunds| == |stored| == |listed|
  {
    if listed == [] then []
    else TurnFor(listed[0], refunds[0], stored[0]) + TurnsFor(listed[1..], refunds[1..], stored[1..])
  }

  lemma NextTurn(listed: seq<Listed>, refunds: seq<bool>, stored: seq<bool>, n: nat)
    requires |refunds| == |stored| == |listed| && n < |listed|
    ensures TurnsFor(listed[n..], refunds[n..], stored[n..])
         == TurnFor(listed[n], refunds[n], stored[n]) + TurnsFor(listed[n + 1..], refunds[n + 1..], stored[n + 1..])
  {
    assert listed[n..][1..] == listed[n + 1..];
    assert refunds[n..][1..] == refunds[n + 1..] && stored[n..][1..] == stored[n + 1..];
  }

  lemma EmptyRun(s: State)
    ensures Performs(s, [], s)
  {
  }

  lemma PumpStep(s: State)
    requires s.todo == []
    ensures Enabled(s, RecoverPump) && Apply(s, RecoverPump) == Pump(s)
  {
  }

  ghost predicate Performs(s: State, steps: seq<Step>, t: State) {
    IsTrace(s, steps) && t == After(s, steps)
  }

  lemma OneStep(s: State, st: Step, t: State)
    requires Enabled(s, st) && t == Apply(s, st)
    ensures Performs(s, [st], t)
  {
    assert [st][1..] == [];
  }

  lemma {:induction false} Joined(s: State, a: seq<Step>, t: State, b: seq<Step>, u: State) returns (ab: seq<Step>)
    requires Performs(s, a, t) && Performs(t, b, u)
    ensures ab == a + b && Performs(s, ab, u)
    decreases |a|
  {
    ab := a + b;
    if a == [] {
      assert ab == b;
    } else {
      assert ab[1..] == a[1..] + b;
      var _ := Joined(Apply(s, a[0]), a[1..], t, b, u);
    }
  }
}
