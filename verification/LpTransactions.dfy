/** Re-entrant transactions on one pooled connection, behind the breaker gate of the LP pool.
    The soul pool follows the same code without the gate (`gated == false`). */
module LpTransactions {
  import opened CircuitBreaker

  /***** What callers write, with the outcome the outside world gives each step *****/

  /** `done`: the server did it, but its answer never arrived. */
  datatype Outcome = Succeeds | Fails(counted: bool, done: bool)

  /** AckLost: the server committed but the acknowledgement never arrived. */
  datatype CommitOutcome = Acknowledged | Rejected | AckLost

  datatype Link = Link(at: int, connects: Outcome, beginOk: bool, commit: CommitOutcome)

  datatype Op =
    | Statement(id: int, at: int, connects: Outcome, runs: Outcome)
    | Held(at: int, first: Body, id: int, used: int, connects: Outcome, runs: Outcome)
      // an executor taken at `at`, other calls, then a statement on it at `used`
    | Transaction(link: Link, body: Body)
    | Raise
    | Swallow(tried: Body)            // try { ... } catch { }
    | Elsewhere(event: Event)         // another request touches the breaker at this await point

  datatype Body = Return | Do(op: Op, next: Body)

  datatype Wire =
    | Gate(granted: bool) | GivenUp
    | Connect(conn: nat) | ConnectFailed
    | Begin(conn: nat) | BeginFailed(conn: nat)
    | Query(conn: nat, id: int, answer: Outcome)
    | Commit(conn: nat, outcome: CommitOutcome) | Rollback(conn: nat) | Release(conn: nat)
    | ReportOk | ReportFailure

  datatype World = World(committed: seq<int>, wire: seq<Wire>, breaker: Snapshot, nextConn: nat)

  /** The async-local binding: no transaction, or the one connection everything inside resolves to. */
  datatype Ctx = Free | Bound(conn: nat, pending: seq<int>, aborted: bool)

  datatype Result = Result(world: World, ctx: Ctx, threw: bool)

  datatype Params = Params(config: Config, gated: bool)

  function Logged(w: World, entries: seq<Wire>): World {
    w.(wire := w.wire + entries)
  }

  function Reported(p: Params, w: World, o: Outcome, at: int): World {
    Logged(w, ReportOf(o)).(breaker :=
      if o.Succeeds? then AfterSuccess(w.breaker)
      else if o.counted then AfterFailure(p.config, w.breaker, at) else w.breaker)
  }

  function ReportOf(o: Outcome): seq<Wire> {
    match o
    case Succeeds => [ReportOk]
    case Fails(counted, _) => if counted then [ReportFailure] else []
  }

  predicate Admitted(p: Params, w: World, at: int) {
    !p.gated || Allows(p.config, w.breaker, at)
  }

  function Gated(p: Params, w: World, at: int): World {
    if !p.gated then w
    else Logged(w, [Gate(Admitted(p, w, at))]).(breaker := AfterAsk(p.config, w.breaker, at))
  }

  function RunBody(p: Params, b: Body, ctx: Ctx, w: World): Result
    decreases b, 0
  {
    match b
    case Return => Result(w, ctx, false)
    case Do(op, next) =>
      var r := RunOp(p, op, ctx, w);
      if r.threw then r else RunBody(p, next, r.ctx, r.world)
  }

  function RunOp(p: Params, op: Op, ctx: Ctx, w: World): Result
    decreases op, 0
  {
    match op
    case Statement(id, at, connects, runs) => RunStatement(p, id, at, connects, runs, ctx, w)
    case Held(at, first, id, used, connects, runs) => RunHeld(p, at, first, id, used, connects, runs, ctx, w)
    case Transaction(link, body) => RunTransaction(p, link, body, ctx, w)
    case Raise => Result(w, ctx, true)
    case Swallow(tried) => RunBody(p, tried, ctx, w).(threw := false)
    case Elsewhere(e) => Result(w.(breaker := Step(p.config, w.breaker, e)), ctx, false)
  }

  /** A statement after a failed one on the same connection is refused by the server. */
  function Effective(runs: Outcome, aborted: bool): Outcome {
    if aborted && runs.Succeeds? then Fails(false, false) else runs
  }

  /** getLpDb(): inside a transaction there is no gate. */
  predicate GetsExecutor(p: Params, at: int, ctx: Ctx, w: World) {
    ctx.Bound? || Admitted(p, w, at)
  }

  function Asked(p: Params, at: int, ctx: Ctx, w: World): World {
    if ctx.Bound? then w else Gated(p, w, at)
  }

  /** A statement on an executor that was obtained. */
  function Execute(p: Params, id: int, at: int, connects: Outcome, runs: Outcome, ctx: Ctx, w: World): Result {
    match ctx
    case Bound(c, pending, aborted) =>
      var o := Effective(runs, aborted);
      var w1 := Reported(p, Logged(w, [Query(c, id, o)]), o, at);
      Result(w1, if o.Succeeds? then Bound(c, pending + [id], aborted) else Bound(c, pending, true), !o.Succeeds?)
    case Free =>
      if connects.Fails? then Result(Reported(p, Logged(w, [ConnectFailed]), connects, at), Free, true)
      else
        var c := w.nextConn;
        var w1 := Reported(p, Logged(w, [Connect(c), Query(c, id, runs)]), runs, at);
        var w2 := Logged(w1, [Release(c)]).(nextConn := c + 1);
        Result(if runs.Succeeds? || runs.done then w2.(committed := w.committed + [id]) else w2, Free, !runs.Succeeds?)
  }

  function RunStatement(p: Params, id: int, at: int, connects: Outcome, runs: Outcome, ctx: Ctx, w: World): Result
  {
    var w0 := Asked(p, at, ctx, w);
    if !GetsExecutor(p, at, ctx, w) then Result(w0, Free, true) else Execute(p, id, at, connects, runs, ctx, w0)
  }

  /** The executor is taken before the arguments of its statement are made; if that throws, it is never used. */
  function RunHeld(p: Params, at: int, first: Body, id: int, used: int, connects: Outcome, runs: Outcome, ctx: Ctx,
                   w: World): Result
    decreases first, 1
  {
    var w0 := Asked(p, at, ctx, w);
    if !GetsExecutor(p, at, ctx, w) then Result(w0, Free, true)
    else
      var r := RunBody(p, first, ctx, w0);
      if !r.threw then Execute(p, id, used, connects, runs, r.ctx, r.world)
      else if p.gated && ctx.Free? then r.(world := Logged(r.world, [GivenUp]))
      else r
  }

  function RunTransaction(p: Params, link: Link, body: Body, ctx: Ctx, w: World): Result
    decreases body, 1
  {
    if ctx.Bound? then RunBody(p, body, ctx, w)
    else
      var w0 := Gated(p, w, link.at);
      if !Admitted(p, w, link.at) then Result(w0, Free, true)
      else if link.connects.Fails? then
        Result(Reported(p, Logged(w0, [ConnectFailed]), link.connects, link.at), Free, true)
      else
        var c := w.nextConn;
        var w1 := Logged(w0, [Connect(c)]).(nextConn := c + 1);
        if !link.beginOk then Result(Logged(w1, [BeginFailed(c), Rollback(c), Release(c)]), Free, true)
        else
          var r := RunBody(p, body, Bound(c, [], false), Logged(w1, [Begin(c)]));
          if r.threw then Result(Logged(r.world, [Rollback(c), Release(c)]), Free, true)
          else Settle(link.commit, c, r)
  }

  /** COMMIT: an aborted connection answers it normally but the server has rolled everything back. */
  function Settle(commit: CommitOutcome, c: nat, r: Result): Result {
    var durable := if r.ctx.Bound? && !r.ctx.aborted && !commit.Rejected?
                   then r.world.committed + r.ctx.pending else r.world.committed;
    if commit.Acknowledged?
    then Result(Logged(r.world, [Commit(c, commit), ReportOk, Release(c)])
                .(committed := durable, breaker := AfterSuccess(r.world.breaker)), Free, false)
    else Result(Logged(r.world, [Commit(c, commit), Rollback(c), Release(c)]).(committed := durable), Free, true)
  }

  /***** The same code in its own form: an object whose methods talk to the server *****/

  class PgPool {
    const gated: bool
    const breaker: PgCircuitBreaker
    var committed: seq<int>
    var wire: seq<Wire>
    var nextConn: nat

    ghost function View(): World
      reads this, breaker
    {
      World(committed, wire, breaker.View(), nextConn)
    }

    ghost function P(): Params {
      Params(breaker.config, gated)
    }

    constructor (gated: bool, breaker: PgCircuitBreaker)
      ensures this.gated == gated && this.breaker == breaker
      ensures committed == [] && wire == [] && nextConn == 0
    {
      this.gated, this.breaker := gated, breaker;
      committed, wire, nextConn := [], [], 0;
    }

    method Report(o: Outcome, at: int)
      modifies this`wire, breaker
      ensures View() == Reported(P(), old(View()), o, at)
    {
      if o.Succeeds? {
        wire := wire + [ReportOk];
        breaker.RecordSuccess();
      } else if o.counted {
        wire := wire + [ReportFailure];
        breaker.RecordFailure(at);
      }
    }

    method Enter(at: int) returns (admitted: bool)
      modifies this`wire, breaker
      ensures admitted == Admitted(P(), old(View()), at) && View() == Gated(P(), old(View()), at)
    {
      if !gated {
        return true;
      }
      admitted := breaker.AllowRequest(at);
      wire := wire + [Gate(admitted)];
    }

    /** getLpDb(): the bound connection, or the pool behind its gate. */
    method TakeExecutor(at: int, ctx: Ctx) returns (granted: bool)
      modifies this`wire, breaker
      ensures granted == GetsExecutor(P(), at, ctx, old(View())) && View() == Asked(P(), at, ctx, old(View()))
    {
      if ctx.Bound? {
        return true;
      }
      granted := Enter(at);
    }

    /** query() of an executor: on the bound connection, or on one checked out for this statement alone. */
    method ExecuteOn(id: int, at: int, connects: Outcome, runs: Outcome, ctx: Ctx) returns (after: Ctx, threw: bool)
      modifies this, breaker
      ensures Result(View(), after, threw) == Execute(P(), id, at, connects, runs, ctx, old(View()))
    {
      if ctx.Bound? {
        var o := Effective(runs, ctx.aborted);
        wire := wire + [Wire.Query(ctx.conn, id, o)];
        Report(o, at);
        return if o.Succeeds? then ctx.(pending := ctx.pending + [id]) else ctx.(aborted := true), !o.Succeeds?;
      }
      if connects.Fails? {
        wire := wire + [ConnectFailed];
        Report(connects, at);
        return Free, true;
      }
      var c := nextConn;
      nextConn := c + 1;
      wire := wire + [Connect(c), Wire.Query(c, id, runs)];
      Report(runs, at);
      if runs.Succeeds? || runs.done {
        committed := committed + [id];
      }
      wire := wire + [Release(c)];
      return Free, runs.Fails?;
    }

    /** One statement through getLpDb(). */
    method Query(id: int, at: int, connects: Outcome, runs: Outcome, ctx: Ctx) returns (after: Ctx, threw: bool)
      modifies this, breaker
      ensures Result(View(), after, threw) == RunStatement(P(), id, at, connects, runs, ctx, old(View()))
    {
      var granted := TakeExecutor(at, ctx);
      if !granted {
        return Free, true;
      }
      after, threw := ExecuteOn(id, at, connects, runs, ctx);
    }

    /** An executor taken first, a statement on it once `first` has made its arguments. */
    method QueryHeld(at: int, first: Body, id: int, used: int, connects: Outcome, runs: Outcome, ctx: Ctx)
      returns (after: Ctx, threw: bool)
      modifies this, breaker
      ensures Result(View(), after, threw) == RunHeld(P(), at, first, id, used, connects, runs, ctx, old(View()))
      decreases first, 1
    {
      var granted := TakeExecutor(at, ctx);
      if !granted {
        return Free, true;
      }
      after, threw := Run(first, ctx);
      if threw {
        if gated && ctx.Free? {
          wire := wire + [GivenUp];
        }
        return;
      }
      after, threw := ExecuteOn(id, used, connects, runs, after);
    }

    /** lpTx(fn) / tx(fn). */
    method Tx(link: Link, body: Body, ctx: Ctx) returns (after: Ctx, threw: bool)
      modifies this, breaker
      ensures Result(View(), after, threw) == RunTransaction(P(), link, body, ctx, old(View()))
      decreases body, 1
    {
      if ctx.Bound? {
        after, threw := Run(body, ctx);
        return;
      }
      var admitted := Enter(link.at);
      if !admitted {
        return Free, true;
      }
      if link.connects.Fails? {
        wire := wire + [ConnectFailed];
        Report(link.connects, link.at);
        return Free, true;
      }
      var c := nextConn;
      nextConn := c + 1;
      wire := wire + [Connect(c)];
      if !link.beginOk {
        wire := wire + [BeginFailed(c), Rollback(c), Release(c)];
        return Free, true;
      }
      wire := wire + [Begin(c)];
      var inside;
      inside, threw := Run(body, Bound(c, [], false));
      if threw {
        wire := wire + [Rollback(c), Release(c)];
        return Free, true;
      }
      if inside.Bound? && !inside.aborted && !link.commit.Rejected? {
        committed := committed + inside.pending;
      }
      if link.commit.Acknowledged? {
        breaker.RecordSuccess();
        wire := wire + [Commit(c, link.commit), ReportOk, Release(c)];
        return Free, false;
      }
      wire := wire + [Commit(c, link.commit), Rollback(c), Release(c)];
      return Free, true;
    }

    method Run(body: Body, ctx: Ctx) returns (after: Ctx, threw: bool)
      modifies this, breaker
      ensures Result(View(), after, threw) == RunBody(P(), body, ctx, old(View()))
      decreases body, 0
    {
      match body
      case Return => return ctx, false;
      case Do(op, next) =>
        after, threw := Perform(op, ctx);
        if !threw {
          after, threw := Run(next, after);
        }
    }

    method Perform(op: Op, ctx: Ctx) returns (after: Ctx, threw: bool)
      modifies this, breaker
      ensures Result(View(), after, threw) == RunOp(P(), op, ctx, old(View()))
      decreases op, 0
    {
      match op
      case Statement(id, at, connects, runs) => after, threw := Query(id, at, connects, runs, ctx);
      case Held(at, first, id, used, connects, runs) =>
        after, threw := QueryHeld(at, first, id, used, connects, runs, ctx);
      case Transaction(link, body) => after, threw := Tx(link, body, ctx);
      case Raise => return ctx, true;
      case Swallow(tried) =>
        after, threw := Run(tried, ctx);
        threw := false;
      case Elsewhere(e) =>
        match e {
          case Ask(now) => var _ := breaker.AllowRequest(now);
          case Success => breaker.RecordSuccess();
          case Failure(now) => breaker.RecordFailure(now);
        }
        return ctx, false;
    }
  }

  /***** What happens inside a transaction *****/

  predicate OnConnection(c: nat, log: seq<Wire>) {
    forall e :: e in log ==> e.ReportOk? || e.ReportFailure? || (e.Query? && e.conn == c)
  }

  predicate AllOk(log: seq<Wire>) {
    forall e :: e in log && e.Query? ==> e.answer.Succeeds?
  }

  predicate NoReports(log: seq<Wire>) {
    forall e :: e in log ==> !e.ReportOk? && !e.ReportFailure?
  }

  /** The statements of a log that succeeded, in order. */
  function OkIds(log: seq<Wire>): seq<int> {
    if log == [] then []
    else (if log[0].Query? && log[0].answer.Succeeds? then [log[0].id] else []) + OkIds(log[1..])
  }

  lemma {:induction false} OkIdsConcat(a: seq<Wire>, b: seq<Wire>)
    ensures OkIds(a + b) == OkIds(a) + OkIds(b)
  {
    if a == [] {
      assert a + b == b;
    } else {
      OkIdsConcat(a[1..], b);
      assert (a + b)[1..] == a[1..] + b;
      var first := if a[0].Query? && a[0].answer.Succeeds? then [a[0].id] else [];
      Associative(first, OkIds(a[1..]), OkIds(b));
    }
  }

  lemma Associative<T>(a: seq<T>, b: seq<T>, c: seq<T>)
    ensures (a + b) + c == a + (b + c)
  {
  }

  /** No error is caught inside the body. */
  predicate Propagates(b: Body) {
    b.Do? ==> OpPropagates(b.op) && Propagates(b.next)
  }

  predicate OpPropagates(op: Op) {
    !op.Swallow? && (op.Transaction? ==> Propagates(op.body)) && (op.Held? ==> Propagates(op.first))
  }

  /** No other request touches the breaker while the body runs. */
  predicate Alone(b: Body) {
    b.Do? ==> OpAlone(b.op) && Alone(b.next)
  }

  predicate OpAlone(op: Op) {
    !op.Elsewhere? && (op.Transaction? ==> Alone(op.body)) && (op.Swallow? ==> Alone(op.tried))
    && (op.Held? ==> Alone(op.first))
  }

  /** Every statement of the body in program order, nested transactions flattened. */
  function Effects(b: Body): seq<int> {
    if b.Return? then [] else OpEffects(b.op) + Effects(b.next)
  }

  function OpEffects(op: Op): seq<int> {
    match op
    case Statement(id, _, _, _) => [id]
    case Held(_, first, id, _, _, _) => Effects(first) + [id]
    case Transaction(_, inner) => Effects(inner)
    case _ => []
  }

  /** What a stretch of execution on connection `ctx.conn` did, read off the log it produced. */
  ghost predicate RanInside(w: World, ctx: Ctx, r: Result, inner: seq<Wire>)
    requires ctx.Bound?
  {
    && r.ctx.Bound? && r.ctx.conn == ctx.conn
    && r.world.committed == w.committed && r.world.nextConn == w.nextConn
    && r.world.wire == w.wire + inner && OnConnection(ctx.conn, inner)
    && r.ctx.pending == ctx.pending + OkIds(inner)
    && r.ctx.aborted == (ctx.aborted || !AllOk(inner))
  }

  lemma RanInsideTwice(w: World, ctx: Ctx, r1: Result, r2: Result, a: seq<Wire>, b: seq<Wire>)
    requires ctx.Bound? && RanInside(w, ctx, r1, a) && RanInside(r1.world, r1.ctx, r2, b)
    ensures RanInside(w, ctx, r2, a + b)
  {
    OkIdsConcat(a, b);
    Associative(w.wire, a, b);
    Associative(ctx.pending, OkIds(a), OkIds(b));
    assert forall e :: e in a + b <==> e in a || e in b;
  }

  /** The breaker seen from inside: silence leaves it alone, a report takes it out of half-open. */
  ghost predicate BreakerInside(w: World, r: Result, inner: seq<Wire>) {
    && (NoReports(inner) ==> r.world.breaker == w.breaker)
    && (!NoReports(inner) ==> r.world.breaker.state != HalfOpen)
  }

  lemma {:induction false} InsideBody(p: Params, b: Body, ctx: Ctx, w: World) returns (inner: seq<Wire>)
    requires ctx.Bound?
    ensures RanInside(w, ctx, RunBody(p, b, ctx, w), inner)
    ensures Propagates(b) && !RunBody(p, b, ctx, w).threw ==> AllOk(inner) && OkIds(inner) == Effects(b)
    ensures Alone(b) ==> BreakerInside(w, RunBody(p, b, ctx, w), inner)
    decreases b, 0
  {
    match b
    case Return => inner := [];
    case Do(op, next) =>
      inner := InsideOp(p, op, ctx, w);
      var r := RunOp(p, op, ctx, w);
      if !r.threw {
        var more := InsideBody(p, next, r.ctx, r.world);
        OneAfterTheOther(w, ctx, r, RunBody(p, next, r.ctx, r.world), inner, more);
        inner := inner + more;
      }
  }

  lemma OneAfterTheOther(w: World, ctx: Ctx, r1: Result, r2: Result, a: seq<Wire>, b: seq<Wire>)
    requires ctx.Bound? && RanInside(w, ctx, r1, a) && RanInside(r1.world, r1.ctx, r2, b)
    ensures RanInside(w, ctx, r2, a + b)
    ensures OkIds(a + b) == OkIds(a) + OkIds(b) && (AllOk(a) && AllOk(b) ==> AllOk(a + b))
    ensures BreakerInside(w, r1, a) && BreakerInside(r1.world, r2, b) ==> BreakerInside(w, r2, a + b)
  {
    RanInsideTwice(w, ctx, r1, r2, a, b);
    OkIdsConcat(a, b);
    assert forall e :: e in a + b <==> e in a || e in b;
  }

  lemma InsideExecute(p: Params, id: int, at: int, connects: Outcome, runs: Outcome, ctx: Ctx, w: World)
    returns (inner: seq<Wire>)
    requires ctx.Bound?
    ensures var r := Execute(p, id, at, connects, runs, ctx, w);
      RanInside(w, ctx, r, inner) && BreakerInside(w, r, inner) && (!r.threw ==> AllOk(inner) && OkIds(inner) == [id])
  {
    var o := Effective(runs, ctx.aborted);
    var query := [Query(ctx.conn, id, o)];
    var report := ReportOf(o);
    inner := query + report;
    OkIdsConcat(query, report);
    assert Execute(p, id, at, connects, runs, ctx, w).world.wire == w.wire + inner;
    assert inner[0] in inner && inner[|inner| - 1] in inner;
    assert o.Succeeds? ==> AllOk(inner) && OkIds(inner) == [id];
  }

  lemma {:induction false} InsideHeld(p: Params, at: int, first: Body, id: int, used: int, connects: Outcome,
                                      runs: Outcome, ctx: Ctx, w: World) returns (inner: seq<Wire>)
    requires ctx.Bound?
    ensures var r := RunHeld(p, at, first, id, used, connects, runs, ctx, w);
      && RanInside(w, ctx, r, inner)
      && (Propagates(first) && !r.threw ==> AllOk(inner) && OkIds(inner) == Effects(first) + [id])
      && (Alone(first) ==> BreakerInside(w, r, inner))
    decreases first, 1
  {
    hide Execute, RanInside, OkIds, AllOk, RunBody;
    inner := InsideBody(p, first, ctx, w);
    var r := RunBody(p, first, ctx, w);
    if !r.threw {
      BoundStays(w, ctx, r, inner);
      var more := InsideExecute(p, id, used, connects, runs, r.ctx, r.world);
      OneAfterTheOther(w, ctx, r, Execute(p, id, used, connects, runs, r.ctx, r.world), inner, more);
      inner := inner + more;
    }
  }

  lemma BoundStays(w: World, ctx: Ctx, r: Result, inner: seq<Wire>)
    requires ctx.Bound? && RanInside(w, ctx, r, inner)
    ensures r.ctx.Bound?
  {
  }

  lemma {:induction false} InsideOp(p: Params, op: Op, ctx: Ctx, w: World) returns (inner: seq<Wire>)
    requires ctx.Bound?
    ensures RanInside(w, ctx, RunOp(p, op, ctx, w), inner)
    ensures OpPropagates(op) && !RunOp(p, op, ctx, w).threw ==> AllOk(inner) && OkIds(inner) == OpEffects(op)
    ensures OpAlone(op) ==> BreakerInside(w, RunOp(p, op, ctx, w), inner)
    decreases op, 0
  {
    match op
    case Statement(id, at, connects, runs) => inner := InsideExecute(p, id, at, connects, runs, ctx, w);
    case Held(at, first, id, used, connects, runs) =>
      inner := InsideHeld(p, at, first, id, used, connects, runs, ctx, w);
    case Transaction(link, body) =>
      inner := InsideBody(p, body, ctx, w);
      assert RunOp(p, op, ctx, w) == RunBody(p, body, ctx, w);
      assert OpPropagates(op) ==> Propagates(body);
    case Raise => inner := [];
    case Swallow(tried) => inner := InsideBody(p, tried, ctx, w);
    case Elsewhere(_) => inner := [];
  }

  /***** The outermost transaction *****/

  ghost predicate Reached(p: Params, link: Link, w: World) {
    Admitted(p, w, link.at) && link.connects.Succeeds? && link.beginOk
  }

  /** The world in which the body of an outermost transaction starts, and the result of running it. */
  ghost function Entered(p: Params, link: Link, w: World): World {
    var c := w.nextConn;
    Logged(Logged(Gated(p, w, link.at), [Connect(c)]).(nextConn := c + 1), [Begin(c)])
  }

  ghost function Inside(p: Params, link: Link, body: Body, w: World): Result {
    RunBody(p, body, Bound(w.nextConn, [], false), Entered(p, link, w))
  }

  /** The log entries written while the body ran. */
  ghost function InnerLog(p: Params, link: Link, body: Body, w: World): seq<Wire> {
    var after, before := Inside(p, link, body, w).world.wire, Entered(p, link, w).wire;
    if |before| <= |after| then after[|before|..] else []
  }

  lemma InnerLogFacts(p: Params, link: Link, body: Body, w: World)
    ensures var inner := InnerLog(p, link, body, w);
            && RanInside(Entered(p, link, w), Bound(w.nextConn, [], false), Inside(p, link, body, w), inner)
            && (Propagates(body) && !Inside(p, link, body, w).threw ==> AllOk(inner) && OkIds(inner) == Effects(body))
            && (Alone(body) ==> BreakerInside(Entered(p, link, w), Inside(p, link, body, w), inner))
  {
    var inner := InsideBody(p, body, Bound(w.nextConn, [], false), Entered(p, link, w));
    assert InnerLog(p, link, body, w) == inner;
  }

  function GateEntry(p: Params, admitted: bool): seq<Wire> {
    if p.gated then [Gate(admitted)] else []
  }

  /** How an outermost transaction ends on the wire. */
  ghost function EndingLog(p: Params, link: Link, body: Body, w: World): seq<Wire> {
    var c := w.nextConn;
    if Inside(p, link, body, w).threw then [Rollback(c)]
    else if link.commit.Acknowledged? then [Commit(c, link.commit), ReportOk]
    else [Commit(c, link.commit), Rollback(c)]
  }

  ghost function TransactionLog(p: Params, link: Link, body: Body, w: World): seq<Wire> {
    var c := w.nextConn;
    GateEntry(p, true) + [Connect(c), Begin(c)] + InnerLog(p, link, body, w)
    + EndingLog(p, link, body, w) + [Release(c)]
  }

  /** Only the outermost transaction talks BEGIN/COMMIT/ROLLBACK: its log is one connection checked out,
      one BEGIN, the statements of the whole tree on that connection, one ending and one release. */
  lemma OutermostTransaction(p: Params, link: Link, body: Body, w: World)
    requires Reached(p, link, w)
    ensures var r := RunTransaction(p, link, body, Free, w);
            && r.ctx == Free && r.world.nextConn == w.nextConn + 1
            && r.world.wire == w.wire + TransactionLog(p, link, body, w)
            && OnConnection(w.nextConn, InnerLog(p, link, body, w))
            && (!r.threw <==> EndingLog(p, link, body, w) == [Commit(w.nextConn, Acknowledged), ReportOk])
  {
    InnerLogFacts(p, link, body, w);
    var c, gate, inner := w.nextConn, GateEntry(p, true), InnerLog(p, link, body, w);
    var start, r := Entered(p, link, w), Inside(p, link, body, w);
    assert start.wire == w.wire + (gate + [Connect(c), Begin(c)]);
    var ending := EndingLog(p, link, body, w);
    assert RunTransaction(p, link, body, Free, w).world.wire == r.world.wire + (ending + [Release(c)]);
    FourParts(w.wire, gate + [Connect(c), Begin(c)], inner, ending, [Release(c)]);
  }

  lemma FourParts(a: seq<Wire>, b: seq<Wire>, c: seq<Wire>, d: seq<Wire>, e: seq<Wire>)
    ensures a + b + c + (d + e) == a + (b + c + d + e)
  {
  }

  ghost predicate AckWasLost(p: Params, link: Link, body: Body, w: World) {
    Reached(p, link, w) && !Inside(p, link, body, w).threw && link.commit.AckLost?
  }

  /** A normal return commits exactly the statements issued if all of them succeeded, and nothing at all
      if one of them failed and the failure was swallowed. A throw leaves the database unchanged unless
      the acknowledgement of a COMMIT was lost. */
  lemma CommitsAllOrNothing(p: Params, link: Link, body: Body, w: World)
    ensures var r := RunTransaction(p, link, body, Free, w);
            var inner := InnerLog(p, link, body, w);
            var all := w.committed + (if AllOk(inner) then OkIds(inner) else []);
            && (!r.threw ==> Reached(p, link, w) && r.world.committed == all)
            && (r.threw ==> r.world.committed == if AckWasLost(p, link, body, w) then all else w.committed)
  {
    if Reached(p, link, w) {
      var inside, inner := Inside(p, link, body, w), InnerLog(p, link, body, w);
      InnerLogFacts(p, link, body, w);
      assert inside.world.committed == w.committed && inside.ctx.aborted == !AllOk(inner);
      assert inside.ctx.pending == OkIds(inner);
      EndingCommits(p, link, body, w);
    } else {
      NeverEntered(p, link, body, w);
    }
  }

  lemma NeverEntered(p: Params, link: Link, body: Body, w: World)
    requires !Reached(p, link, w)
    ensures var r := RunTransaction(p, link, body, Free, w);
            r.threw && r.world.committed == w.committed
  {
  }

  lemma EndingCommits(p: Params, link: Link, body: Body, w: World)
    requires Reached(p, link, w) && Inside(p, link, body, w).ctx.Bound?
    ensures var r, inside := RunTransaction(p, link, body, Free, w), Inside(p, link, body, w);
            && r.threw == (inside.threw || !link.commit.Acknowledged?)
            && r.world.committed == (if inside.threw || inside.ctx.aborted || link.commit.Rejected?
                                     then inside.world.committed else inside.world.committed + inside.ctx.pending)
  {
  }

  /** Where every error propagates, a normal return means every statement of the tree is committed, in
      order; a throw means none is, unless the acknowledgement of the COMMIT was lost. */
  lemma AllOrNothing(p: Params, link: Link, body: Body, w: World)
    requires Propagates(body)
    ensures var r := RunTransaction(p, link, body, Free, w);
            && (!r.threw ==> r.world.committed == w.committed + Effects(body))
            && (r.threw ==> r.world.committed == w.committed
                            || (link.commit.AckLost? && r.world.committed == w.committed + Effects(body)))
  {
    InnerLogFacts(p, link, body, w);
    CommitsAllOrNothing(p, link, body, w);
  }

  /** A body that swallows a failed statement returns normally with none of its work committed. */
  lemma SwallowedFailureLosesTheTransaction(p: Params, w: World, at: int)
    requires Admitted(p, w, at)
    ensures var link := Link(at, Succeeds, true, Acknowledged);
            var body := Do(Statement(1, at, Succeeds, Succeeds),
                        Do(Swallow(Do(Statement(2, at, Succeeds, Fails(false, false)), Return)), Return));
            var r := RunTransaction(p, link, body, Free, w);
            !r.threw && r.world.committed == w.committed
  {
    var link := Link(at, Succeeds, true, Acknowledged);
    var tail := Do(Swallow(Do(Statement(2, at, Succeeds, Fails(false, false)), Return)), Return);
    var body := Do(Statement(1, at, Succeeds, Succeeds), tail);
    InnerLogFacts(p, link, body, w);
    CommitsAllOrNothing(p, link, body, w);
    var w0 := Entered(p, link, w);
    var r1 := RunOp(p, body.op, Bound(w.nextConn, [], false), w0);
    var failing := tail.op.tried;
    assert RunBody(p, failing, r1.ctx, r1.world) == RunOp(p, failing.op, r1.ctx, r1.world);
    var r2 := RunOp(p, tail.op, r1.ctx, r1.world);
    assert RunBody(p, tail, r1.ctx, r1.world) == RunBody(p, Return, r2.ctx, r2.world);
    assert Inside(p, link, body, w) == r2;
  }

  /** While open and cooling down, every fresh statement, executor and transaction is refused: it throws,
      the database and the breaker stay as they were, and no connection is touched. */
  lemma RefusedWhileCoolingDown(p: Params, op: Op, w: World, at: int)
    requires p.gated && w.breaker.state == Open && at - w.breaker.openedAt < p.config.probeIntervalMs
    requires (op.Statement? && op.at == at) || (op.Held? && op.at == at) || (op.Transaction? && op.link.at == at)
    ensures RunOp(p, op, Free, w) == Result(Logged(w, [Gate(false)]), Free, true)
  {
  }

  /** Everything the program does, and everybody else asking meanwhile, falls before `until`; nobody reports
      a success. */
  predicate Within(b: Body, until: int) {
    b.Do? ==> OpWithin(b.op, until) && Within(b.next, until)
  }

  predicate OpWithin(op: Op, until: int) {
    match op
    case Statement(_, at, _, _) => at < until
    case Held(at, _, _, _, _, _) => at < until
    case Transaction(link, _) => link.at < until
    case Raise => true
    case Swallow(tried) => Within(tried, until)
    case Elsewhere(e) => !e.Success? && (e.Ask? ==> e.now < until)
  }

  predicate OnlyRefusals(log: seq<Wire>) {
    forall e :: e in log ==> e == Gate(false)
  }

  /** While the breaker cools down, no program gets anywhere, however it nests transactions and catches
      refusals: no connection is touched, the database and the breaker are as before, and it logs nothing but
      refusals. */
  lemma {:induction false} NothingWhileCoolingDown(p: Params, b: Body, w: World) returns (log: seq<Wire>)
    requires p.gated && w.breaker.state == Open && Within(b, w.breaker.openedAt + p.config.probeIntervalMs)
    ensures var r := RunBody(p, b, Free, w);
      r.ctx == Free && r.world == Logged(w, log) && OnlyRefusals(log)
    decreases b, 0
  {
    match b
    case Return => log := [];
    case Do(op, next) =>
      log := RefusedOp(p, op, w);
      var r := RunOp(p, op, Free, w);
      if !r.threw {
        var more := NothingWhileCoolingDown(p, next, r.world);
        Associative(w.wire, log, more);
        log := log + more;
      }
  }

  lemma {:induction false} RefusedOp(p: Params, op: Op, w: World) returns (log: seq<Wire>)
    requires p.gated && w.breaker.state == Open && OpWithin(op, w.breaker.openedAt + p.config.probeIntervalMs)
    ensures var r := RunOp(p, op, Free, w);
      r.ctx == Free && r.world == Logged(w, log) && OnlyRefusals(log)
    decreases op, 0
  {
    match op
    case Statement(id, at, connects, runs) => log := [Gate(false)];
    case Held(_, _, _, _, _, _) => log := [Gate(false)];
    case Transaction(link, body) => log := [Gate(false)];
    case Raise => log := [];
    case Swallow(tried) => log := NothingWhileCoolingDown(p, tried, w);
    case Elsewhere(e) => log := [];
  }

  /** A transaction admitted as the half-open probe leaves the breaker half-open exactly when it logged no
      report: its connect, its statements and its COMMIT produced neither a success nor a counted
      failure. From there CircuitBreaker.HalfOpenNeedsAReport applies. */
  lemma SilentProbe(p: Params, link: Link, body: Body, w: World)
    requires p.gated && Alone(body)
    requires w.breaker.state == Open && Admitted(p, w, link.at)
    ensures var r := RunTransaction(p, link, body, Free, w);
            && w.wire <= r.world.wire
            && (r.world.breaker.state == HalfOpen <==> NoReports(r.world.wire[|w.wire|..]))
            && (!r.threw ==> r.world.breaker.state == Closed)
  {
    if Reached(p, link, w) {
      SilentProbeReached(p, link, body, w);
    } else {
      ProbeWithoutBody(p, link, body, w);
    }
  }

  /** The probe that gets no connection, or no BEGIN: only a counted connection failure is reported. */
  lemma ProbeWithoutBody(p: Params, link: Link, body: Body, w: World)
    requires p.gated && w.breaker.state == Open && Admitted(p, w, link.at) && !Reached(p, link, w)
    ensures var r := RunTransaction(p, link, body, Free, w);
            && r.threw && w.wire <= r.world.wire
            && (r.world.breaker.state == HalfOpen <==> NoReports(r.world.wire[|w.wire|..]))
  {
    if link.connects.Succeeds? {
      var c := w.nextConn;
      assert RunTransaction(p, link, body, Free, w).world.wire[|w.wire|..]
          == [Gate(true), Connect(c), BeginFailed(c), Rollback(c), Release(c)];
    } else {
      var log := [Gate(true), ConnectFailed] + ReportOf(link.connects);
      assert RunTransaction(p, link, body, Free, w).world.wire[|w.wire|..] == log;
      assert link.connects.counted ==> log[2] == ReportFailure && log[2] in log;
    }
  }

  lemma SilentProbeReached(p: Params, link: Link, body: Body, w: World)
    requires p.gated && Alone(body)
    requires w.breaker.state == Open && Reached(p, link, w)
    ensures var r := RunTransaction(p, link, body, Free, w);
            && w.wire <= r.world.wire
            && (r.world.breaker.state == HalfOpen <==> NoReports(r.world.wire[|w.wire|..]))
            && (!r.threw ==> r.world.breaker.state == Closed)
  {
    hide RunBody, TransactionLog, InnerLog;
    OutermostTransaction(p, link, body, w);
    InnerLogFacts(p, link, body, w);
    var r := RunTransaction(p, link, body, Free, w);
    assert r.world.wire[|w.wire|..] == TransactionLog(p, link, body, w);
    TransactionLogReports(p, link, body, w);
  }

  lemma TransactionLogReports(p: Params, link: Link, body: Body, w: World)
    ensures NoReports(TransactionLog(p, link, body, w))
        <==> && NoReports(InnerLog(p, link, body, w))
             && EndingLog(p, link, body, w) != [Commit(w.nextConn, Acknowledged), ReportOk]
  {
    var c, inner, ending := w.nextConn, InnerLog(p, link, body, w), EndingLog(p, link, body, w);
    NoReportsIn(GateEntry(p, true) + [Connect(c), Begin(c)], inner, ending, [Release(c)]);
    assert |ending| == 2 ==> ending[1] in ending;
  }

  lemma NoReportsIn(a: seq<Wire>, b: seq<Wire>, c: seq<Wire>, d: seq<Wire>)
    ensures NoReports(a + b + c + d) <==> NoReports(a) && NoReports(b) && NoReports(c) && NoReports(d)
  {
    assert forall e :: e in a + b + c + d <==> e in a || e in b || e in c || e in d;
  }

  /***** An executor taken before its argument is looked up *****/

  ghost function ExecuteLog(c: nat, id: int, connects: Outcome, runs: Outcome): seq<Wire> {
    if connects.Fails? then [ConnectFailed] + ReportOf(connects)
    else [Connect(c), Query(c, id, runs)] + ReportOf(runs) + [Release(c)]
  }

  lemma ExecuteWrites(p: Params, id: int, at: int, connects: Outcome, runs: Outcome, w: World)
    ensures var r := Execute(p, id, at, connects, runs, Free, w);
      r.ctx == Free && r.world.wire == w.wire + ExecuteLog(w.nextConn, id, connects, runs)
  {
  }

  /** The argument of a statement, looked up by a call of its own whose errors are ignored. */
  function LookedUp(lookup: Op): Body {
    Do(Swallow(Do(lookup, Return)), Return)
  }

  lemma LookupRefused(p: Params, w: World, lookup: Op)
    requires p.gated && lookup.Statement? && !Admitted(p, w, lookup.at)
    ensures RunBody(p, LookedUp(lookup), Free, w) == Result(Logged(w, [Gate(false)]), Free, false)
  {
    var first := LookedUp(lookup);
    assert RunOp(p, lookup, Free, w) == Result(Logged(w, [Gate(false)]), Free, true);
    assert RunBody(p, first.op.tried, Free, w) == RunOp(p, lookup, Free, w);
  }

  /** A statement whose executor is taken before its argument is looked up: the lookup gets through the gate exactly if
      the breaker was closed. Otherwise the executor is the probe, the lookup is refused, and the statement goes ahead
      with what it had. */
  lemma LookupGrantedIff(p: Params, w: World, at: int, lookup: Op, id: int, used: int, connects: Outcome, runs: Outcome)
    requires p.gated && Admitted(p, w, at) && lookup.Statement?
    ensures Admitted(p, Gated(p, w, at), lookup.at) <==> w.breaker.state == Closed
    ensures w.breaker.state != Closed ==>
              RunOp(p, Held(at, LookedUp(lookup), id, used, connects, runs), Free, w).world.wire
              == w.wire + [Gate(true), Gate(false)] + ExecuteLog(w.nextConn, id, connects, runs)
  {
    if w.breaker.state != Closed {
      hide RunBody, Execute, ExecuteLog, Admitted;
      var w0 := Gated(p, w, at);
      LookupRefused(p, w0, lookup);
      Associative(w.wire, [Gate(true)], [Gate(false)]);
      ExecuteWrites(p, id, used, connects, runs, Logged(w0, [Gate(false)]));
      assert [Gate(true)] + [Gate(false)] == [Gate(true), Gate(false)];
    }
  }

  /***** Errors of the program itself *****/

  /** The body raises an error of its own in the end, if nothing stops it before. */
  predicate EndsInError(b: Body) {
    b.Do? && (b.op.Raise? || EndsInError(b.next))
  }

  lemma {:induction false} ErrorGetsOut(p: Params, b: Body, ctx: Ctx, w: World)
    requires EndsInError(b)
    ensures RunBody(p, b, ctx, w).threw
  {
    var r := RunOp(p, b.op, ctx, w);
    if !r.threw {
      ErrorGetsOut(p, b.next, r.ctx, r.world);
    }
  }

  /** A transaction whose body raises an error passes it on and leaves nothing behind, whatever it did before. */
  lemma ErrorUndoesEverything(p: Params, link: Link, body: Body, w: World)
    requires EndsInError(body)
    ensures var r := RunTransaction(p, link, body, Free, w); r.threw && r.world.committed == w.committed
  {
    CommitsAllOrNothing(p, link, body, w);
    if Reached(p, link, w) {
      ErrorGetsOut(p, body, Bound(w.nextConn, [], false), Entered(p, link, w));
    }
  }

  /** What others do to the breaker at an await is all they do, and a statement refused because an earlier one failed
      says nothing about the database. */
  lemma OthersAndRefusals(p: Params, e: Event, next: Body, id: int, at: int, connects: Outcome, ctx: Ctx, w: World)
    ensures RunBody(p, Do(Elsewhere(e), next), ctx, w)
         == RunBody(p, next, ctx, w.(breaker := Run(p.config, w.breaker, [e])))
    ensures ctx.Bound? && ctx.aborted ==>
              var r := RunOp(p, Statement(id, at, connects, Succeeds), ctx, w);
              r.threw && r.ctx == ctx && r.world.breaker == w.breaker
  {
    assert Run(p.config, w.breaker, [e]) == Step(p.config, w.breaker, e) by { assert [e][1..] == []; }
  }

  /***** What is durable *****/

  /** A statement outside a transaction: it returns exactly if it was let through, got a connection and succeeded, and
      it is durable exactly if it got that far and the server did it, heard or not. */
  lemma FreeStatementCommits(p: Params, id: int, at: int, connects: Outcome, runs: Outcome, w: World)
    ensures var r, reached := RunOp(p, Statement(id, at, connects, runs), Free, w),
                              Admitted(p, w, at) && connects.Succeeds?;
      && (r.threw <==> !(reached && runs.Succeeds?))
      && r.world.committed == (if reached && (runs.Succeeds? || runs.done) then w.committed + [id] else w.committed)
      && r.world.nextConn == w.nextConn + (if reached then 1 else 0)
  {
  }

  /** The same for one whose executor is taken ahead: after what `first` made durable. */
  lemma HeldStatementCommits(p: Params, at: int, first: Body, id: int, used: int, connects: Outcome, runs: Outcome,
                             w: World)
    ensures var r, before := RunOp(p, Held(at, first, id, used, connects, runs), Free, w),
                             RunBody(p, first, Free, Gated(p, w, at));
      if !Admitted(p, w, at) then r.threw && r.world.committed == w.committed
      else if before.threw then r.threw && r.world.committed == before.world.committed
      else
        && (r.threw <==> !(connects.Succeeds? && runs.Succeeds?))
        && r.world.committed == (if connects.Succeeds? && (runs.Succeeds? || runs.done)
                                 then before.world.committed + [id] else before.world.committed)
  {
    var before := RunBody(p, first, Free, Gated(p, w, at));
    if Admitted(p, w, at) {
      FreeStays(p, first, Gated(p, w, at));
    }
  }

  /** What the log says is durable: a statement outside a transaction once the server did it; the statements of a
      transaction, in order, at a COMMIT that was not rejected, if none of them failed. */
  datatype Durable = Durable(ids: seq<int>, open: bool, pending: seq<int>, failed: bool)

  function Settled(ids: seq<int>): Durable {
    Durable(ids, false, [], false)
  }

  function Read(d: Durable, e: Wire): Durable {
    match e
    case Begin(_) => Durable(d.ids, true, [], false)
    case Query(_, id, answer) =>
      if !d.open then (if answer.Succeeds? || answer.done then Settled(d.ids + [id]) else d)
      else if answer.Succeeds? then d.(pending := d.pending + [id])
      else d.(failed := true)
    case Commit(_, outcome) => Settled(if d.failed || outcome.Rejected? then d.ids else d.ids + d.pending)
    case Rollback(_) => Settled(d.ids)
    case _ => d
  }

  function ReadAll(d: Durable, log: seq<Wire>): Durable
    decreases |log|
  {
    if log == [] then d else ReadAll(Read(d, log[0]), log[1..])
  }

  lemma {:induction false} ReadConcat(d: Durable, a: seq<Wire>, b: seq<Wire>)
    ensures ReadAll(d, a + b) == ReadAll(ReadAll(d, a), b)
    decreases |a|
  {
    hide Read;
    if a == [] {
      assert a + b == b;
    } else {
      ReadConcat(Read(d, a[0]), a[1..], b);
      assert (a + b)[1..] == a[1..] + b;
    }
  }

  lemma ReadOne(d: Durable, e: Wire)
    ensures ReadAll(d, [e]) == Read(d, e)
  {
    hide Read;
    assert [e][1..] == [];
  }

  lemma ReadTwo(d: Durable, a: Wire, b: Wire)
    ensures ReadAll(d, [a, b]) == Read(Read(d, a), b)
  {
    hide Read;
    assert [a, b][1..] == [b];
    ReadOne(Read(d, a), b);
  }

  lemma {:induction false} ReadNothing(d: Durable, log: seq<Wire>)
    requires forall e :: e in log ==> !e.Begin? && !e.Query? && !e.Commit? && !e.Rollback?
    ensures ReadAll(d, log) == d
    decreases |log|
  {
    if log != [] {
      assert log[0] in log;
      ReadNothing(d, log[1..]);
    }
  }

  lemma {:induction false} ReadInside(c: nat, d: Durable, inner: seq<Wire>)
    requires d.open && OnConnection(c, inner)
    ensures ReadAll(d, inner) == d.(pending := d.pending + OkIds(inner), failed := d.failed || !AllOk(inner))
    decreases |inner|
  {
    if inner != [] {
      var e, rest := inner[0], inner[1..];
      assert e in inner;
      assert forall x :: x in inner <==> x == e || x in rest;
      ReadInside(c, Read(d, e), rest);
      if e.Query? && e.answer.Succeeds? {
        Associative(d.pending, [e.id], OkIds(rest));
      }
    }
  }

  lemma ReadExecute(c: nat, id: int, connects: Outcome, runs: Outcome, ids: seq<int>)
    ensures ReadAll(Settled(ids), ExecuteLog(c, id, connects, runs))
         == Settled(if connects.Succeeds? && (runs.Succeeds? || runs.done) then ids + [id] else ids)
  {
    if connects.Fails? {
      ReadNothing(Settled(ids), ExecuteLog(c, id, connects, runs));
    } else {
      var after := Read(Settled(ids), Query(c, id, runs));
      ReadTwo(Settled(ids), Connect(c), Query(c, id, runs));
      ReadConcat(Settled(ids), [Connect(c), Query(c, id, runs)], ReportOf(runs) + [Release(c)]);
      ReadNothing(after, ReportOf(runs) + [Release(c)]);
      Associative([Connect(c), Query(c, id, runs)], ReportOf(runs), [Release(c)]);
    }
  }

  lemma ReadEnding(d: Durable, ending: seq<Wire>)
    ensures |ending| == 1 ==> ReadAll(d, ending) == Read(d, ending[0])
    ensures |ending| == 2 ==> ReadAll(d, ending) == Read(Read(d, ending[0]), ending[1])
  {
    if |ending| == 1 {
      assert ending == [ending[0]];
      ReadOne(d, ending[0]);
    } else if |ending| == 2 {
      assert ending == [ending[0], ending[1]];
      ReadTwo(d, ending[0], ending[1]);
    }
  }

  /** From the gate to the last statement of a transaction. */
  lemma ReadUpToEnding(p: Params, c: nat, ids: seq<int>, inner: seq<Wire>)
    requires OnConnection(c, inner)
    ensures ReadAll(Settled(ids), GateEntry(p, true) + [Connect(c), Begin(c)] + inner)
         == Durable(ids, true, OkIds(inner), !AllOk(inner))
  {
    hide ReadAll, OkIds, AllOk, OnConnection;
    var start, begun := Settled(ids), Durable(ids, true, [], false);
    ReadNothing(start, GateEntry(p, true));
    ReadConcat(start, GateEntry(p, true), [Connect(c), Begin(c)]);
    ReadTwo(start, Connect(c), Begin(c));
    ReadConcat(start, GateEntry(p, true) + [Connect(c), Begin(c)], inner);
    ReadInside(c, begun, inner);
    assert [] + OkIds(inner) == OkIds(inner);
  }

  /** What the ending makes of it. */
  lemma EndingReads(p: Params, link: Link, body: Body, w: World)
    requires Reached(p, link, w)
    ensures var inner := InnerLog(p, link, body, w);
      var ran := Durable(w.committed, true, OkIds(inner), !AllOk(inner));
      ReadAll(ran, EndingLog(p, link, body, w) + [Release(w.nextConn)])
      == Settled(RunTransaction(p, link, body, Free, w).world.committed)
  {
    hide RunBody, RunTransaction, ReadAll, OkIds, AllOk, InnerLog;
    var c, inner, ending := w.nextConn, InnerLog(p, link, body, w), EndingLog(p, link, body, w);
    var ran := Durable(w.committed, true, OkIds(inner), !AllOk(inner));
    CommitsAllOrNothing(p, link, body, w);
    OutermostTransaction(p, link, body, w);
    ReadEnding(ran, ending);
    ReadConcat(ran, ending, [Release(c)]);
    ReadOne(ReadAll(ran, ending), Release(c));
    assert w.committed + [] == w.committed;
  }

  lemma ReadTransaction(p: Params, link: Link, body: Body, w: World)
    requires Reached(p, link, w)
    ensures ReadAll(Settled(w.committed), TransactionLog(p, link, body, w))
         == Settled(RunTransaction(p, link, body, Free, w).world.committed)
  {
    hide RunBody, RunTransaction, ReadAll, OkIds, AllOk, InnerLog, EndingLog;
    var c, inner, ending := w.nextConn, InnerLog(p, link, body, w), EndingLog(p, link, body, w);
    var opening := GateEntry(p, true) + [Connect(c), Begin(c)] + inner;
    OutermostTransaction(p, link, body, w);
    ReadUpToEnding(p, c, w.committed, inner);
    EndingReads(p, link, body, w);
    ReadConcat(Settled(w.committed), opening, ending + [Release(c)]);
    Associative(opening, ending, [Release(c)]);
  }

  lemma {:induction false} FreeStays(p: Params, b: Body, w: World)
    ensures RunBody(p, b, Free, w).ctx == Free
    decreases b, 0
  {
    var _ := DurableIsInTheLog(p, b, w);
  }

  /** Whatever a program does and whatever becomes of its steps: the database holds, in order, what it held before and
      what the log of the program says is durable. */
  lemma {:induction false} DurableIsInTheLog(p: Params, b: Body, w: World) returns (log: seq<Wire>)
    ensures var r := RunBody(p, b, Free, w);
      r.ctx == Free && r.world.wire == w.wire + log && ReadAll(Settled(w.committed), log) == Settled(r.world.committed)
    decreases b, 0
  {
    match b
    case Return => log := [];
    case Do(op, next) =>
      log := DurableOfOp(p, op, w);
      var r := RunOp(p, op, Free, w);
      if !r.threw {
        var more := DurableIsInTheLog(p, next, r.world);
        ReadConcat(Settled(w.committed), log, more);
        Associative(w.wire, log, more);
        log := log + more;
      }
  }

  lemma {:induction false} DurableOfOp(p: Params, op: Op, w: World) returns (log: seq<Wire>)
    ensures var r := RunOp(p, op, Free, w);
      r.ctx == Free && r.world.wire == w.wire + log && ReadAll(Settled(w.committed), log) == Settled(r.world.committed)
    decreases op, 0
  {
    hide ReadAll;
    match op
    case Raise => log := []; ReadNothing(Settled(w.committed), []);
    case Elsewhere(_) => log := []; ReadNothing(Settled(w.committed), []);
    case Swallow(tried) => log := DurableIsInTheLog(p, tried, w);
    case Statement(id, at, connects, runs) => log := DurableOfStatement(p, id, at, connects, runs, w);
    case Held(at, first, id, used, connects, runs) =>
      log := DurableOfHeld(p, at, first, id, used, connects, runs, w);
    case Transaction(link, body) => log := DurableOfTransaction(p, link, body, w);
  }

  /** A statement on an executor from the pool, and what its log says. */
  lemma DurableOfExecute(p: Params, id: int, at: int, connects: Outcome, runs: Outcome, w: World)
    ensures var r, work := Execute(p, id, at, connects, runs, Free, w), ExecuteLog(w.nextConn, id, connects, runs);
      && r.ctx == Free && r.world.wire == w.wire + work
      && ReadAll(Settled(w.committed), work) == Settled(r.world.committed)
  {
    ExecuteWrites(p, id, at, connects, runs, w);
    ReadExecute(w.nextConn, id, connects, runs, w.committed);
  }

  lemma DurableOfStatement(p: Params, id: int, at: int, connects: Outcome, runs: Outcome, w: World)
    returns (log: seq<Wire>)
    ensures var r := RunStatement(p, id, at, connects, runs, Free, w);
      r.ctx == Free && r.world.wire == w.wire + log && ReadAll(Settled(w.committed), log) == Settled(r.world.committed)
  {
    hide ReadAll, Execute, ExecuteLog;
    log := GateEntry(p, Admitted(p, w, at));
    ReadNothing(Settled(w.committed), log);
    if Admitted(p, w, at) {
      var work := ExecuteLog(w.nextConn, id, connects, runs);
      DurableOfExecute(p, id, at, connects, runs, Gated(p, w, at));
      ReadConcat(Settled(w.committed), log, work);
      Associative(w.wire, log, work);
      log := log + work;
    }
  }

  lemma {:induction false} DurableOfHeld(p: Params, at: int, first: Body, id: int, used: int, connects: Outcome,
                                         runs: Outcome, w: World) returns (log: seq<Wire>)
    ensures var r := RunHeld(p, at, first, id, used, connects, runs, Free, w);
      r.ctx == Free && r.world.wire == w.wire + log && ReadAll(Settled(w.committed), log) == Settled(r.world.committed)
    decreases first, 1
  {
    hide ReadAll, Execute, ExecuteLog, RunBody;
    var gate := GateEntry(p, Admitted(p, w, at));
    log := gate;
    ReadNothing(Settled(w.committed), gate);
    if Admitted(p, w, at) {
      var w0 := Gated(p, w, at);
      var meanwhile := DurableIsInTheLog(p, first, w0);
      var r := RunBody(p, first, Free, w0);
      ReadConcat(Settled(w.committed), gate, meanwhile);
      Associative(w.wire, gate, meanwhile);
      var work := if !r.threw then ExecuteLog(r.world.nextConn, id, connects, runs)
                  else if p.gated then [GivenUp] else [];
      if r.threw {
        ReadNothing(Settled(r.world.committed), work);
      } else {
        DurableOfExecute(p, id, used, connects, runs, r.world);
      }
      ReadConcat(Settled(w.committed), gate + meanwhile, work);
      Associative(w.wire, gate + meanwhile, work);
      log := gate + meanwhile + work;
    }
  }

  lemma DurableOfTransaction(p: Params, link: Link, body: Body, w: World) returns (log: seq<Wire>)
    ensures var r := RunTransaction(p, link, body, Free, w);
      r.ctx == Free && r.world.wire == w.wire + log && ReadAll(Settled(w.committed), log) == Settled(r.world.committed)
  {
    hide ReadAll, RunBody, TransactionLog;
    if Reached(p, link, w) {
      OutermostTransaction(p, link, body, w);
      log := TransactionLog(p, link, body, w);
      ReadTransaction(p, link, body, w);
    } else if !Admitted(p, w, link.at) {
      log := GateEntry(p, false);
      ReadNothing(Settled(w.committed), log);
    } else if link.connects.Fails? {
      log := GateEntry(p, true) + ([ConnectFailed] + ReportOf(link.connects));
      ReadNothing(Settled(w.committed), log);
    } else {
      var c, start := w.nextConn, Settled(w.committed);
      var opening := GateEntry(p, true) + [Connect(c), BeginFailed(c)];
      log := opening + [Rollback(c), Release(c)];
      ReadNothing(start, opening);
      ReadConcat(start, opening, [Rollback(c), Release(c)]);
      ReadTwo(start, Rollback(c), Release(c));
    }
  }

  /***** The wire protocol of whole programs *****/

  datatype Phase = Idle | Checked(conn: nat) | InTx(conn: nat) | Closing(conn: nat) | Broken

  /** `grants` are the executors obtained from the gate and not used yet. */
  datatype Position = At(phase: Phase, grants: nat)

  predicate MayConnect(gated: bool, pos: Position) {
    pos.phase.Idle? && (gated ==> pos.grants > 0)
  }

  /** Taking a connection, or failing to, spends a grant. */
  function Spend(gated: bool, pos: Position, phase: Phase): Position {
    if !MayConnect(gated, pos) then pos.(phase := Broken)
    else At(phase, if gated then pos.grants - 1 else pos.grants)
  }

  /** What may follow what. A statement or a BEGIN needs a connection, a connection needs a grant of its own, a gate
      is only asked between connections, and a connection is released once, after its work has ended. */
  function Advance(gated: bool, pos: Position, e: Wire): Position {
    var ph := pos.phase;
    match e
    case Gate(granted) =>
      if gated && ph.Idle? then pos.(grants := pos.grants + (if granted then 1 else 0)) else pos.(phase := Broken)
    case GivenUp => if gated then Spend(gated, pos, Idle) else pos.(phase := Broken)
    case Connect(c) => Spend(gated, pos, Checked(c))
    case ConnectFailed => Spend(gated, pos, Idle)
    case Begin(c) => pos.(phase := if ph == Checked(c) then InTx(c) else Broken)
    case BeginFailed(c) => pos.(phase := if ph == Checked(c) then Closing(c) else Broken)
    case Query(c, _, _) =>
      pos.(phase := if ph == Checked(c) then Closing(c) else if ph == InTx(c) then ph else Broken)
    case Commit(c, _) => pos.(phase := if ph == InTx(c) then Closing(c) else Broken)
    case Rollback(c) => pos.(phase := if ph == InTx(c) || ph == Closing(c) then Closing(c) else Broken)
    case Release(c) => pos.(phase := if ph == Closing(c) then Idle else Broken)
    case ReportOk => pos.(phase := if ph.InTx? || ph.Closing? then ph else Broken)
    case ReportFailure => pos.(phase := if ph.InTx? || ph.Closing? || ph.Idle? then ph else Broken)
  }

  function Scan(gated: bool, pos: Position, log: seq<Wire>): Position
    decreases |log|
  {
    if log == [] then pos else Scan(gated, Advance(gated, pos, log[0]), log[1..])
  }

  lemma {:induction false} ScanConcat(gated: bool, pos: Position, a: seq<Wire>, b: seq<Wire>)
    ensures Scan(gated, pos, a + b) == Scan(gated, Scan(gated, pos, a), b)
    decreases |a|
  {
    hide Advance;
    if a == [] {
      assert a + b == b;
    } else {
      ScanConcat(gated, Advance(gated, pos, a[0]), a[1..], b);
      assert (a + b)[1..] == a[1..] + b;
    }
  }

  lemma ScanPush(gated: bool, pos: Position, log: seq<Wire>, e: Wire)
    ensures Scan(gated, pos, log + [e]) == Advance(gated, Scan(gated, pos, log), e)
  {
    hide Advance;
    ScanConcat(gated, pos, log, [e]);
    ScanOne(gated, Scan(gated, pos, log), e);
  }

  lemma ScanOne(gated: bool, pos: Position, e: Wire)
    ensures Scan(gated, pos, [e]) == Advance(gated, pos, e)
  {
    hide Advance;
    assert [e][1..] == [];
  }

  lemma {:induction false} ScanInside(gated: bool, c: nat, held: nat, inner: seq<Wire>)
    requires OnConnection(c, inner)
    ensures Scan(gated, At(InTx(c), held), inner) == At(InTx(c), held)
    decreases |inner|
  {
    if inner != [] {
      assert inner[0] in inner;
      ScanInside(gated, c, held, inner[1..]);
    }
  }

  /** Every program of statements, executors taken ahead of their statements, nested transactions, caught errors and
      interleaved breaker traffic, under every outcome of every step, keeps the wire protocol and ends with no
      connection held and every grant it got spent or given up. */
  lemma {:induction false} EveryProgramKeepsTheProtocol(p: Params, b: Body, w: World, held: nat)
    returns (log: seq<Wire>)
    ensures var r := RunBody(p, b, Free, w);
            r.ctx == Free && r.world.wire == w.wire + log && Scan(p.gated, At(Idle, held), log) == At(Idle, held)
    decreases b, 0
  {
    match b
    case Return => log := [];
    case Do(op, next) =>
      log := ProtocolOfOp(p, op, w, held);
      var r := RunOp(p, op, Free, w);
      if !r.threw {
        var more := EveryProgramKeepsTheProtocol(p, next, r.world, held);
        ScanConcat(p.gated, At(Idle, held), log, more);
        assert w.wire + log + more == w.wire + (log + more);
        log := log + more;
      }
  }

  lemma {:induction false} ProtocolOfOp(p: Params, op: Op, w: World, held: nat) returns (log: seq<Wire>)
    ensures var r := RunOp(p, op, Free, w);
            r.ctx == Free && r.world.wire == w.wire + log && Scan(p.gated, At(Idle, held), log) == At(Idle, held)
    decreases op, 0
  {
    hide Advance;
    match op
    case Raise => log := [];
    case Elsewhere(_) => log := [];
    case Swallow(tried) => log := EveryProgramKeepsTheProtocol(p, tried, w, held);
    case Statement(id, at, connects, runs) => log := ProtocolOfStatement(p, id, at, connects, runs, w, held);
    case Held(at, first, id, used, connects, runs) =>
      log := ProtocolOfHeld(p, at, first, id, used, connects, runs, w, held);
    case Transaction(link, body) => log := ProtocolOfTransaction(p, link, body, w, held);
  }

  lemma ProtocolOfStatement(p: Params, id: int, at: int, connects: Outcome, runs: Outcome, w: World, held: nat)
    returns (log: seq<Wire>)
    ensures var r := RunStatement(p, id, at, connects, runs, Free, w);
            r.ctx == Free && r.world.wire == w.wire + log && Scan(p.gated, At(Idle, held), log) == At(Idle, held)
  {
    hide Scan, Advance, Execute, ExecuteLog;
    var gate, work := GateEntry(p, Admitted(p, w, at)), ExecuteLog(w.nextConn, id, connects, runs);
    ScanGate(p, Admitted(p, w, at), held);
    log := gate;
    if Admitted(p, w, at) {
      ExecuteWrites(p, id, at, connects, runs, Gated(p, w, at));
      ScanConcat(p.gated, At(Idle, held), gate, work);
      ScanExecute(p, w.nextConn, id, connects, runs, held);
      Associative(w.wire, gate, work);
      log := gate + work;
    }
  }

  lemma {:induction false} ProtocolOfHeld(p: Params, at: int, first: Body, id: int, used: int, connects: Outcome,
                                          runs: Outcome, w: World, held: nat) returns (log: seq<Wire>)
    ensures var r := RunHeld(p, at, first, id, used, connects, runs, Free, w);
            r.ctx == Free && r.world.wire == w.wire + log && Scan(p.gated, At(Idle, held), log) == At(Idle, held)
    decreases first, 1
  {
    hide Scan, Advance, Execute, ExecuteLog, RunBody;
    var gate := GateEntry(p, Admitted(p, w, at));
    ScanGate(p, Admitted(p, w, at), held);
    log := gate;
    if Admitted(p, w, at) {
      var w0, more := Gated(p, w, at), Granted(p, held);
      var meanwhile := EveryProgramKeepsTheProtocol(p, first, w0, more);
      var r := RunBody(p, first, Free, w0);
      var work := if !r.threw then ExecuteLog(r.world.nextConn, id, connects, runs)
                  else if p.gated then [GivenUp] else [];
      if !r.threw {
        ExecuteWrites(p, id, used, connects, runs, r.world);
        ScanExecute(p, r.world.nextConn, id, connects, runs, held);
      } else {
        ScanGivenUp(p, held);
      }
      ScanConcat(p.gated, At(Idle, held), gate, meanwhile);
      ScanConcat(p.gated, At(Idle, held), gate + meanwhile, work);
      Associative(w.wire, gate, meanwhile);
      Associative(w.wire, gate + meanwhile, work);
      log := gate + meanwhile + work;
    }
  }

  lemma ProtocolOfTransaction(p: Params, link: Link, body: Body, w: World, held: nat) returns (log: seq<Wire>)
    ensures var r := RunTransaction(p, link, body, Free, w);
            r.ctx == Free && r.world.wire == w.wire + log && Scan(p.gated, At(Idle, held), log) == At(Idle, held)
  {
    hide Scan, Advance, RunBody, TransactionLog;
    if Reached(p, link, w) {
      OutermostTransaction(p, link, body, w);
      log := TransactionLog(p, link, body, w);
      TransactionScans(p, link, body, w, held);
    } else if !Admitted(p, w, link.at) {
      log := GateEntry(p, false);
      ScanGate(p, false, held);
    } else if link.connects.Fails? {
      log := GateEntry(p, true) + ([ConnectFailed] + ReportOf(link.connects));
      ScanGate(p, true, held);
      ScanFailedConnect(p, link.connects, held);
      ScanConcat(p.gated, At(Idle, held), GateEntry(p, true), [ConnectFailed] + ReportOf(link.connects));
    } else {
      var c := w.nextConn;
      log := GateEntry(p, true) + [Connect(c), BeginFailed(c), Rollback(c), Release(c)];
      ScanFailedBegin(p, c, held);
    }
  }

  lemma TransactionScans(p: Params, link: Link, body: Body, w: World, held: nat)
    requires OnConnection(w.nextConn, InnerLog(p, link, body, w))
    ensures Scan(p.gated, At(Idle, held), TransactionLog(p, link, body, w)) == At(Idle, held)
  {
    hide Scan, Advance, InnerLog;
    ScanTransaction(p, w.nextConn, InnerLog(p, link, body, w), EndingLog(p, link, body, w), held);
  }

  function Granted(p: Params, held: nat): nat {
    if p.gated then held + 1 else held
  }

  lemma ScanGate(p: Params, admitted: bool, held: nat)
    ensures Scan(p.gated, At(Idle, held), GateEntry(p, admitted))
         == At(Idle, if admitted then Granted(p, held) else held)
  {
    ScanOne(p.gated, At(Idle, held), Gate(admitted));
  }

  lemma ScanGivenUp(p: Params, held: nat)
    ensures Scan(p.gated, At(Idle, Granted(p, held)), if p.gated then [GivenUp] else []) == At(Idle, held)
  {
    ScanOne(p.gated, At(Idle, Granted(p, held)), GivenUp);
  }

  lemma ScanFailedConnect(p: Params, connects: Outcome, held: nat)
    requires connects.Fails?
    ensures Scan(p.gated, At(Idle, Granted(p, held)), [ConnectFailed] + ReportOf(connects)) == At(Idle, held)
  {
    ScanOne(p.gated, At(Idle, Granted(p, held)), ConnectFailed);
    if connects.counted {
      ScanPush(p.gated, At(Idle, Granted(p, held)), [ConnectFailed], ReportFailure);
    } else {
      assert [ConnectFailed] + [] == [ConnectFailed];
    }
  }

  /** The start of every connection: checkout and its first entry. */
  lemma ScanOpening(p: Params, c: nat, first: Wire, held: nat)
    ensures Scan(p.gated, At(Idle, Granted(p, held)), [Connect(c), first])
         == Advance(p.gated, At(Checked(c), held), first)
  {
    ScanOne(p.gated, At(Idle, Granted(p, held)), Connect(c));
    ScanPush(p.gated, At(Idle, Granted(p, held)), [Connect(c)], first);
    assert [Connect(c)] + [first] == [Connect(c), first];
  }

  lemma ScanExecute(p: Params, c: nat, id: int, connects: Outcome, runs: Outcome, held: nat)
    ensures Scan(p.gated, At(Idle, Granted(p, held)), ExecuteLog(c, id, connects, runs)) == At(Idle, held)
  {
    hide Scan;
    if connects.Fails? {
      ScanFailedConnect(p, connects, held);
    } else {
      var start, q := At(Idle, Granted(p, held)), Query(c, id, runs);
      ScanOpening(p, c, q, held);
      var opening := [Connect(c), q];
      if ReportOf(runs) != [] {
        ScanPush(p.gated, start, opening, ReportOf(runs)[0]);
        assert ReportOf(runs) == [ReportOf(runs)[0]];
      } else {
        assert opening + ReportOf(runs) == opening;
      }
      ScanPush(p.gated, start, opening + ReportOf(runs), Release(c));
    }
  }

  lemma ScanGatedOpening(p: Params, c: nat, first: Wire, held: nat)
    ensures Scan(p.gated, At(Idle, held), GateEntry(p, true) + [Connect(c), first])
         == Advance(p.gated, At(Checked(c), held), first)
  {
    hide Scan, Advance;
    ScanGate(p, true, held);
    ScanOpening(p, c, first, held);
    ScanConcat(p.gated, At(Idle, held), GateEntry(p, true), [Connect(c), first]);
  }

  lemma ScanFailedBegin(p: Params, c: nat, held: nat)
    ensures Scan(p.gated, At(Idle, held), GateEntry(p, true) + [Connect(c), BeginFailed(c), Rollback(c), Release(c)])
         == At(Idle, held)
  {
    hide Scan;
    var start, opening := At(Idle, held), GateEntry(p, true) + [Connect(c), BeginFailed(c)];
    ScanGatedOpening(p, c, BeginFailed(c), held);
    ScanPush(p.gated, start, opening, Rollback(c));
    ScanPush(p.gated, start, opening + [Rollback(c)], Release(c));
    assert opening + [Rollback(c)] + [Release(c)]
        == GateEntry(p, true) + [Connect(c), BeginFailed(c), Rollback(c), Release(c)];
  }

  lemma ScanTransaction(p: Params, c: nat, inner: seq<Wire>, ending: seq<Wire>, held: nat)
    requires OnConnection(c, inner)
    requires ending == [Rollback(c)]
             || exists how :: ending == [Commit(c, how), ReportOk] || ending == [Commit(c, how), Rollback(c)]
    ensures Scan(p.gated, At(Idle, held), GateEntry(p, true) + [Connect(c), Begin(c)] + inner + ending + [Release(c)])
         == At(Idle, held)
  {
    hide Scan;
    var start, opening := At(Idle, held), GateEntry(p, true) + [Connect(c), Begin(c)];
    ScanGatedOpening(p, c, Begin(c), held);
    ScanInside(p.gated, c, held, inner);
    ScanConcat(p.gated, start, opening, inner);
    ScanPush(p.gated, start, opening + inner, ending[0]);
    if |ending| == 2 {
      ScanPush(p.gated, start, opening + inner + [ending[0]], ending[1]);
      assert opening + inner + [ending[0]] + [ending[1]] == opening + inner + ending;
    } else {
      assert ending == [ending[0]];
    }
    ScanPush(p.gated, start, opening + inner + ending, Release(c));
  }
}
