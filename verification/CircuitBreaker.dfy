/** Which failures say something about the database, once event-loop stalls are discounted. */
module SlowQuery {
  datatype Cause = Db | Pool | Loop | Unremarkable

  datatype Timing = Timing(execMs: int, execBlockedMs: int, poolWaitMs: int, waitBlockedMs: int)

  function NonNegative(x: int): nat {
    if x < 0 then 0 else x
  }

  function Classify(t: Timing, thresholdMs: int): Cause {
    var dbMs := NonNegative(t.execMs - t.execBlockedMs);
    var waitMs := NonNegative(t.poolWaitMs - t.waitBlockedMs);
    if dbMs >= thresholdMs then Db
    else if waitMs >= thresholdMs then Pool
    else if t.execBlockedMs + t.waitBlockedMs >= thresholdMs then Loop
    else Unremarkable
  }

  predicate CountsAsFailure(connectionLayer: bool, elapsedMs: int, blockedMs: int, thresholdMs: int) {
    connectionLayer && Classify(Timing(elapsedMs, blockedMs, 0, 0), thresholdMs) != Loop
  }

  /** A slow call is the database's fault if running it took too long, otherwise the pool's if waiting for a connection
      did, otherwise the event loop's if it stood still for so long; time it stood still counts for neither. */
  lemma BlamedIff(t: Timing, thresholdMs: int)
    requires thresholdMs > 0
    ensures Classify(t, thresholdMs) == Db <==> t.execMs >= thresholdMs + t.execBlockedMs
    ensures Classify(t, thresholdMs) == Pool
       <==> t.execMs < thresholdMs + t.execBlockedMs && t.poolWaitMs >= thresholdMs + t.waitBlockedMs
    ensures Classify(t, thresholdMs) == Loop
       <==> && t.execMs < thresholdMs + t.execBlockedMs && t.poolWaitMs < thresholdMs + t.waitBlockedMs
            && t.execBlockedMs + t.waitBlockedMs >= thresholdMs
  {
  }

  /** A connection error is not counted exactly if blocked time alone explains it: the time left after taking it off is
      below the threshold, and the blocked time itself is not. */
  lemma CountedIff(connectionLayer: bool, elapsedMs: int, blockedMs: int, thresholdMs: int)
    ensures CountsAsFailure(connectionLayer, elapsedMs, blockedMs, thresholdMs)
       <==> connectionLayer && (thresholdMs <= 0 || elapsedMs - blockedMs >= thresholdMs || blockedMs < thresholdMs)
  {
  }

  /** A stall of this process inflates elapsed and blocked time alike; it never turns a failure that was
      not counted into one that is, and it never changes the verdict that the database itself was slow. */
  lemma StallsNeverAddAFailure(connectionLayer: bool, elapsedMs: int, blockedMs: int, thresholdMs: int, stallMs: nat)
    ensures var stalled := Timing(elapsedMs + stallMs, blockedMs + stallMs, 0, 0);
            var plain := Timing(elapsedMs, blockedMs, 0, 0);
            (Classify(stalled, thresholdMs) == Db) == (Classify(plain, thresholdMs) == Db)
    ensures var stalled := CountsAsFailure(connectionLayer, elapsedMs + stallMs, blockedMs + stallMs, thresholdMs);
            stalled ==> CountsAsFailure(connectionLayer, elapsedMs, blockedMs, thresholdMs)
  {
  }
}

/** The three-state breaker in front of one connection pool, and what every run of it keeps. */
module CircuitBreaker {
  datatype CircuitState = Closed | Open | HalfOpen

  datatype Config = Config(failThreshold: nat, probeIntervalMs: nat) {
    /** The tally at which a closed breaker trips; a threshold of 0 still needs one failure. */
    function TripPoint(): nat {
      if failThreshold < 1 then 1 else failThreshold
    }
  }

  datatype Snapshot = Snapshot(state: CircuitState, failures: nat, openedAt: int, probeInFlight: bool)

  const FRESH := Snapshot(Closed, 0, 0, false)

  predicate Allows(c: Config, s: Snapshot, now: int) {
    match s.state
    case Closed => true
    case Open => now - s.openedAt >= c.probeIntervalMs
    case HalfOpen => !s.probeInFlight
  }

  function AfterAsk(c: Config, s: Snapshot, now: int): Snapshot {
    if s.state == Closed || !Allows(c, s, now) then s
    else s.(state := HalfOpen, probeInFlight := true)
  }

  function AfterSuccess(s: Snapshot): Snapshot {
    s.(state := Closed, failures := 0, probeInFlight := false)
  }

  function AfterFailure(c: Config, s: Snapshot, now: int): Snapshot {
    match s.state
    case Open => s
    case HalfOpen => s.(state := Open, openedAt := now, probeInFlight := false)
    case Closed =>
      if s.failures + 1 >= c.failThreshold
      then s.(state := Open, failures := s.failures + 1, openedAt := now)
      else s.(failures := s.failures + 1)
  }

  /** The object itself: three methods that update its fields in place. */
  class PgCircuitBreaker {
    const config: Config
    var state: CircuitState
    var consecutiveFailures: nat
    var openedAt: int
    var probeInFlight: bool

    ghost function View(): Snapshot
      reads this
    {
      Snapshot(state, consecutiveFailures, openedAt, probeInFlight)
    }

    constructor (config: Config)
      ensures View() == FRESH && this.config == config
    {
      this.config := config;
      state, consecutiveFailures, openedAt, probeInFlight := Closed, 0, 0, false;
    }

    method AllowRequest(now: int) returns (granted: bool)
      modifies this
      ensures granted == Allows(config, old(View()), now)
      ensures View() == AfterAsk(config, old(View()), now)
    {
      if state == Closed {
        return true;
      }
      if state == Open {
        if now - openedAt < config.probeIntervalMs {
          return false;
        }
        state := HalfOpen;
        probeInFlight := true;
        return true;
      }
      if !probeInFlight {
        probeInFlight := true;
        return true;
      }
      return false;
    }

    method RecordSuccess()
      modifies this
      ensures View() == AfterSuccess(old(View()))
    {
      consecutiveFailures := 0;
      probeInFlight := false;
      if state != Closed {
        state := Closed;
      }
    }

    method RecordFailure(now: int)
      modifies this
      ensures View() == AfterFailure(config, old(View()), now)
    {
      if state == Open {
        return;
      }
      if state == HalfOpen {
        probeInFlight := false;
        openedAt := now;
        state := Open;
        return;
      }
      consecutiveFailures := consecutiveFailures + 1;
      if consecutiveFailures >= config.failThreshold {
        openedAt := now;
        state := Open;
      }
    }
  }

  /***** Runs *****/

  /** What callers do to the breaker: ask for a slot, report a success, report a counted failure. */
  datatype Event = Ask(now: int) | Success | Failure(now: int) {
    predicate IsReport() {
      !Ask?
    }
  }

  function Step(c: Config, s: Snapshot, e: Event): Snapshot {
    match e
    case Ask(now) => AfterAsk(c, s, now)
    case Success => AfterSuccess(s)
    case Failure(now) => AfterFailure(c, s, now)
  }

  function Run(c: Config, s: Snapshot, es: seq<Event>): Snapshot
    decreases |es|
  {
    if es == [] then s else Run(c, Step(c, s, es[0]), es[1..])
  }

  /** The times of the granted requests of a run, in order. */
  function Grants(c: Config, s: Snapshot, es: seq<Event>): seq<int>
    decreases |es|
  {
    if es == [] then []
    else
      (if es[0].Ask? && Allows(c, s, es[0].now) then [es[0].now] else [])
      + Grants(c, Step(c, s, es[0]), es[1..])
  }

  /** The clock readings of a run never go back, and start no earlier than `from`. */
  predicate ClockFrom(es: seq<Event>, from: int)
    decreases |es|
  {
    es == [] ||
    match es[0]
    case Success => ClockFrom(es[1..], from)
    case Ask(now) => from <= now && ClockFrom(es[1..], now)
    case Failure(now) => from <= now && ClockFrom(es[1..], now)
  }

  predicate Consistent(c: Config, s: Snapshot) {
    && (s.probeInFlight <==> s.state == HalfOpen)
    && (s.state == Closed <==> s.failures < c.TripPoint())
    && (s.state != Closed ==> s.failures == c.TripPoint())
  }

  /** Every run from a fresh breaker: the probe slot is taken exactly in half-open, and the tally is below
      the trip point exactly when closed and equal to it otherwise. No assumption on the clock. */
  lemma EveryRunConsistent(c: Config, es: seq<Event>)
    ensures Consistent(c, Run(c, FRESH, es))
  {
    RunKeepsConsistent(c, FRESH, es);
  }

  lemma {:induction false} RunKeepsConsistent(c: Config, s: Snapshot, es: seq<Event>)
    requires Consistent(c, s)
    ensures Consistent(c, Run(c, s, es))
    decreases |es|
  {
    if es != [] {
      RunKeepsConsistent(c, Step(c, s, es[0]), es[1..]);
    }
  }

  /** The counted failures since the last success. */
  function Streak(es: seq<Event>): nat {
    if es == [] then 0
    else
      match es[|es| - 1]
      case Success => 0
      case Failure(_) => Streak(es[..|es| - 1]) + 1
      case Ask(_) => Streak(es[..|es| - 1])
  }

  lemma {:induction false} RunLast(c: Config, s: Snapshot, es: seq<Event>)
    requires es != []
    ensures Run(c, s, es) == Step(c, Run(c, s, es[..|es| - 1]), es[|es| - 1])
    decreases |es|
  {
    if |es| > 1 {
      RunLast(c, Step(c, s, es[0]), es[1..]);
      assert es[1..][..|es| - 2] == es[..|es| - 1][1..];
    }
  }

  /** After any events the breaker is closed exactly if fewer than max(1, threshold) counted failures have come since
      the last success, and then its tally is their number. */
  lemma {:induction false} ClosedIff(c: Config, es: seq<Event>)
    ensures Run(c, FRESH, es).state == Closed <==> Streak(es) < c.TripPoint()
    ensures Run(c, FRESH, es).state == Closed ==> Run(c, FRESH, es).failures == Streak(es)
  {
    if es != [] {
      var before := es[..|es| - 1];
      ClosedIff(c, before);
      EveryRunConsistent(c, before);
      RunLast(c, FRESH, es);
    }
  }

  /** No success, and nobody asking before `due`. */
  predicate QuietUntil(es: seq<Event>, due: int) {
    forall e :: e in es ==> !e.Success? && (e.Ask? ==> e.now < due)
  }

  lemma {:induction false} StaysOpen(c: Config, s: Snapshot, es: seq<Event>)
    requires s.state == Open && QuietUntil(es, s.openedAt + c.probeIntervalMs)
    ensures Run(c, s, es) == s
    decreases |es|
  {
    if es != [] {
      assert es[0] in es;
      StaysOpen(c, s, es[1..]);
    }
  }

  /** A breaker that opens on a failure at `at`, because its tally is full or its probe failed, refuses everybody for
      one probe interval, whatever else fails meanwhile, and grants the first request after it. */
  lemma GrantsOnceDue(c: Config, es: seq<Event>, at: int, waiting: seq<Event>, now: int)
    requires var s := Run(c, FRESH, es); s.state == HalfOpen || Streak(es) + 1 == c.TripPoint()
    requires QuietUntil(waiting, at + c.probeIntervalMs)
    ensures var open := Step(c, Run(c, FRESH, es), Failure(at));
      && Grants(c, open, waiting) == []
      && (Allows(c, Run(c, open, waiting), now) <==> now - at >= c.probeIntervalMs)
  {
    EveryRunConsistent(c, es);
    ClosedIff(c, es);
    var open := Step(c, Run(c, FRESH, es), Failure(at));
    StaysOpen(c, open, waiting);
    NobodyGranted(c, open, waiting);
  }

  lemma {:induction false} NobodyGranted(c: Config, s: Snapshot, es: seq<Event>)
    requires s.state == Open && QuietUntil(es, s.openedAt + c.probeIntervalMs)
    ensures Grants(c, s, es) == []
    decreases |es|
  {
    if es != [] {
      assert es[0] in es;
      NobodyGranted(c, s, es[1..]);
    }
  }

  /** Adjacent grants are one probe interval apart and the first is one interval after `base`. */
  predicate Spaced(grants: seq<int>, base: int, interval: nat) {
    && (|grants| > 0 ==> grants[0] >= base + interval)
    && forall i :: 0 < i < |grants| ==> grants[i] >= grants[i - 1] + interval
  }

  /** From the moment the breaker trips until some success closes it again, any k grants span at least
      (k-1) probe intervals and the i-th grant comes at least i+1 intervals after the trip. */
  lemma GrantSpacing(c: Config, tripped: Snapshot, es: seq<Event>, i: nat, j: nat)
    requires Consistent(c, tripped) && tripped.state == Open
    requires ClockFrom(es, tripped.openedAt) && Success !in es
    requires i <= j < |Grants(c, tripped, es)|
    ensures var g := Grants(c, tripped, es);
            && g[j] - g[i] >= (j - i) * c.probeIntervalMs
            && g[i] >= tripped.openedAt + (i + 1) * c.probeIntervalMs
  {
    SpacedWhileTripped(c, tripped, es, tripped.openedAt, tripped.openedAt);
    var g := Grants(c, tripped, es);
    SpacedSpan(g, tripped.openedAt, c.probeIntervalMs, i, j);
    SpacedSpan(g, tripped.openedAt, c.probeIntervalMs, 0, i);
    assert (i + 1) * c.probeIntervalMs == i * c.probeIntervalMs + c.probeIntervalMs;
  }

  lemma {:induction false} SpacedSpan(g: seq<int>, base: int, interval: nat, i: nat, j: nat)
    requires Spaced(g, base, interval) && i <= j < |g|
    ensures g[j] - g[i] >= (j - i) * interval
    decreases j - i
  {
    if i < j {
      SpacedSpan(g, base, interval, i, j - 1);
      assert (j - i) * interval == (j - 1 - i) * interval + interval;
    }
  }

  /** `base` is the trip time while open and the last grant while half-open; `clock` the latest reading. */
  lemma {:induction false} SpacedWhileTripped(c: Config, s: Snapshot, es: seq<Event>, base: int, clock: int)
    requires Consistent(c, s) && s.state != Closed
    requires s.state == Open ==> s.openedAt >= base
    requires base <= clock && ClockFrom(es, clock) && Success !in es
    ensures Spaced(Grants(c, s, es), base, c.probeIntervalMs)
    decreases |es|
  {
    if es != [] {
      var e, rest := es[0], es[1..];
      var next := Step(c, s, e);
      assert forall r :: r in rest ==> r in es;
      if e.Ask? && Allows(c, s, e.now) {
        SpacedWhileTripped(c, next, rest, e.now, e.now);
      } else {
        SpacedWhileTripped(c, next, rest, base, if e.Success? then clock else e.now);
        assert Grants(c, s, es) == Grants(c, next, rest);
      }
    }
  }

  /** Some request would be granted, at some time. */
  ghost predicate CanEverGrant(c: Config, s: Snapshot) {
    exists now :: Allows(c, s, now)
  }

  /** Half-open recovers exactly through a report. Starting with the probe outstanding, a run contains a
      report if and only if something was granted during it or could be granted after it. A probe that
      ends without reporting (an error that is not counted) therefore blocks the breaker for good. */
  lemma {:induction false} HalfOpenNeedsAReport(c: Config, s: Snapshot, es: seq<Event>)
    requires Consistent(c, s) && s.state == HalfOpen
    ensures (exists e :: e in es && e.IsReport())
              <==> Grants(c, s, es) != [] || CanEverGrant(c, Run(c, s, es))
    decreases |es|
  {
    if es != [] {
      var e, rest := es[0], es[1..];
      if e.IsReport() {
        assert e in es;
        GrantsOrCanGrant(c, Step(c, s, e), rest);
      } else {
        HalfOpenNeedsAReport(c, s, rest);
        assert forall r :: r in es <==> r == e || r in rest;
      }
    }
  }

  /** Outside half-open, some grant has happened by the end of the run or is still possible. */
  lemma {:induction false} GrantsOrCanGrant(c: Config, s: Snapshot, es: seq<Event>)
    requires Consistent(c, s) && s.state != HalfOpen
    ensures Grants(c, s, es) != [] || CanEverGrant(c, Run(c, s, es))
    decreases |es|
  {
    if es == [] {
      assert Allows(c, s, s.openedAt + c.probeIntervalMs);
    } else if !(es[0].Ask? && Allows(c, s, es[0].now)) {
      GrantsOrCanGrant(c, Step(c, s, es[0]), es[1..]);
    }
  }
}
