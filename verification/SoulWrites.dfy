/** Append-only writes of a soul: attempted while its breaker grants them, put into the outbox while it does not. */
module SoulWrites {
  import opened CircuitBreaker

  /** How an attempt at PostgreSQL ends, at time `done`. */
  datatype Attempt = Lands | Throws(counted: bool, done: int)

  /** A write at time `at`, with the end its attempt would have. */
  datatype Write = Write(id: int, at: int, attempt: Attempt)

  datatype Store = Store(breaker: Snapshot, landed: seq<int>, queued: seq<int>, thrown: seq<Write>)

  function Reported(c: Config, s: Snapshot, a: Attempt): Snapshot {
    match a
    case Lands => AfterSuccess(s)
    case Throws(counted, done) => if counted then AfterFailure(c, s, done) else s
  }

  function Apply(c: Config, s: Store, w: Write): Store {
    var asked := AfterAsk(c, s.breaker, w.at);
    if !Allows(c, s.breaker, w.at) then s.(queued := s.queued + [w.id], breaker := asked)
    else
      var t := s.(breaker := Reported(c, asked, w.attempt));
      if w.attempt.Lands? then t.(landed := s.landed + [w.id]) else t.(thrown := s.thrown + [w])
  }

  function After(c: Config, s: Store, ws: seq<Write>): Store
    decreases |ws|
  {
    if ws == [] then s else After(c, Apply(c, s, ws[0]), ws[1..])
  }

  const NEW := Store(FRESH, [], [], [])

  /** The call sites of shouldDivertSoulWrites: divert, or write and report. */
  class SoulStore {
    const breaker: PgCircuitBreaker
    var landed: seq<int>
    var queued: seq<int>
    ghost var thrown: seq<Write>

    ghost function View(): Store
      reads this, breaker
    {
      Store(breaker.View(), landed, queued, thrown)
    }

    constructor (breaker: PgCircuitBreaker)
      ensures this.breaker == breaker && landed == [] && queued == [] && thrown == []
    {
      this.breaker, landed, queued, thrown := breaker, [], [], [];
    }

    method ShouldDivert(at: int) returns (divert: bool)
      modifies breaker
      ensures divert == !Allows(breaker.config, old(breaker.View()), at)
      ensures breaker.View() == AfterAsk(breaker.config, old(breaker.View()), at)
    {
      var granted := breaker.AllowRequest(at);
      divert := !granted;
    }

    method Append(id: int, at: int, attempt: Attempt) returns (threw: bool)
      modifies this, breaker
      ensures View() == Apply(breaker.config, old(View()), Write(id, at, attempt))
      ensures threw ==> queued == old(queued) && landed == old(landed)
      ensures !threw ==>
        || (queued == old(queued) + [id] && landed == old(landed))
        || (queued == old(queued) && landed == old(landed) + [id])
    {
      var divert := ShouldDivert(at);
      if divert {
        queued := queued + [id];
        return false;
      }
      match attempt
      case Lands =>
        breaker.RecordSuccess();
        landed := landed + [id];
        return false;
      case Throws(counted, done) =>
        if counted {
          breaker.RecordFailure(done);
        }
        thrown := thrown + [Write(id, at, attempt)];
        return true;
    }
  }

  /***** Where writes end up *****/

  datatype End = Diverted | Landed | Thrown

  /** The writes that ended one way, in their order. */
  function Those(ws: seq<Write>, ends: seq<End>, end: End): seq<Write>
    requires |ws| == |ends|
  {
    if ws == [] then [] else (if ends[0] == end then [ws[0]] else []) + Those(ws[1..], ends[1..], end)
  }

  function Ids(ws: seq<Write>): seq<int> {
    if ws == [] then [] else [ws[0].id] + Ids(ws[1..])
  }

  lemma OneMore(ws: seq<Write>, ends: seq<End>, end: End)
    requires |ws| == |ends| > 0
    ensures var rest := Those(ws[1..], ends[1..], end);
      && Those(ws, ends, end) == (if ends[0] == end then [ws[0]] + rest else rest)
      && Ids(Those(ws, ends, end)) == (if ends[0] == end then [ws[0].id] + Ids(rest) else Ids(rest))
  {
    var rest := Those(ws[1..], ends[1..], end);
    assert ([ws[0]] + rest)[1..] == rest;
  }

  predicate EndsAs(c: Config, s: Store, w: Write, end: End) {
    var granted := Allows(c, s.breaker, w.at);
    (end == Diverted <==> !granted) && (end == Landed <==> granted && w.attempt == Lands)
  }

  lemma OneWrite(c: Config, s: Store, w: Write) returns (end: End)
    ensures EndsAs(c, s, w, end)
    ensures var t := Apply(c, s, w);
      && t.queued == (if end == Diverted then s.queued + [w.id] else s.queued)
      && t.landed == (if end == Landed then s.landed + [w.id] else s.landed)
      && t.thrown == (if end == Thrown then s.thrown + [w] else s.thrown)
  {
    end := if !Allows(c, s.breaker, w.at) then Diverted else if w.attempt == Lands then Landed else Thrown;
  }

  ghost predicate AllEndAs(c: Config, s: Store, ws: seq<Write>, ends: seq<End>) {
    |ends| == |ws| && forall i :: 0 <= i < |ws| ==> EndsAs(c, After(c, s, ws[..i]), ws[i], ends[i])
  }

  lemma AllEndAsFirst(c: Config, s: Store, ws: seq<Write>, ends: seq<End>)
    requires |ends| == |ws| > 0 && EndsAs(c, s, ws[0], ends[0])
    requires AllEndAs(c, Apply(c, s, ws[0]), ws[1..], ends[1..])
    ensures AllEndAs(c, s, ws, ends)
  {
    hide EndsAs, Apply;
    forall i | 0 <= i < |ws| ensures EndsAs(c, After(c, s, ws[..i]), ws[i], ends[i]) {
      if i > 0 {
        assert ws[..i][1..] == ws[1..][..i - 1];
        assert EndsAs(c, After(c, Apply(c, s, ws[0]), ws[1..][..i - 1]), ws[1..][i - 1], ends[1..][i - 1]);
      }
    }
  }

  /** Every write is in exactly one place: landed if its attempt was granted and succeeded, thrown to its caller if it
      was granted and failed, in the outbox if it was not granted; and each place keeps the order of the writes. */
  lemma {:induction false} EveryWriteInOnePlace(c: Config, s: Store, ws: seq<Write>) returns (ends: seq<End>)
    ensures |ends| == |ws| && AllEndAs(c, s, ws, ends)
    ensures var t := After(c, s, ws);
      && t.queued == s.queued + Ids(Those(ws, ends, Diverted))
      && t.landed == s.landed + Ids(Those(ws, ends, Landed))
      && t.thrown == s.thrown + Those(ws, ends, Thrown)
    decreases |ws|
  {
    if ws == [] {
      ends := [];
    } else {
      hide Apply, Those, Ids, EndsAs, AllEndAs;
      var w := ws[0];
      var end := OneWrite(c, s, w);
      var rest := EveryWriteInOnePlace(c, Apply(c, s, w), ws[1..]);
      ends := [end] + rest;
      assert ends[0] == end && ends[1..] == rest;
      AllEndAsLength(c, Apply(c, s, w), ws[1..], rest);
      AllEndAsFirst(c, s, ws, ends);
      OneMore(ws, ends, Diverted);
      OneMore(ws, ends, Landed);
      OneMore(ws, ends, Thrown);
      InOrder(s.queued, [w.id], Ids(Those(ws[1..], rest, Diverted)));
      InOrder(s.landed, [w.id], Ids(Those(ws[1..], rest, Landed)));
      InOrder(s.thrown, [w], Those(ws[1..], rest, Thrown));
    }
  }

  lemma AllEndAsLength(c: Config, s: Store, ws: seq<Write>, ends: seq<End>)
    requires AllEndAs(c, s, ws, ends)
    ensures |ends| == |ws|
  {
  }

  lemma InOrder<T>(a: seq<T>, b: seq<T>, c: seq<T>)
    ensures (a + b) + c == a + (b + c)
  {
  }

  /***** An outage *****/

  /** Every attempt fails and is counted; attempts end before the next write begins. */
  predicate Outage(ws: seq<Write>, from: int)
    decreases |ws|
  {
    ws != [] ==>
      && ws[0].attempt.Throws? && ws[0].attempt.counted
      && from <= ws[0].at <= ws[0].attempt.done && Outage(ws[1..], ws[0].attempt.done)
  }

  predicate AllThrow(ws: seq<Write>) {
    forall i :: 0 <= i < |ws| ==> ws[i].attempt.Throws? && ws[i].attempt.done >= ws[i].at
  }

  /** Adjacent failed attempts are a probe interval apart, and the first is one after `base`. */
  predicate Apart(thrown: seq<Write>, base: int, interval: nat) {
    && AllThrow(thrown)
    && (thrown != [] ==> thrown[0].at >= base + interval)
    && forall i :: 0 < i < |thrown| ==> thrown[i].at >= thrown[i - 1].attempt.done + interval
  }

  /** From an open breaker: only probes fail, each an interval after the last, and everything else is queued. */
  lemma {:induction false} OpenOutage(c: Config, s: Store, ws: seq<Write>, clock: int) returns (probes: seq<Write>)
    requires s.breaker.state == Open && s.breaker.openedAt <= clock && Outage(ws, clock)
    ensures var t := After(c, s, ws);
      && t.breaker.state == Open && t.landed == s.landed && t.thrown == s.thrown + probes
      && |t.queued| + |probes| == |s.queued| + |ws|
      && Apart(probes, s.breaker.openedAt, c.probeIntervalMs)
    decreases |ws|
  {
    if ws == [] {
      probes := [];
    } else {
      var w, next := ws[0], Apply(c, s, ws[0]);
      var rest := OpenOutage(c, next, ws[1..], w.attempt.done);
      if Allows(c, s.breaker, w.at) {
        probes := [w] + rest;
        assert s.thrown + ([w] + rest) == (s.thrown + [w]) + rest;
      } else {
        probes := rest;
      }
    }
  }

  /** From a closed breaker: the failures up to the trip point throw, then the breaker is open. */
  lemma {:induction false} ClosedOutage(c: Config, s: Store, ws: seq<Write>, clock: int)
    returns (first: seq<Write>, probes: seq<Write>)
    requires Consistent(c, s.breaker) && s.breaker.state == Closed && Outage(ws, clock)
    ensures var t := After(c, s, ws);
      && t.landed == s.landed && t.thrown == s.thrown + first + probes && AllThrow(first) && AllThrow(probes)
      && |first| <= c.TripPoint() - s.breaker.failures
      && |t.queued| + |first| + |probes| == |s.queued| + |ws|
      && (probes != [] ==>
            && |first| == c.TripPoint() - s.breaker.failures > 0
            && Apart(probes, first[|first| - 1].attempt.done, c.probeIntervalMs))
    decreases |ws|
  {
    if ws == [] {
      first, probes := [], [];
    } else {
      var w, next := ws[0], Apply(c, s, ws[0]);
      if next.breaker.state == Closed {
        var more;
        more, probes := ClosedOutage(c, next, ws[1..], w.attempt.done);
        first := [w] + more;
        assert s.thrown + ([w] + more) == (s.thrown + [w]) + more;
      } else {
        probes := OpenOutage(c, next, ws[1..], w.attempt.done);
        first := [w];
      }
    }
  }

  lemma {:induction false} ApartSpan(probes: seq<Write>, base: int, interval: nat, k: nat)
    requires Apart(probes, base, interval) && k < |probes|
    ensures probes[k].at >= base + (k + 1) * interval
  {
    if k > 0 {
      ApartSpan(probes, base, interval, k - 1);
      assert (k + 1) * interval == k * interval + interval;
    }
  }

  /** Writes that fail their callers in an outage, however many are attempted: those up to the trip point, and
      then probes, the k-th at least k + 1 intervals after the trip. Every other write is in the outbox. */
  lemma OutageLosesFew(c: Config, ws: seq<Write>, clock: int) returns (first: seq<Write>, probes: seq<Write>)
    requires Outage(ws, clock)
    ensures After(c, NEW, ws).thrown == first + probes && |first| <= c.TripPoint()
    ensures |After(c, NEW, ws).queued| == |ws| - |first| - |probes|
    ensures AllThrow(first) && (probes != [] ==> |first| == c.TripPoint())
    ensures forall k :: 0 <= k < |probes| ==>
              probes[k].at >= first[|first| - 1].attempt.done + (k + 1) * c.probeIntervalMs
  {
    first, probes := ClosedOutage(c, NEW, ws, clock);
    forall k | 0 <= k < |probes|
      ensures probes[k].at >= first[|first| - 1].attempt.done + (k + 1) * c.probeIntervalMs
    {
      ApartSpan(probes, first[|first| - 1].attempt.done, c.probeIntervalMs, k);
    }
  }
}
