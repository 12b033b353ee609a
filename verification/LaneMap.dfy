/** mapWithConcurrency: a few lanes share one counter and write into one result array, interleaved at their
    awaits in any order. */
module LaneMap {
  datatype Option<T> = None | Some(value: T)

  /** A lane about to claim, waiting for fn on an index, out of items, or ended by a rejection. */
  datatype Lane = Claiming | Calling(index: nat) | Finished | Rejected

  datatype State<R> = State(next: nat, lanes: seq<Lane>, results: seq<Option<R>>, claimed: seq<nat>)

  /** Claim: `next++` and call, or leave; Resume: fn's value arrives and is stored; Reject: fn throws. */
  datatype Step = Claim(lane: nat) | Resume(lane: nat) | Reject(lane: nat)

  function LaneCount(n: int, items: nat): nat {
    if n < 1 || items == 0 then 1 else if n < items then n else items
  }

  function Start<R>(items: nat, n: int): State<R> {
    State(0, seq(LaneCount(n, items), _ => Claiming), seq(items, _ => None), [])
  }

  predicate Enabled<R>(s: State<R>, st: Step) {
    && st.lane < |s.lanes|
    && match st
       case Claim(l) => s.lanes[l].Claiming?
       case Resume(l) => s.lanes[l].Calling? && s.lanes[l].index < |s.results|
       case Reject(l) => s.lanes[l].Calling?
  }

  function Apply<R>(s: State<R>, st: Step, fn: nat -> R): State<R>
    requires Enabled(s, st)
  {
    match st
    case Claim(l) =>
      if s.next >= |s.results| then s.(next := s.next + 1, lanes := s.lanes[l := Finished])
      else s.(next := s.next + 1, lanes := s.lanes[l := Calling(s.next)], claimed := s.claimed + [s.next])
    case Resume(l) =>
      s.(results := s.results[s.lanes[l].index := Some(fn(s.lanes[l].index))], lanes := s.lanes[l := Claiming])
    case Reject(l) => s.(lanes := s.lanes[l := Rejected])
  }

  /** The shared state in place: the counter and the results array. */
  class Pool<R> {
    var next: nat
    const results: array<Option<R>>
    var lanes: seq<Lane>
    ghost var claimed: seq<nat>

    ghost function View(): State<R>
      reads this, results
    {
      State(next, lanes, results[..], claimed)
    }

    constructor (items: nat, n: int)
      ensures View() == Start(items, n) && fresh(results)
    {
      next, claimed := 0, [];
      lanes := seq(LaneCount(n, items), _ => Claiming);
      results := new Option<R>[items](_ => None);
      new;
      assert results[..] == seq(items, _ => None);
    }

    /** One turn of a worker's loop up to its await. */
    method Worker(l: nat)
      requires Enabled(View(), Claim(l))
      modifies this
      ensures forall fn: nat -> R :: View() == Apply(old(View()), Claim(l), fn)
    {
      var i := next;
      next := next + 1;
      if i >= results.Length {
        lanes := lanes[l := Finished];
      } else {
        claimed := claimed + [i];
        lanes := lanes[l := Calling(i)];
      }
    }

    /** The awaited value is stored and the loop goes on. */
    method Store(l: nat, fn: nat -> R)
      requires Enabled(View(), Resume(l))
      modifies this, results
      ensures View() == Apply(old(View()), Resume(l), fn)
    {
      var i := lanes[l].index;
      results[i] := Some(fn(i));
      lanes := lanes[l := Claiming];
    }
  }

  predicate IsTrace<R>(s: State<R>, steps: seq<Step>, fn: nat -> R)
    decreases |steps|
  {
    steps != [] ==> Enabled(s, steps[0]) && IsTrace(Apply(s, steps[0], fn), steps[1..], fn)
  }

  function After<R>(s: State<R>, steps: seq<Step>, fn: nat -> R): State<R>
    requires IsTrace(s, steps, fn)
    decreases |steps|
  {
    if steps == [] then s else After(Apply(s, steps[0], fn), steps[1..], fn)
  }

  function Min(a: nat, b: nat): nat {
    if a < b then a else b
  }

  predicate Counting(claimed: seq<nat>) {
    forall i :: 0 <= i < |claimed| ==> claimed[i] == i
  }

  /** Different lanes wait for different indices. */
  predicate LanesDistinct(lanes: seq<Lane>) {
    forall k, l :: 0 <= k < l < |lanes| && lanes[k].Calling? && lanes[l].Calling? ==> lanes[k].index != lanes[l].index
  }

  predicate SomeLaneHas(lanes: seq<Lane>, i: nat) {
    exists l :: 0 <= l < |lanes| && lanes[l] == Calling(i)
  }

  predicate SomeRejected(lanes: seq<Lane>) {
    exists l :: 0 <= l < |lanes| && lanes[l].Rejected?
  }

  /** A claimed index has its value, or a lane still waiting for it, or was lost to a rejection. */
  ghost predicate Covered<R>(s: State<R>, fn: nat -> R, i: nat)
    requires i < |s.results|
  {
    s.results[i] == Some(fn(i)) || SomeLaneHas(s.lanes, i) || SomeRejected(s.lanes)
  }

  ghost predicate Inv<R(!new)>(s: State<R>, fn: nat -> R) {
    && Counting(s.claimed) && |s.claimed| == Min(s.next, |s.results|) && LanesDistinct(s.lanes)
    && (forall l :: 0 <= l < |s.lanes| && s.lanes[l].Calling? ==> s.lanes[l].index < |s.claimed|)
    && (forall l :: 0 <= l < |s.lanes| && s.lanes[l].Finished? ==> s.next > |s.results|)
    && (forall i :: 0 <= i < |s.claimed| ==> Covered(s, fn, i))
    && (forall i :: |s.claimed| <= i < |s.results| ==> s.results[i] == None)
  }

  lemma StepCovers<R(!new)>(s: State<R>, st: Step, fn: nat -> R, i: nat)
    requires Inv(s, fn) && Enabled(s, st) && i < |Apply(s, st, fn).claimed| <= |s.results|
    ensures Covered(Apply(s, st, fn), fn, i)
  {
    var t := Apply(s, st, fn);
    if i < |s.claimed| {
      assert Covered(s, fn, i);
      if SomeLaneHas(s.lanes, i) {
        var l :| 0 <= l < |s.lanes| && s.lanes[l] == Calling(i);
        assert l != st.lane ==> t.lanes[l] == Calling(i);
        assert st.Reject? ==> t.lanes[st.lane].Rejected?;
      }
      if SomeRejected(s.lanes) {
        var l :| 0 <= l < |s.lanes| && s.lanes[l].Rejected?;
        assert t.lanes[l].Rejected?;
      }
    } else {
      assert t.lanes[st.lane] == Calling(i);
    }
  }

  lemma StepKeepsInv<R(!new)>(s: State<R>, st: Step, fn: nat -> R)
    requires Inv(s, fn) && Enabled(s, st)
    ensures Inv(Apply(s, st, fn), fn)
  {
    var t := Apply(s, st, fn);
    forall i | 0 <= i < |t.claimed| ensures Covered(t, fn, i) {
      StepCovers(s, st, fn, i);
    }
  }

  lemma {:induction false} TraceKeepsInv<R(!new)>(s: State<R>, steps: seq<Step>, fn: nat -> R)
    requires Inv(s, fn) && IsTrace(s, steps, fn)
    ensures Inv(After(s, steps, fn), fn) && |After(s, steps, fn).lanes| == |s.lanes|
    ensures |After(s, steps, fn).results| == |s.results|
    decreases |steps|
  {
    if steps != [] {
      StepKeepsInv(s, steps[0], fn);
      TraceKeepsInv(Apply(s, steps[0], fn), steps[1..], fn);
    }
  }

  function InFlight(lanes: seq<Lane>): nat {
    if lanes == [] then 0 else InFlight(lanes[..|lanes| - 1]) + (if lanes[|lanes| - 1].Calling? then 1 else 0)
  }

  lemma {:induction false} InFlightBounded(lanes: seq<Lane>)
    ensures InFlight(lanes) <= |lanes|
  {
    if lanes != [] {
      InFlightBounded(lanes[..|lanes| - 1]);
    }
  }

  /** Under every interleaving: fn is called once per index, in order, on different indices at a time, and on no
      more than max(1, min(n, items)) at once. */
  lemma EachIndexOnce<R(!new)>(items: nat, n: int, steps: seq<Step>, fn: nat -> R)
    requires IsTrace(Start<R>(items, n), steps, fn)
    ensures var s := After(Start<R>(items, n), steps, fn);
      && Counting(s.claimed) && |s.claimed| <= items && LanesDistinct(s.lanes)
      && InFlight(s.lanes) <= LaneCount(n, items)
      && (1 <= n <= items ==> LaneCount(n, items) == n) && (n < 1 ==> LaneCount(n, items) == 1)
  {
    TraceKeepsInv(Start<R>(items, n), steps, fn);
    InFlightBounded(After(Start<R>(items, n), steps, fn).lanes);
  }

  function Stored<R>(results: seq<Option<R>>): nat {
    if results == [] then 0
    else Stored(results[..|results| - 1]) + (if results[|results| - 1].Some? then 1 else 0)
  }

  function RejectedLanes(lanes: seq<Lane>): nat {
    if lanes == [] then 0 else RejectedLanes(lanes[..|lanes| - 1]) + (if lanes[|lanes| - 1].Rejected? then 1 else 0)
  }

  lemma {:induction false} StoredChanged<R>(results: seq<Option<R>>, i: nat, r: Option<R>)
    requires i < |results|
    ensures Stored(results[i := r])
         == Stored(results) - (if results[i].Some? then 1 else 0) + (if r.Some? then 1 else 0)
  {
    var k := |results| - 1;
    if i < k {
      assert results[i := r][..k] == results[..k][i := r];
      StoredChanged(results[..k], i, r);
    } else {
      assert results[i := r][..k] == results[..k];
    }
  }

  lemma {:induction false} RejectedChanged(lanes: seq<Lane>, l: nat, lane: Lane)
    requires l < |lanes|
    ensures RejectedLanes(lanes[l := lane])
         == RejectedLanes(lanes) - (if lanes[l].Rejected? then 1 else 0) + (if lane.Rejected? then 1 else 0)
  {
    var k := |lanes| - 1;
    if l < k {
      assert lanes[l := lane][..k] == lanes[..k][l := lane];
      RejectedChanged(lanes[..k], l, lane);
    } else {
      assert lanes[l := lane][..k] == lanes[..k];
    }
  }

  /** Calls whose value is still to come have nothing stored yet. */
  ghost predicate NotYetStored<R>(s: State<R>) {
    && |s.claimed| == Stored(s.results) + InFlight(s.lanes) + RejectedLanes(s.lanes)
    && forall l :: 0 <= l < |s.lanes| && s.lanes[l].Calling? && s.lanes[l].index < |s.results| ==>
                     s.results[s.lanes[l].index] == None
  }

  lemma StepKeepsAccount<R(!new)>(s: State<R>, st: Step, fn: nat -> R)
    requires Inv(s, fn) && NotYetStored(s) && Enabled(s, st)
    ensures NotYetStored(Apply(s, st, fn))
  {
    var t := Apply(s, st, fn);
    LaneChanged(s.lanes, st.lane, t.lanes[st.lane]);
    RejectedChanged(s.lanes, st.lane, t.lanes[st.lane]);
    if st.Resume? {
      var i := s.lanes[st.lane].index;
      StoredChanged(s.results, i, Some(fn(i)));
    }
  }

  lemma {:induction false} TraceKeepsAccount<R(!new)>(s: State<R>, steps: seq<Step>, fn: nat -> R)
    requires Inv(s, fn) && NotYetStored(s) && IsTrace(s, steps, fn)
    ensures NotYetStored(After(s, steps, fn))
    decreases |steps|
  {
    if steps != [] {
      StepKeepsInv(s, steps[0], fn);
      StepKeepsAccount(s, steps[0], fn);
      TraceKeepsAccount(Apply(s, steps[0], fn), steps[1..], fn);
    }
  }

  lemma {:induction false} NothingAtFirst<R>(k: nat, lanes: nat)
    ensures Stored(seq(k, _ => Option<R>.None)) == 0
    ensures InFlight(seq(lanes, _ => Claiming)) == 0 && RejectedLanes(seq(lanes, _ => Claiming)) == 0
  {
    if k > 0 {
      assert seq(k, _ => Option<R>.None)[..k - 1] == seq(k - 1, _ => Option<R>.None);
      NothingAtFirst<R>(k - 1, lanes);
    } else if lanes > 0 {
      assert seq(lanes, _ => Claiming)[..lanes - 1] == seq(lanes - 1, _ => Claiming);
      NothingAtFirst<R>(k, lanes - 1);
    }
  }

  /** Under every interleaving, the calls made so far are those whose value is stored, those under way and those that
      threw, each of which ended its lane. */
  lemma EveryCallAccounted<R(!new)>(items: nat, n: int, steps: seq<Step>, fn: nat -> R)
    requires IsTrace(Start<R>(items, n), steps, fn)
    ensures var s := After(Start<R>(items, n), steps, fn);
      |s.claimed| == Stored(s.results) + InFlight(s.lanes) + RejectedLanes(s.lanes)
  {
    NothingAtFirst<R>(items, LaneCount(n, items));
    TraceKeepsAccount(Start<R>(items, n), steps, fn);
  }

  predicate AllFinished(lanes: seq<Lane>) {
    forall l :: 0 <= l < |lanes| ==> lanes[l].Finished?
  }

  /** When every lane has returned, every result is in its place. */
  lemma ResultsInOrder<R(!new)>(items: nat, n: int, steps: seq<Step>, fn: nat -> R, i: nat)
    requires IsTrace(Start<R>(items, n), steps, fn) && AllFinished(After(Start<R>(items, n), steps, fn).lanes)
    requires i < items
    ensures var s := After(Start<R>(items, n), steps, fn);
      |s.results| == items && s.results[i] == Some(fn(i)) && |s.claimed| == items
  {
    TraceKeepsInv(Start<R>(items, n), steps, fn);
    var s := After(Start<R>(items, n), steps, fn);
    assert s.lanes[0].Finished?;
    assert Covered(s, fn, i);
  }

  /** A lane that is not done can always go on, so the map ends once every call has: each step uses up a claim. */
  function Left<R>(s: State<R>): nat {
    2 * (|s.results| - Min(s.next, |s.results|)) + InFlight(s.lanes) + 2 * Open(s.lanes)
  }

  function Open(lanes: seq<Lane>): nat {
    if lanes == [] then 0
    else Open(lanes[..|lanes| - 1]) + (if lanes[|lanes| - 1].Claiming? || lanes[|lanes| - 1].Calling? then 1 else 0)
  }

  lemma {:induction false} LaneChanged(lanes: seq<Lane>, l: nat, lane: Lane)
    requires l < |lanes|
    ensures InFlight(lanes[l := lane])
         == InFlight(lanes) - (if lanes[l].Calling? then 1 else 0) + (if lane.Calling? then 1 else 0)
    ensures Open(lanes[l := lane]) == Open(lanes) - (if lanes[l].Claiming? || lanes[l].Calling? then 1 else 0)
                                      + (if lane.Claiming? || lane.Calling? then 1 else 0)
  {
    var k := |lanes| - 1;
    if l < k {
      assert lanes[l := lane][..k] == lanes[..k][l := lane];
      LaneChanged(lanes[..k], l, lane);
    } else {
      assert lanes[l := lane][..k] == lanes[..k];
    }
  }

  lemma StepUsesUp<R>(s: State<R>, st: Step, fn: nat -> R)
    requires Enabled(s, st)
    ensures Left(Apply(s, st, fn)) < Left(s)
  {
    LaneChanged(s.lanes, st.lane, Apply(s, st, fn).lanes[st.lane]);
  }

  lemma {:induction false} MapEnds<R>(s: State<R>, steps: seq<Step>, fn: nat -> R)
    requires IsTrace(s, steps, fn)
    ensures |steps| + Left(After(s, steps, fn)) <= Left(s)
    decreases |steps|
  {
    if steps != [] {
      StepUsesUp(s, steps[0], fn);
      MapEnds(Apply(s, steps[0], fn), steps[1..], fn);
    }
  }
}
