/** The fan-out guard of the send tool: the same text may reach three different chats per window, and a window
    restarts at the first send after it has run out. `key` is the normalized text. */
module FanoutGuard {
  const FANOUT_WINDOW_MS := 120000
  const FANOUT_MAX_CHATS := 3

  datatype Rec = Rec(chats: set<string>, first: int)

  type State = map<string, Rec>

  datatype Send = Send(key: string, chat: string, now: int)

  predicate Expired(rec: Rec, now: int) {
    now - rec.first > FANOUT_WINDOW_MS
  }

  predicate Blocked(s: State, x: Send) {
    && x.key != "" && x.key in s && !Expired(s[x.key], x.now)
    && x.chat !in s[x.key].chats && |s[x.key].chats| >= FANOUT_MAX_CHATS
  }

  function Register(s: State, x: Send): State {
    if x.key == "" || Blocked(s, x) then s
    else if x.key !in s || Expired(s[x.key], x.now) then s[x.key := Rec({x.chat}, x.now)]
    else s[x.key := s[x.key].(chats := s[x.key].chats + {x.chat})]
  }

  class Guard {
    var records: State

    constructor ()
      ensures records == map[]
    {
      records := map[];
    }

    /** isFanoutFlood: true if this send is to be blocked; otherwise it is counted. */
    method IsFanoutFlood(key: string, chat: string, now: int) returns (flood: bool)
      modifies this
      ensures flood <==> Blocked(old(records), Send(key, chat, now))
      ensures records == Register(old(records), Send(key, chat, now))
    {
      if key == "" {
        return false;
      }
      if key !in records || now - records[key].first > FANOUT_WINDOW_MS {
        records := records[key := Rec({chat}, now)];
        return false;
      }
      var rec := records[key];
      if chat in rec.chats {
        assert rec.chats + {chat} == rec.chats;
        assert records[key := rec] == records;
        return false;
      }
      if |rec.chats| >= FANOUT_MAX_CHATS {
        return true;
      }
      records := records[key := Rec(rec.chats + {chat}, rec.first)];
      return false;
    }
  }

  /** The chats that sends of `key` got through to at times from a to a + 120 s. */
  function Through(s: State, sends: seq<Send>, key: string, a: int): set<string>
    decreases |sends|
  {
    if sends == [] then {}
    else
      Hit(s, sends[0], key, a) + Through(Register(s, sends[0]), sends[1..], key, a)
  }

  function After(s: State, sends: seq<Send>): State
    decreases |sends|
  {
    if sends == [] then s else After(Register(s, sends[0]), sends[1..])
  }

  predicate Ordered(sends: seq<Send>) {
    forall i, j :: 0 <= i < j < |sends| ==> sends[i].now <= sends[j].now
  }

  predicate StateOk(s: State) {
    forall key :: key in s ==> |s[key].chats| <= FANOUT_MAX_CHATS
  }

  lemma RegisterKeepsOk(s: State, x: Send)
    requires StateOk(s)
    ensures StateOk(Register(s, x))
  {
  }

  lemma {:induction false} RunKeepsOk(s: State, sends: seq<Send>)
    requires StateOk(s)
    ensures StateOk(After(s, sends))
    decreases |sends|
  {
    if sends != [] {
      RegisterKeepsOk(s, sends[0]);
      RunKeepsOk(Register(s, sends[0]), sends[1..]);
    }
  }

  lemma {:induction false} AfterOneMore(s: State, sends: seq<Send>, x: Send)
    ensures After(s, sends + [x]) == Register(After(s, sends), x)
    decreases |sends|
  {
    if sends == [] {
      assert sends + [x] == [x] && [x][1..] == [];
    } else {
      assert (sends + [x])[1..] == sends[1..] + [x];
      AfterOneMore(Register(s, sends[0]), sends[1..], x);
    }
  }

  /***** The guard read off the sends alone *****/

  /** The index of the send that opened the current window of `key`, or -1: the first send of the text, then every
      first one more than 120 s after the last opening. */
  function Opening(sends: seq<Send>, key: string): (k: int)
    ensures -1 <= k < |sends| && (k >= 0 ==> sends[k].key == key)
  {
    if sends == [] then -1
    else
      var n := |sends| - 1;
      var k := Opening(sends[..n], key);
      if sends[n].key == key && (k < 0 || sends[n].now - sends[k].now > FANOUT_WINDOW_MS) then n else k
  }

  /** Whether the i-th send got through. */
  predicate LetThrough(sends: seq<Send>, i: nat)
    requires i < |sends|
  {
    !Blocked(After(map[], sends[..i]), sends[i])
  }

  /** The chats that sends of `key` from the k-th on got through to. */
  function Reached(sends: seq<Send>, key: string, k: nat): set<string> {
    if |sends| <= k then {}
    else
      var n := |sends| - 1;
      Reached(sends[..n], key, k)
      + (if sends[n].key == key && LetThrough(sends, n) then {sends[n].chat} else {})
  }

  /** The stored record of a text is its window: when it opened, and the chats it has got through to since. */
  lemma {:induction false} RecordIsWindow(sends: seq<Send>, key: string)
    requires key != ""
    ensures var s, k := After(map[], sends), Opening(sends, key);
      && (key in s <==> k >= 0)
      && (k >= 0 ==> s[key] == Rec(Reached(sends, key, k), sends[k].now))
  {
    if sends != [] {
      var n := |sends| - 1;
      var before, x := sends[..n], sends[n];
      RecordIsWindow(before, key);
      assert sends == before + [x];
      AfterOneMore(map[], before, x);
      WindowStep(sends, key);
    }
  }

  lemma WindowStep(sends: seq<Send>, key: string)
    requires key != "" && sends != []
    requires var before := sends[..|sends| - 1];
      var s, k := After(map[], before), Opening(before, key);
      (key in s <==> k >= 0) && (k >= 0 ==> s[key] == Rec(Reached(before, key, k), before[k].now))
    ensures var before, x := sends[..|sends| - 1], sends[|sends| - 1];
      var t, k := Register(After(map[], before), x), Opening(sends, key);
      (key in t <==> k >= 0) && (k >= 0 ==> t[key] == Rec(Reached(sends, key, k), sends[k].now))
  {
    hide After;
    var n := |sends| - 1;
    var before, x := sends[..n], sends[n];
    var s, k := After(map[], before), Opening(before, key);
    if x.key == key {
      assert Reached(before, key, n) == {};
      assert {} + {x.chat} == {x.chat};
    } else if k >= 0 {
      assert Reached(sends, key, k) == Reached(before, key, k) + {} == Reached(before, key, k);
    }
    if k >= 0 && Blocked(s, x) && x.key == key {
      assert Reached(sends, key, k) == Reached(before, key, k) + {} == Reached(before, key, k);
    }
  }

  /** In every run, a window lets its text through to at most three chats. */
  lemma ThreePerWindow(sends: seq<Send>, key: string)
    requires key != "" && Opening(sends, key) >= 0
    ensures |Reached(sends, key, Opening(sends, key))| <= 3
  {
    RecordIsWindow(sends, key);
    RunKeepsOk(map[], sends);
  }

  /** And the next send is blocked exactly if the window is still open and has let the text through to three chats,
      this one not among them; what other texts did plays no part. */
  lemma BlockedExactly(sends: seq<Send>, x: Send)
    requires x.key != ""
    ensures var k := Opening(sends, x.key);
      Blocked(After(map[], sends), x)
      <==> k >= 0 && x.now - sends[k].now <= FANOUT_WINDOW_MS
           && |Reached(sends, x.key, k)| == 3 && x.chat !in Reached(sends, x.key, k)
  {
    RecordIsWindow(sends, x.key);
    RunKeepsOk(map[], sends);
  }

  /** Where the chats reached so far in the interval come from: the current window, or that and the one before
      if the current one began inside the interval, or the interval is over. */
  predicate Explained(s: State, key: string, a: int, clock: int, prev: set<string>, got: set<string>) {
    var cur := if key in s then s[key].chats else {};
    || got <= cur
    || (key in s && s[key].first >= a && |prev| <= FANOUT_MAX_CHATS && got <= prev + cur)
    || (clock > a + FANOUT_WINDOW_MS && |got| <= 2 * FANOUT_MAX_CHATS)
  }

  lemma ExplainedIsFew(s: State, key: string, a: int, clock: int, prev: set<string>, got: set<string>)
    requires StateOk(s) && Explained(s, key, a, clock, prev, got)
    ensures |got| <= 2 * FANOUT_MAX_CHATS
  {
    var cur := if key in s then s[key].chats else {};
    if got <= cur {
      Fewer(got, cur);
    } else if got <= prev + cur {
      Fewer(got, prev + cur);
    }
  }

  lemma {:induction false} Fewer<T>(a: set<T>, b: set<T>)
    requires a <= b
    ensures |a| <= |b|
  {
    if a != {} {
      var x :| x in a;
      Fewer(a - {x}, b - {x});
    }
  }

  lemma {:induction false} ThroughIsFew(s: State, sends: seq<Send>, key: string, a: int, clock: int,
                                        prev: set<string>, got: set<string>)
    requires StateOk(s) && key != "" && Ordered(sends)
    requires forall i :: 0 <= i < |sends| ==> sends[i].now >= clock
    requires key in s ==> s[key].first <= clock
    requires clock < a ==> got == {}
    requires Explained(s, key, a, clock, prev, got)
    ensures |got + Through(s, sends, key, a)| <= 2 * FANOUT_MAX_CHATS
    decreases |sends|
  {
    if sends == [] {
      ExplainedIsFew(s, key, a, clock, prev, got);
      assert got + {} == got;
    } else {
      var x, rest := sends[0], sends[1..];
      var hit, t := Hit(s, x, key, a), Register(s, x);
      RegisterKeepsOk(s, x);
      RestIsLater(sends);
      StaysExplained(s, x, key, a, clock, prev, got);
      ThroughIsFew(t, rest, key, a, x.now, Before(s, x, key, prev), got + hit);
      Regroup(got, hit, Through(t, rest, key, a));
    }
  }

  lemma Regroup<T>(a: set<T>, b: set<T>, c: set<T>)
    ensures (a + b) + c == a + (b + c)
  {
  }

  /** The chat a send adds to the count, if any. */
  function Hit(s: State, x: Send, key: string, a: int): set<string> {
    if x.key == key && !Blocked(s, x) && a <= x.now <= a + FANOUT_WINDOW_MS then {x.chat} else {}
  }

  /** The window before the current one, after a send. */
  function Before(s: State, x: Send, key: string, prev: set<string>): set<string> {
    if x.key == key && key in s && Expired(s[key], x.now) then s[key].chats else prev
  }

  lemma RestIsLater(sends: seq<Send>)
    requires sends != [] && Ordered(sends)
    ensures Ordered(sends[1..]) && forall i :: 0 <= i < |sends[1..]| ==> sends[1..][i].now >= sends[0].now
  {
  }

  lemma StaysExplained(s: State, x: Send, key: string, a: int, clock: int, prev: set<string>, got: set<string>)
    requires StateOk(s) && key != "" && x.now >= clock
    requires key in s ==> s[key].first <= clock
    requires clock < a ==> got == {}
    requires Explained(s, key, a, clock, prev, got)
    ensures Explained(Register(s, x), key, a, x.now, Before(s, x, key, prev), got + Hit(s, x, key, a))
    ensures x.now < a ==> got + Hit(s, x, key, a) == {}
    ensures key in Register(s, x) ==> Register(s, x)[key].first <= x.now
  {
    ExplainedIsFew(s, key, a, clock, prev, got);
    var t := Register(s, x);
    if x.key == key && key in s && Expired(s[key], x.now) {
      RestartExplained(s, x, a, clock, prev, got);
    }
  }

  /** A window that restarts inside the interval is the first to do so. */
  lemma RestartExplained(s: State, x: Send, a: int, clock: int, prev: set<string>, got: set<string>)
    requires StateOk(s) && x.key != "" && x.now >= clock && |got| <= 2 * FANOUT_MAX_CHATS
    requires x.key in s && s[x.key].first <= clock && Expired(s[x.key], x.now)
    requires clock < a ==> got == {}
    requires Explained(s, x.key, a, clock, prev, got)
    ensures var hit := if a <= x.now <= a + FANOUT_WINDOW_MS then {x.chat} else {};
      Explained(Register(s, x), x.key, a, x.now, s[x.key].chats, got + hit) && (x.now < a ==> got + hit == {})
  {
    if x.now > a + FANOUT_WINDOW_MS {
      assert got + {} == got;
    } else if got <= s[x.key].chats {
      assert got + {x.chat} <= s[x.key].chats + {x.chat};
    }
  }

  /** Although windows restart rather than slide, no stretch of 120 s lets a text through to more than six chats. */
  lemma SixPerStretch(sends: seq<Send>, key: string, a: int)
    requires key != "" && Ordered(sends)
    ensures |Through(map[], sends, key, a)| <= 6
  {
    if sends != [] {
      var first := sends[0].now;
      ThroughIsFew(map[], sends, key, a, first, {}, {});
      assert {} + Through(map[], sends, key, a) == Through(map[], sends, key, a);
    }
  }

  lemma OneMore(s: State, x: Send, rest: seq<Send>, t: State, a: int)
    requires t == Register(s, x) && !Blocked(s, x) && a <= x.now <= a + FANOUT_WINDOW_MS
    ensures Through(s, [x] + rest, x.key, a) == {x.chat} + Through(t, rest, x.key, a)
  {
    assert ([x] + rest)[1..] == rest;
  }

  /** A window about to run out, and then three more chats in the next. */
  const WORST: seq<Send> :=
    [Send("k", "a", 119990)] + ([Send("k", "b", 119991)] + ([Send("k", "c", 119992)]
      + ([Send("k", "d", 120001)] + ([Send("k", "e", 120002)] + ([Send("k", "f", 120003)] + [])))))

  function Window(chats: set<string>, first: int): State {
    map["k" := Rec(chats, first)]
  }

  lemma Counted(chats: set<string>, first: int, x: Send)
    requires x.key == "k" && x.now - first <= FANOUT_WINDOW_MS && |chats + {x.chat}| <= FANOUT_MAX_CHATS
    ensures !Blocked(Window(chats, first), x) && Register(Window(chats, first), x) == Window(chats + {x.chat}, first)
  {
    if x.chat !in chats {
      assert |chats + {x.chat}| == |chats| + 1;
    }
  }

  /** Six is what a stretch across a restart can see: the text has been with chat a since time 0. */
  lemma SixHappens()
    ensures Register(map[], Send("k", "a", 0)) == Window({"a"}, 0)
    ensures Through(Window({"a"}, 0), WORST, "k", 119990) == {"a", "b", "c", "d", "e", "f"}
  {
    var r5 := [Send("k", "f", 120003)] + [];
    var r4 := [Send("k", "e", 120002)] + r5;
    var r3 := [Send("k", "d", 120001)] + r4;
    LateWindow(r3, r4, r5);
    var r2 := [Send("k", "c", 119992)] + r3;
    var r1 := [Send("k", "b", 119991)] + r2;
    Counted({"a", "b"}, 0, Send("k", "c", 119992));
    assert {"a", "b"} + {"c"} == {"a", "b", "c"};
    OneMore(Window({"a", "b"}, 0), Send("k", "c", 119992), r3, Window({"a", "b", "c"}, 0), 119990);
    Counted({"a"}, 0, Send("k", "b", 119991));
    assert {"a"} + {"b"} == {"a", "b"};
    OneMore(Window({"a"}, 0), Send("k", "b", 119991), r2, Window({"a", "b"}, 0), 119990);
    Counted({"a"}, 0, Send("k", "a", 119990));
    assert {"a"} + {"a"} == {"a"};
    OneMore(Window({"a"}, 0), Send("k", "a", 119990), r1, Window({"a"}, 0), 119990);
  }

  lemma LateWindow(r3: seq<Send>, r4: seq<Send>, r5: seq<Send>)
    requires r5 == [Send("k", "f", 120003)] + [] && r4 == [Send("k", "e", 120002)] + r5
    requires r3 == [Send("k", "d", 120001)] + r4
    ensures Through(Window({"a", "b", "c"}, 0), r3, "k", 119990) == {"d", "e", "f"}
  {
    Counted({"d", "e"}, 120001, Send("k", "f", 120003));
    OneMore(Window({"d", "e"}, 120001), Send("k", "f", 120003), [], Window({"d", "e"} + {"f"}, 120001), 119990);
    Counted({"d"}, 120001, Send("k", "e", 120002));
    assert {"d"} + {"e"} == {"d", "e"};
    OneMore(Window({"d"}, 120001), Send("k", "e", 120002), r5, Window({"d", "e"}, 120001), 119990);
    OneMore(Window({"a", "b", "c"}, 0), Send("k", "d", 120001), r4, Window({"d"}, 120001), 119990);
  }
}
