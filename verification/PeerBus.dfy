/** The roster and the inbox files of the peer bus. */
module PeerInbox {
  type Soul = string
  type Chat = string

  datatype Listen = All | AllInternal | Chats(ids: seq<Chat>)   // aliases already resolved

  /** An agent entry of the configuration; `enabled` is absent in most entries. */
  datatype Enabled = Unset | Yes | No
  datatype Agent = Agent(soul: Soul, peerCast: bool, enabled: Enabled, listen: Listen) {
    predicate Hears(chat: Chat, self: Soul) {
      soul != self && peerCast && enabled != No && (listen.All? || listen.AllInternal? || chat in listen.ids)
    }
  }

  function Peers(roster: seq<Agent>, chat: Chat, self: Soul): (r: seq<Soul>)
    ensures |r| <= |roster|
  {
    if roster == [] then []
    else
      var n := |roster| - 1;
      var before, raw := Peers(roster[..n], chat, self), roster[n];
      if raw.Hears(chat, self) && raw.soul !in before then before + [raw.soul] else before
  }

  function First<T>(s: seq<T>, n: nat): seq<T> {
    if n <= |s| then s[..n] else s
  }

  predicate Distinct<T(==)>(s: seq<T>) {
    forall i, j :: 0 <= i < j < |s| ==> s[i] != s[j]
  }

  /** A cue goes to every soul with an active collaborating entry that hears the chat, once each, never to its
      sender. */
  lemma {:induction false} PeersAreTheHearers(roster: seq<Agent>, chat: Chat, self: Soul)
    ensures Distinct(Peers(roster, chat, self)) && self !in Peers(roster, chat, self)
    ensures forall soul :: soul in Peers(roster, chat, self)
                           <==> exists a :: a in roster && a.soul == soul && a.Hears(chat, self)
  {
    if roster != [] {
      var n := |roster| - 1;
      var before, raw := Peers(roster[..n], chat, self), roster[n];
      PeersAreTheHearers(roster[..n], chat, self);
      assert roster == roster[..n] + [raw];
      assert forall a :: a in roster <==> a in roster[..n] || a == raw;
    }
  }

  /** Who hears a chat: another soul that collaborates, is not switched off, and listens to all chats or to this one. */
  lemma HearsIff(a: Agent, chat: Chat, self: Soul)
    ensures a.Hears(chat, self)
       <==> && a.soul != self && a.peerCast && (a.enabled == Unset || a.enabled == Yes)
            && (match a.listen
                case All => true
                case AllInternal => true
                case Chats(ids) => exists i :: 0 <= i < |ids| && ids[i] == chat)
  {
  }

  /** Peers are in the order of the roster: more entries only add peers behind. */
  lemma {:induction false} PeersInRosterOrder(roster: seq<Agent>, n: nat, chat: Chat, self: Soul)
    requires n <= |roster|
    ensures Peers(roster[..n], chat, self) <= Peers(roster, chat, self)
    decreases |roster|
  {
    if n == |roster| {
      assert roster[..n] == roster;
    } else {
      PeersInRosterOrder(roster[..|roster| - 1], n, chat, self);
      assert roster[..|roster| - 1][..n] == roster[..n];
    }
  }

  method ListPeersInChat(roster: seq<Agent>, chat: Chat, self: Soul) returns (peers: seq<Soul>)
    ensures peers == Peers(roster, chat, self)
  {
    var seen: set<Soul> := {};
    peers := [];
    for i := 0 to |roster|
      invariant peers == Peers(roster[..i], chat, self)
      invariant self !in seen && forall soul :: soul in seen <==> soul in peers
    {
      var raw := roster[i];
      assert roster[..i + 1][..i] == roster[..i];
      if raw.soul == self { continue; }
      if raw.soul in seen { continue; }
      if !raw.peerCast { continue; }
      if raw.enabled == No { continue; }
      if raw.listen.All? || raw.listen.AllInternal? {
        peers := peers + [raw.soul];
        seen := seen + {raw.soul};
        continue;
      }
      if chat in raw.listen.ids {
        peers := peers + [raw.soul];
        seen := seen + {raw.soul};
      }
    }
    assert roster[..|roster|] == roster;
  }

  datatype Cue = Cue(from: Soul, chat: Chat, topic: string, message: string, budget: int, depth: int)

  /** A line of an inbox file; a line that is no cue is kept as it is. */
  datatype Line = Malformed(text: string) | Stored(cue: Cue, read: bool)

  function Unread(lines: seq<Line>): seq<Cue> {
    if lines == [] then []
    else (if lines[0].Stored? && !lines[0].read then [lines[0].cue] else []) + Unread(lines[1..])
  }

  function Seen(line: Line): Line {
    if line.Stored? then Stored(line.cue, true) else line
  }

  lemma {:induction false} UnreadOfTwo(a: seq<Line>, b: seq<Line>)
    ensures Unread(a + b) == Unread(a) + Unread(b)
  {
    if a == [] {
      assert a + b == b;
    } else {
      assert (a + b)[1..] == a[1..] + b;
      UnreadOfTwo(a[1..], b);
    }
  }

  lemma {:induction false} NothingUnread(lines: seq<Line>)
    ensures Unread(lines) == [] <==> forall i :: 0 <= i < |lines| ==> lines[i] == Seen(lines[i])
  {
    if lines != [] {
      NothingUnread(lines[1..]);
      assert forall i :: 0 < i < |lines| ==> lines[i] == lines[1..][i - 1];
    }
  }

  /** The cues one wake-up answers: the latest of each chat, in the order the chats first appear. */
  function Collapse(cues: seq<Cue>): seq<Cue> {
    if cues == [] then [] else Put(Collapse(cues[..|cues| - 1]), cues[|cues| - 1])
  }

  function Put(kept: seq<Cue>, c: Cue): seq<Cue> {
    if kept == [] then [c]
    else if kept[0].chat == c.chat then [c] + kept[1..]
    else [kept[0]] + Put(kept[1..], c)
  }

  /** c is what was said last in its chat. */
  predicate LatestIn(cues: seq<Cue>, c: Cue) {
    exists i :: 0 <= i < |cues| && cues[i] == c && forall j :: i < j < |cues| ==> cues[j].chat != c.chat
  }

  predicate OnePerChat(cues: seq<Cue>) {
    forall i, j :: 0 <= i < j < |cues| ==> cues[i].chat != cues[j].chat
  }

  lemma {:induction false} PutFacts(kept: seq<Cue>, c: Cue)
    requires OnePerChat(kept)
    ensures OnePerChat(Put(kept, c))
    ensures forall d :: d in Put(kept, c) <==> d == c || (d in kept && d.chat != c.chat)
  {
    if kept != [] {
      var rest := kept[1..];
      assert OnePerChat(rest);
      assert forall d :: d in kept <==> d == kept[0] || d in rest;
      if kept[0].chat == c.chat {
        assert forall d :: d in rest ==> d.chat != c.chat;
        assert forall d :: d in [c] + rest <==> d == c || d in rest;
      } else {
        PutFacts(rest, c);
        var r := Put(rest, c);
        assert forall d :: d in [kept[0]] + r <==> d == kept[0] || d in r;
        forall j | 0 <= j < |r| ensures r[j].chat != kept[0].chat {
          assert r[j] in r;
        }
      }
    }
  }

  lemma {:induction false} CollapseKeepsTheLatest(cues: seq<Cue>)
    ensures OnePerChat(Collapse(cues))
    ensures forall d :: d in Collapse(cues) <==> LatestIn(cues, d)
  {
    if cues != [] {
      var n := |cues| - 1;
      var c := cues[n];
      CollapseKeepsTheLatest(cues[..n]);
      PutFacts(Collapse(cues[..n]), c);
      forall d ensures LatestIn(cues, d) <==> d == c || (LatestIn(cues[..n], d) && d.chat != c.chat) {
        LatestOfLonger(cues, d);
      }
    }
  }

  lemma LatestOfLonger(cues: seq<Cue>, d: Cue)
    requires cues != []
    ensures var n := |cues| - 1;
      LatestIn(cues, d) <==> d == cues[n] || (LatestIn(cues[..n], d) && d.chat != cues[n].chat)
  {
    var n := |cues| - 1;
    if LatestIn(cues[..n], d) && d.chat != cues[n].chat {
      var i :| 0 <= i < n && cues[..n][i] == d && forall j :: i < j < n ==> cues[..n][j].chat != d.chat;
      forall j | i < j < |cues| ensures cues[j].chat != d.chat {
        if j < n { assert cues[..n][j] == cues[j]; }
      }
      assert cues[i] == d;
    }
    if LatestIn(cues, d) && d != cues[n] {
      var i :| 0 <= i < |cues| && cues[i] == d && forall j :: i < j < |cues| ==> cues[j].chat != d.chat;
      assert cues[..n][i] == d;
    }
  }

  /** data/peer-bus: one inbox per soul. */
  class Bus {
    const roster: seq<Agent>
    var inboxes: map<Soul, seq<Line>>

    constructor (roster: seq<Agent>)
      ensures this.roster == roster && inboxes == map[]
    {
      this.roster, inboxes := roster, map[];
    }

    function Lines(soul: Soul): seq<Line>
      reads this
    {
      if soul in inboxes then inboxes[soul] else []
    }

    /** Appends the cue to every peer's inbox and to nobody else's; a process that dies on the way has reached only
        the first `reached` of them. */
    method BroadcastCue(cue: Cue, reached: nat) returns (peers: seq<Soul>)
      modifies this
      ensures peers == Peers(roster, cue.chat, cue.from)
      ensures forall soul :: Lines(soul)
                          == old(Lines(soul)) + (if soul in First(peers, reached) then [Stored(cue, false)] else [])
    {
      hide Peers;
      peers := ListPeersInChat(roster, cue.chat, cue.from);
      PeersAreTheHearers(roster, cue.chat, cue.from);
      var i := 0;
      while i < |peers| && i < reached
        invariant i <= |peers| && i <= reached
        invariant forall soul :: soul in peers[..i] ==> Lines(soul) == old(Lines(soul)) + [Stored(cue, false)]
        invariant forall soul :: soul !in peers[..i] ==> Lines(soul) == old(Lines(soul))
      {
        assert peers[i] !in peers[..i] && peers[..i + 1] == peers[..i] + [peers[i]];
        AppendTo(peers[i], cue);
        i := i + 1;
      }
      assert peers[..i] == First(peers, reached);
    }

    method AppendTo(soul: Soul, cue: Cue)
      modifies this
      ensures Lines(soul) == old(Lines(soul)) + [Stored(cue, false)]
      ensures forall other :: other != soul ==> Lines(other) == old(Lines(other))
    {
      inboxes := inboxes[soul := Lines(soul) + [Stored(cue, false)]];
    }

    method HasUnreadCue(soul: Soul) returns (any: bool)
      ensures any <==> Unread(Lines(soul)) != []
    {
      var lines := Lines(soul);
      NothingUnread(lines);
      any := exists l :: l in lines && l.Stored? && !l.read;
    }

    /** Oldest to newest; every cue of this inbox is read afterwards, every other line is where it was. */
    method ReadUnreadCues(soul: Soul) returns (unread: seq<Cue>)
      modifies this
      ensures unread == Unread(old(Lines(soul)))
      ensures |Lines(soul)| == |old(Lines(soul))|
      ensures forall i :: 0 <= i < |Lines(soul)| ==> Lines(soul)[i] == Seen(old(Lines(soul))[i])
      ensures forall other :: other != soul ==> Lines(other) == old(Lines(other))
      ensures Unread(Lines(soul)) == []
    {
      var lines := Lines(soul);
      var rewritten: seq<Line> := [];
      unread := [];
      for i := 0 to |lines|
        invariant inboxes == old(inboxes)
        invariant |rewritten| == i && forall k :: 0 <= k < i ==> rewritten[k] == Seen(lines[k])
        invariant unread == Unread(lines[..i])
      {
        assert lines[..i + 1] == lines[..i] + [lines[i]];
        UnreadOfTwo(lines[..i], [lines[i]]);
        assert [lines[i]][1..] == [];
        match lines[i]
        case Malformed(_) => rewritten := rewritten + [lines[i]];
        case Stored(cue, read) =>
          if !read {
            unread := unread + [cue];
          }
          rewritten := rewritten + [Stored(cue, true)];
      }
      assert lines[..|lines|] == lines;
      NothingUnread(rewritten);
      NothingUnread(lines);
      if |unread| > 0 {
        inboxes := inboxes[soul := rewritten];
      }
    }

    /** The debounced watcher callback up to its first await. */
    method Wake(soul: Soul) returns (latest: seq<Cue>)
      modifies this
      ensures latest == Collapse(Unread(old(Lines(soul)))) && Unread(Lines(soul)) == []
      ensures forall other :: other != soul ==> Lines(other) == old(Lines(other))
    {
      hide Put, Unread;
      var any := HasUnreadCue(soul);
      if !any {
        return [];
      }
      var cues := ReadUnreadCues(soul);
      latest := [];
      for i := 0 to |cues|
        invariant latest == Collapse(cues[..i])
      {
        assert cues[..i + 1][..i] == cues[..i];
        latest := Put(latest, cues[i]);
      }
      assert cues[..|cues|] == cues;
    }
  }
}
