/** `agent link`: one person's open_ids under one LP identity. */
module IdentityLinks {
  type Id = string

  /** The link table and, by identity, everything LP that is stored under it. */
  datatype Store<D> = Store(links: map<Id, Id>, owned: map<Id, D>)

  /** `found` is false when the lookup of `to` failed (canonicalId then answers with its input); `committed` is
      false when the transaction did. */
  datatype Command = Link(from: Id, to: Id, found: bool, committed: bool)

  /** cid(): the canonical identity, or the input itself. */
  function Canonical(links: map<Id, Id>, id: Id): Id {
    if id in links && links[id] != "" then links[id] else id
  }

  predicate WellFormed(c: Command) {
    c.from != "" && c.to != "" && !("--" <= c.from) && !("--" <= c.to)
  }

  function Target(links: map<Id, Id>, c: Command): Id {
    if c.found then Canonical(links, c.to) else c.to
  }

  /** No canonical identity is itself an alias, and none is empty. */
  predicate Flat(links: map<Id, Id>) {
    forall id :: id in links ==> links[id] !in links && links[id] != ""
  }

  function Relinked(links: map<Id, Id>, from: Id, canon: Id): map<Id, Id> {
    (map id | id in links :: if links[id] == from then canon else links[id])[from := canon]
  }

  function Apply<D>(s: Store<D>, c: Command): Store<D> {
    var canon := Target(s.links, c);
    if !WellFormed(c) || c.from == canon || !c.committed then s
    else Store(Relinked(s.links, c.from, canon), s.owned - {c.from})
  }

  function After<D>(s: Store<D>, cs: seq<Command>): Store<D>
    decreases |cs|
  {
    if cs == [] then s else After(Apply(s, cs[0]), cs[1..])
  }

  class Registry<D> {
    var links: map<Id, Id>
    var owned: map<Id, D>

    constructor (links: map<Id, Id>, owned: map<Id, D>)
      ensures this.links == links && this.owned == owned
    {
      this.links, this.owned := links, owned;
    }

    method CanonicalId(id: Id, found: bool) returns (canon: Id)
      ensures canon == if found then Canonical(links, id) else id
    {
      if found && id in links && links[id] != "" {
        return links[id];
      }
      return id;
    }

    /** cmd_link: the deletions, the repointing of from's aliases and the new link, in one transaction. */
    method Link(from: Id, to: Id, found: bool, committed: bool)
      modifies this
      ensures Store(links, owned) == Apply(Store(old(links), old(owned)), Command.Link(from, to, found, committed))
    {
      if from == "" || to == "" || "--" <= from || "--" <= to {
        return;
      }
      var canon := CanonicalId(to, found);
      if from == canon || !committed {
        return;
      }
      owned := owned - {from};
      links := map id | id in links :: if links[id] == from then canon else links[id];
      links := links[from := canon];
    }
  }

  /** A link that is made keeps the table flat exactly if it points at an identity that is no alias; a successful
      lookup of `to` guarantees that, a failed one does not. */
  lemma StaysFlatIff<D>(s: Store<D>, c: Command)
    requires Flat(s.links) && WellFormed(c) && c.committed && c.from != Target(s.links, c)
    ensures Flat(Apply(s, c).links) <==> c.found || c.to !in s.links
  {
    var t, canon := Apply(s, c).links, Target(s.links, c);
    assert t[c.from] == canon;
    assert c.to in s.links ==> c.to in t;
    if c.found || c.to !in s.links {
      assert canon !in s.links && canon != "";
      forall id | id in t ensures t[id] !in t && t[id] != "" {
        assert t[id] == canon || (id in s.links && t[id] == s.links[id] != c.from);
      }
    }
  }

  lemma {:induction false} TableStaysFlat<D>(s: Store<D>, cs: seq<Command>)
    requires Flat(s.links) && forall i :: 0 <= i < |cs| ==> cs[i].found
    ensures Flat(After(s, cs).links)
    decreases |cs|
  {
    if cs != [] {
      var c := cs[0];
      if WellFormed(c) && c.committed && c.from != Target(s.links, c) {
        StaysFlatIff(s, c);
      }
      TableStaysFlat(Apply(s, c), cs[1..]);
    }
  }

  /** So one lookup is final after any commands whose lookups succeeded: nobody's identity is somebody's alias. */
  lemma OneLookupIsFinal<D>(s: Store<D>, cs: seq<Command>, id: Id)
    requires Flat(s.links) && forall i :: 0 <= i < |cs| ==> cs[i].found
    ensures var links := After(s, cs).links;
      Canonical(links, Canonical(links, id)) == Canonical(links, id)
  {
    TableStaysFlat(s, cs);
  }

  /** After a link, `from` and everybody who resolved to it resolve to the target; everybody else resolves as before. */
  lemma AliasesFollow<D>(s: Store<D>, c: Command, id: Id)
    requires Flat(s.links) && WellFormed(c) && c.committed && c.from != Target(s.links, c)
    ensures Canonical(Apply(s, c).links, id)
         == (if id == c.from || Canonical(s.links, id) == c.from then Target(s.links, c) else Canonical(s.links, id))
  {
  }

  /** Two open_ids of one person stay one person through any links that do not name either of them again: what
      their identity is linked to, both follow. */
  lemma {:induction false} StayTogether<D>(s: Store<D>, cs: seq<Command>, a: Id, b: Id)
    requires Flat(s.links) && Canonical(s.links, a) == Canonical(s.links, b)
    requires forall i :: 0 <= i < |cs| ==> cs[i].found && cs[i].from != a && cs[i].from != b
    ensures Canonical(After(s, cs).links, a) == Canonical(After(s, cs).links, b)
    decreases |cs|
  {
    if cs != [] {
      var c := cs[0];
      if WellFormed(c) && c.committed && c.from != Target(s.links, c) {
        StaysFlatIff(s, c);
        AliasesFollow(s, c, a);
        AliasesFollow(s, c, b);
      }
      StayTogether(Apply(s, c), cs[1..], a, b);
    }
  }

  /** So a merge lasts: whatever is linked later, `from` and `to` keep one identity, unless one is linked away
      by name. */
  lemma MergeLasts<D>(s: Store<D>, c: Command, cs: seq<Command>)
    requires Flat(s.links) && WellFormed(c) && c.committed && c.found && c.from != Target(s.links, c)
    requires forall i :: 0 <= i < |cs| ==> cs[i].found && cs[i].from != c.from && cs[i].from != c.to
    ensures var links := After(Apply(s, c), cs).links;
      Canonical(links, c.from) == Canonical(links, c.to)
  {
    StaysFlatIff(s, c);
    AliasesFollow(s, c, c.from);
    AliasesFollow(s, c, c.to);
    StayTogether(Apply(s, c), cs, c.from, c.to);
  }

  predicate Executed<D>(s: Store<D>, c: Command) {
    WellFormed(c) && c.committed && c.from != Target(s.links, c)
  }

  /** Some command of the run linked this identity away. */
  predicate LinkedAway<D>(s: Store<D>, cs: seq<Command>, id: Id)
    decreases |cs|
  {
    cs != [] && ((Executed(s, cs[0]) && cs[0].from == id) || LinkedAway(Apply(s, cs[0]), cs[1..], id))
  }

  /** Everything stored is stored under an identity that is no alias, so its own lookup finds it. */
  predicate Reachable<D>(s: Store<D>) {
    forall id :: id in s.owned ==> id !in s.links
  }

  /** After any commands, whatever their lookups and transactions did: what was stored under an identity is still there
      unchanged exactly if nobody linked that identity away, nothing new is there, and all of it is reachable. */
  lemma {:induction false} OnlyFromIsDropped<D>(s: Store<D>, cs: seq<Command>, id: Id)
    requires Reachable(s)
    ensures Reachable(After(s, cs))
    ensures id in After(s, cs).owned <==> id in s.owned && !LinkedAway(s, cs, id)
    ensures id in After(s, cs).owned ==>
              After(s, cs).owned[id] == s.owned[id] && Canonical(After(s, cs).links, id) == id
    decreases |cs|
  {
    if cs != [] {
      OnlyFromIsDropped(Apply(s, cs[0]), cs[1..], id);
    }
  }

  const NOTHING: Store<nat> := Store(map[], map[])

  /** After a failed lookup it is not: c is put under a, which is itself an alias of b. */
  lemma FailedLookupSplits()
    ensures var links := After(NOTHING, [Link("a", "b", true, true), Link("c", "a", false, true)]).links;
      !Flat(links) && Canonical(links, "c") == "a" && Canonical(links, "a") == "b"
  {
    var cs := [Link("a", "b", true, true), Link("c", "a", false, true)];
    var s1 := Apply(NOTHING, cs[0]);
    assert s1.links == map["a" := "b"];
    var s2 := Apply(s1, cs[1]);
    assert cs[1..] == [cs[1]] && [cs[1]][1..] == [];
    assert After(s1, [cs[1]]) == s2;
    assert "c" in s2.links;
  }
}
