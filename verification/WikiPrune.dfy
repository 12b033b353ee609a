/** The wiki tree of a report, cut down to what was read and the path above it. Parent links come from an
    outside service and may form a cycle. */
module WikiPrune {
  import opened Text

  type Token = string

  datatype WikiNode = WikiNode(token: Token, obj: Token, parent: Token, title: string, hasChild: bool)
  datatype TreeNode = TreeNode(token: Token, parent: Token, title: string, readers: nat, nonstaff: nat)

  datatype Option<T> = None | Some(value: T)

  predicate DistinctTokens(nodes: seq<WikiNode>) {
    forall i, j :: 0 <= i < j < |nodes| ==> nodes[i].token != nodes[j].token
  }

  /** What the service lists below a node, or below the space for "". */
  function Children(below: map<Token, seq<WikiNode>>, parent: Token): seq<WikiNode> {
    if parent in below then below[parent] else []
  }

  /** What the traversal asks about: the space, and the nodes found that say they have children. */
  ghost predicate Asked(all: seq<WikiNode>, parent: Token) {
    parent == "" || exists m :: m in all && m.hasChild && m.token == parent
  }

  ghost predicate WasListed(below: map<Token, seq<WikiNode>>, all: seq<WikiNode>, n: WikiNode) {
    exists parent :: Asked(all, parent) && n in Children(below, parent)
  }

  function Tokens(nodes: seq<WikiNode>): set<Token> {
    set n | n in nodes :: n.token
  }

  ghost predicate ListedBelow(below: map<Token, seq<WikiNode>>, all: seq<WikiNode>, parent: Token) {
    forall n :: n in Children(below, parent) ==> n.token in Tokens(all)
  }

  /** all lists a space: every token once, nothing that the service did not list, and nothing missing. */
  ghost predicate SpaceListing(below: map<Token, seq<WikiNode>>, all: seq<WikiNode>) {
    && DistinctTokens(all)
    && (forall n :: n in all ==> WasListed(below, all, n))
    && (forall parent :: Asked(all, parent) ==> ListedBelow(below, all, parent))
  }

  function Branches(nodes: seq<WikiNode>): nat {
    if nodes == [] then 0 else Branches(nodes[..|nodes| - 1]) + (if nodes[|nodes| - 1].hasChild then 1 else 0)
  }

  /** Only what the service listed was found, each token once; all that is to be asked is queued or asked already. */
  ghost predicate Traversing(below: map<Token, seq<WikiNode>>, all: seq<WikiNode>, queue: seq<Token>, asked: set<Token>)
  {
    && DistinctTokens(all)
    && (forall n :: n in all ==> WasListed(below, all, n))
    && (forall u :: u in queue ==> Asked(all, u))
    && (forall u :: Asked(all, u) ==> u in queue || u in asked)
  }

  ghost predicate AllListedBelow(below: map<Token, seq<WikiNode>>, all: seq<WikiNode>, done: set<Token>) {
    forall u :: u in done ==> ListedBelow(below, all, u)
  }

  lemma AskedAfter(all: seq<WikiNode>, node: WikiNode, u: Token)
    ensures Asked(all + [node], u) <==> Asked(all, u) || (node.hasChild && u == node.token)
  {
    if node.hasChild && u == node.token {
      assert node in all + [node];
    } else if Asked(all, u) && u != "" {
      var m :| m in all && m.hasChild && m.token == u;
      assert m in all + [node];
    }
  }

  lemma NodeFound(below: map<Token, seq<WikiNode>>, all: seq<WikiNode>, queue: seq<Token>, asked: set<Token>,
                  parent: Token, node: WikiNode)
    requires Traversing(below, all, queue, asked) && Asked(all, parent)
    requires node in Children(below, parent) && node.token !in Tokens(all)
    ensures Traversing(below, all + [node], if node.hasChild then queue + [node.token] else queue, asked)
    ensures Asked(all + [node], parent) && Tokens(all + [node]) == Tokens(all) + {node.token}
  {
    hide Asked;
    forall u ensures Asked(all + [node], u) <==> Asked(all, u) || (node.hasChild && u == node.token) {
      AskedAfter(all, node, u);
    }
    forall n | n in all + [node] ensures WasListed(below, all + [node], n) {
      if n in all {
        var above :| Asked(all, above) && n in Children(below, above);
        assert Asked(all + [node], above);
      }
    }
    assert forall k :: 0 <= k < |all| ==> all[k].token in Tokens(all);
  }

  lemma MoreListed(below: map<Token, seq<WikiNode>>, all: seq<WikiNode>, more: seq<WikiNode>, done: set<Token>)
    requires AllListedBelow(below, all, done) && Tokens(all) <= Tokens(more)
    ensures AllListedBelow(below, more, done)
  {
    forall u | u in done ensures ListedBelow(below, more, u) {
      assert ListedBelow(below, all, u);
    }
  }

  /** The inner loop: what is listed below a parent is taken unless it was seen. */
  method TakeListed(below: map<Token, seq<WikiNode>>, parent: Token, all0: seq<WikiNode>, seen0: set<Token>,
                    queue0: seq<Token>, ghost asked: set<Token>)
    returns (all: seq<WikiNode>, seen: set<Token>, queue: seq<Token>)
    requires seen0 == Tokens(all0) && Traversing(below, all0, queue0, asked) && Asked(all0, parent)
    ensures seen == Tokens(all) && seen0 <= seen && Traversing(below, all, queue, asked)
    ensures ListedBelow(below, all, parent)
    ensures Branches(all) - Branches(all0) == |queue| - |queue0|
  {
    hide Traversing, Asked, Children, Tokens;
    all, seen, queue := all0, seen0, queue0;
    var listed := Children(below, parent);
    for i := 0 to |listed|
      invariant seen == Tokens(all) && seen0 <= seen && Traversing(below, all, queue, asked) && Asked(all, parent)
      invariant forall n :: n in listed[..i] ==> n.token in seen
      invariant Branches(all) - Branches(all0) == |queue| - |queue0|
    {
      var node := listed[i];
      if node.token in seen { continue; }
      NodeFound(below, all, queue, asked, parent, node);
      assert (all + [node])[..|all|] == all;
      seen := seen + {node.token};
      all := all + [node];
      if node.hasChild {
        queue := queue + [node.token];
      }
    }
  }

  /** listWikiNodesDeep: breadth first, with its caps on visited parents and found nodes. */
  method ListWikiNodesDeep(below: map<Token, seq<WikiNode>>) returns (all: seq<WikiNode>)
    ensures DistinctTokens(all) && forall n :: n in all ==> WasListed(below, all, n)
    ensures Branches(all) < 500 && |all| < 5000 ==> SpaceListing(below, all)
  {
    hide WasListed, Asked, DistinctTokens, ListedBelow, Children, Tokens;
    all := [];
    var seen: set<Token> := {};
    var queue := [""];
    var visited := 0;
    ghost var done: set<Token> := {};
    NothingFound(below);
    while |queue| > 0 && visited < 500 && |all| < 5000
      invariant seen == Tokens(all) && Traversing(below, all, queue, done)
      invariant AllListedBelow(below, all, done)
      invariant visited + |queue| == 1 + Branches(all)
      decreases 500 - visited
    {
      var parent := queue[0];
      assert queue == [parent] + queue[1..];
      visited := visited + 1;
      ghost var before := all;
      all, seen, queue := TakeListed(below, parent, all, seen, queue[1..], done + {parent});
      MoreListed(below, before, all, done);
      done := done + {parent};
    }
  }

  lemma NothingFound(below: map<Token, seq<WikiNode>>)
    ensures Traversing(below, [], [""], {}) && Tokens([]) == {}
  {
  }

  /** byToken: of two entries with one token the later counts. */
  function ByToken(nodes: seq<WikiNode>): map<Token, WikiNode> {
    if nodes == [] then map[] else ByToken(nodes[..|nodes| - 1])[nodes[|nodes| - 1].token := nodes[|nodes| - 1]]
  }

  /** The token above t, if t is a node that names one. */
  function Up(tree: map<Token, WikiNode>, t: Token): Option<Token> {
    if t in tree && tree[t].parent != "" then Some(tree[t].parent) else None
  }

  /** k levels above t. */
  function Climb(tree: map<Token, WikiNode>, t: Token, k: nat): Option<Token> {
    if k == 0 then Some(t)
    else
      match Climb(tree, t, k - 1)
      case None => None
      case Some(u) => Up(tree, u)
  }

  ghost predicate IsAbove(tree: map<Token, WikiNode>, t: Token, reader: Token) {
    exists k: nat :: Climb(tree, reader, k) == Some(t)
  }

  /** t is a reader node or above one. */
  ghost predicate Wanted(tree: map<Token, WikiNode>, readers: set<Token>, t: Token) {
    exists r :: r in readers && IsAbove(tree, t, r)
  }

  predicate UpwardClosed(tree: map<Token, WikiNode>, keep: set<Token>) {
    forall t :: t in keep && Up(tree, t).Some? ==> Up(tree, t).value in keep
  }

  lemma ParentIsWanted(tree: map<Token, WikiNode>, readers: set<Token>, t: Token)
    requires Wanted(tree, readers, t) && Up(tree, t).Some?
    ensures Wanted(tree, readers, Up(tree, t).value)
  {
    var r :| r in readers && IsAbove(tree, t, r);
    var k: nat :| Climb(tree, r, k) == Some(t);
    assert Climb(tree, r, k + 1) == Up(tree, t);
    assert IsAbove(tree, Up(tree, t).value, r);
  }

  /** Anything closed under going up that has the readers has all that is above them. */
  lemma {:induction false} ClosedHasAllAbove(tree: map<Token, WikiNode>, keep: set<Token>, r: Token, k: nat)
    requires UpwardClosed(tree, keep) && r in keep && Climb(tree, r, k).Some?
    ensures Climb(tree, r, k).value in keep
  {
    if k > 0 {
      ClosedHasAllAbove(tree, keep, r, k - 1);
    }
  }

  lemma ClosedHasWanted(tree: map<Token, WikiNode>, keep: set<Token>, readers: set<Token>, t: Token)
    requires UpwardClosed(tree, keep) && readers <= keep && Wanted(tree, readers, t)
    ensures t in keep
  {
    var r :| r in readers && IsAbove(tree, t, r);
    var k: nat :| Climb(tree, r, k) == Some(t);
    ClosedHasAllAbove(tree, keep, r, k);
  }

  lemma ClosedIsComplete(tree: map<Token, WikiNode>, keep: set<Token>, readers: set<Token>)
    requires ClosedBut(tree, keep, {}) && readers <= keep && OnlyWanted(tree, readers, keep)
    ensures UpwardClosed(tree, keep) && forall t :: t in keep <==> Wanted(tree, readers, t)
  {
    forall t | Wanted(tree, readers, t) ensures t in keep {
      ClosedHasWanted(tree, keep, readers, t);
    }
  }

  lemma ReadersAreWanted(tree: map<Token, WikiNode>, readers: set<Token>)
    ensures OnlyWanted(tree, readers, readers) && ClosedBut(tree, readers, readers)
  {
    forall t | t in readers ensures Wanted(tree, readers, t) {
      assert Climb(tree, t, 0) == Some(t);
    }
  }

  function ParentTokens(tree: map<Token, WikiNode>): set<Token> {
    set t | t in tree :: tree[t].parent
  }

  /** Everything kept, but for the tokens in `open`, has what is above it kept. */
  predicate ClosedBut(tree: map<Token, WikiNode>, keep: set<Token>, open: set<Token>) {
    forall u :: u in keep && u !in open && Up(tree, u).Some? ==> Up(tree, u).value in keep
  }

  ghost predicate OnlyWanted(tree: map<Token, WikiNode>, readers: set<Token>, keep: set<Token>) {
    forall u :: u in keep ==> Wanted(tree, readers, u)
  }

  /** Walks up from t until it meets something already kept. Only the readers still to
      be walked from may be left with a parent that is not kept. */
  method WalkUp(tree: map<Token, WikiNode>, readers: set<Token>, pending: set<Token>, t: Token, keep0: set<Token>)
    returns (keep: set<Token>)
    requires t in keep0 && OnlyWanted(tree, readers, keep0) && ClosedBut(tree, keep0, pending + {t})
    ensures keep0 <= keep && OnlyWanted(tree, readers, keep) && ClosedBut(tree, keep, pending)
  {
    keep := keep0;
    var cur := t;
    while cur in tree && tree[cur].parent != ""
      invariant keep0 <= keep && cur in keep
      invariant OnlyWanted(tree, readers, keep) && ClosedBut(tree, keep, pending + {cur})
      decreases |ParentTokens(tree) - keep|
    {
      var parent := tree[cur].parent;
      if parent in keep { break; }
      assert parent in ParentTokens(tree) - keep;
      ParentIsWanted(tree, readers, cur);
      ghost var before := ParentTokens(tree) - keep;
      keep := keep + {parent};
      assert ParentTokens(tree) - keep == before - {parent};
      cur := parent;
    }
  }

  method WalkAll(tree: map<Token, WikiNode>, readers: set<Token>) returns (keep: set<Token>)
    ensures readers <= keep && OnlyWanted(tree, readers, keep) && ClosedBut(tree, keep, {})
  {
    hide OnlyWanted, ClosedBut;
    keep := readers;
    ReadersAreWanted(tree, readers);
    var pending := readers;
    while pending != {}
      invariant pending <= readers <= keep
      invariant OnlyWanted(tree, readers, keep) && ClosedBut(tree, keep, pending)
    {
      var token :| token in pending;
      var others := pending - {token};
      assert others + {token} == pending;
      keep := WalkUp(tree, readers, others, token, keep);
      pending := others;
    }
  }

  /** The pruning walk keeps exactly the reader nodes and everything above them. */
  method KeepSet(tree: map<Token, WikiNode>, readers: set<Token>) returns (keep: set<Token>)
    ensures forall t :: t in keep <==> Wanted(tree, readers, t)
    ensures UpwardClosed(tree, keep)
  {
    keep := WalkAll(tree, readers);
    ClosedIsComplete(tree, keep, readers);
  }

  function Viewers(views: map<Token, seq<string>>, n: WikiNode): seq<string> {
    if n.obj in views then views[n.obj] else []
  }

  function NonStaff(viewers: seq<string>, staff: set<string>): nat {
    if viewers == [] then 0
    else NonStaff(viewers[..|viewers| - 1], staff) + (if viewers[|viewers| - 1] in staff then 0 else 1)
  }

  function Row(views: map<Token, seq<string>>, staff: set<string>, n: WikiNode): TreeNode {
    TreeNode(n.token, n.parent, n.title, |Viewers(views, n)|, NonStaff(Viewers(views, n), staff))
  }

  const EXCLUDED_FILE_EXTENSIONS := [".png", ".gif", ".jpg", ".jpeg", ".pdf", ".md"]

  function LowerAll(s: string): (r: string)
    ensures |r| == |s| && forall i :: 0 <= i < |s| ==> r[i] == Lower(s[i])
  {
    if s == "" then "" else [Lower(s[0])] + LowerAll(s[1..])
  }

  predicate EndsWith(s: string, ending: string) {
    |s| >= |ending| && s[|s| - |ending|..] == ending
  }

  predicate IsExcludedFileTitle(title: string) {
    var t := LowerAll(TrimEnd(title));
    exists i :: 0 <= i < |EXCLUDED_FILE_EXTENSIONS| && EndsWith(t, EXCLUDED_FILE_EXTENSIONS[i])
  }

  /** The reader nodes: viewed, and not a file attachment by its title. */
  function Readers(nodes: seq<WikiNode>, views: map<Token, seq<string>>): set<Token> {
    set n | n in nodes && Viewers(views, n) != [] && !IsExcludedFileTitle(n.title) :: n.token
  }

  /** A letter or another character, in either case of the letter. */
  predicate SameLetter(c: char, small: char) {
    c == small || ('a' <= small <= 'z' && c as int == small as int - 'a' as int + 'A' as int)
  }

  /** The title ends, apart from blanks, in this ending, in any case. */
  predicate EndsLike(title: string, ending: string) {
    |title| >= |ending| && forall i :: 0 <= i < |ending| ==> SameLetter(title[|title| - |ending| + i], ending[i])
  }

  lemma {:induction false} TrimsBlanks(title: string, blanks: string)
    requires (title != "" ==> !IsSpace(title[|title| - 1])) && forall i :: 0 <= i < |blanks| ==> IsSpace(blanks[i])
    ensures TrimEnd(title + blanks) == title
    decreases |blanks|
  {
    var s := title + blanks;
    if blanks == "" {
      assert s == title;
    } else {
      assert s[..|s| - 1] == title + blanks[..|blanks| - 1];
      TrimsBlanks(title, blanks[..|blanks| - 1]);
    }
  }

  lemma EndsWithIff(title: string, ending: string)
    requires forall i :: 0 <= i < |ending| ==> Lower(ending[i]) == ending[i]
    ensures EndsWith(LowerAll(title), ending) <==> EndsLike(title, ending)
  {
    hide LowerAll;
    var t, n := LowerAll(title), |title| - |ending|;
    if n >= 0 {
      forall i | 0 <= i < |ending| ensures t[n..][i] == ending[i] <==> SameLetter(title[n + i], ending[i]) {
        assert t[n..][i] == Lower(title[n + i]);
        LowerIff(title[n + i], ending[i]);
      }
      if EndsLike(title, ending) {
        assert t[n..] == ending;
      }
    }
  }

  lemma LowerIff(c: char, small: char)
    requires Lower(small) == small
    ensures Lower(c) == small <==> SameLetter(c, small)
  {
  }

  /** A title is a file attachment exactly if it ends in one of the six extensions, in any case, with or without blanks
      after it. */
  lemma ExcludedIff(title: string, blanks: string)
    requires (title != "" ==> !IsSpace(title[|title| - 1])) && forall i :: 0 <= i < |blanks| ==> IsSpace(blanks[i])
    ensures IsExcludedFileTitle(title + blanks)
       <==> || EndsLike(title, ".png") || EndsLike(title, ".gif") || EndsLike(title, ".jpg")
            || EndsLike(title, ".jpeg") || EndsLike(title, ".pdf") || EndsLike(title, ".md")
  {
    hide EndsWith, EndsLike, LowerAll;
    TrimsBlanks(title, blanks);
    var extensions := EXCLUDED_FILE_EXTENSIONS;
    forall i | 0 <= i < |extensions|
      ensures EndsWith(LowerAll(title), extensions[i]) <==> EndsLike(title, extensions[i])
    {
      EndsWithIff(title, extensions[i]);
    }
    assert extensions[0] == ".png" && extensions[1] == ".gif" && extensions[2] == ".jpg";
    assert extensions[3] == ".jpeg" && extensions[4] == ".pdf" && extensions[5] == ".md";
  }

  /** A token is a reader's exactly if a node with it is no attachment and its document was viewed. */
  lemma ReaderIff(nodes: seq<WikiNode>, views: map<Token, seq<string>>, t: Token)
    ensures t in Readers(nodes, views)
       <==> exists n :: n in nodes && n.token == t && !IsExcludedFileTitle(n.title)
                        && n.obj in views && views[n.obj] != []
  {
    if t in Readers(nodes, views) {
      var n :| n in nodes && Viewers(views, n) != [] && !IsExcludedFileTitle(n.title) && n.token == t;
      assert n.obj in views;
    }
    if n :| n in nodes && n.token == t && !IsExcludedFileTitle(n.title) && n.obj in views && views[n.obj] != [] {
      assert Viewers(views, n) != [];
    }
  }

  /** The viewers that are not staff. */
  function Outsiders(viewers: seq<string>, staff: set<string>): set<nat> {
    set i: nat | i < |viewers| && viewers[i] !in staff
  }

  /** A row says how many viewed the document, and how many of them are not staff. */
  lemma {:induction false} RowCounts(views: map<Token, seq<string>>, staff: set<string>, n: WikiNode)
    requires n.obj in views
    ensures Row(views, staff, n).readers == |views[n.obj]|
    ensures Row(views, staff, n).nonstaff == |Outsiders(views[n.obj], staff)|
  {
    NonStaffCounts(views[n.obj], staff);
  }

  lemma {:induction false} NonStaffCounts(viewers: seq<string>, staff: set<string>)
    ensures NonStaff(viewers, staff) == |Outsiders(viewers, staff)|
  {
    if viewers != [] {
      var n := |viewers| - 1;
      var before := Outsiders(viewers[..n], staff);
      NonStaffCounts(viewers[..n], staff);
      assert Outsiders(viewers, staff) == before + (if viewers[n] in staff then {} else {n});
    }
  }

  /** The rows of the nodes that are wanted, in the order of the nodes. */
  ghost function PrunedRows(tree: map<Token, WikiNode>, readers: set<Token>, views: map<Token, seq<string>>,
                            staff: set<string>, nodes: seq<WikiNode>): seq<TreeNode>
  {
    if nodes == [] then []
    else
      var n := nodes[|nodes| - 1];
      PrunedRows(tree, readers, views, staff, nodes[..|nodes| - 1])
      + (if Wanted(tree, readers, n.token) then [Row(views, staff, n)] else [])
  }

  method CountNonStaff(viewers: seq<string>, staff: set<string>) returns (count: nat)
    ensures count == NonStaff(viewers, staff)
  {
    count := 0;
    for i := 0 to |viewers|
      invariant count == NonStaff(viewers[..i], staff)
    {
      assert viewers[..i + 1][..i] == viewers[..i];
      if viewers[i] !in staff {
        count := count + 1;
      }
    }
    assert viewers[..|viewers|] == viewers;
  }

  /** buildWikiTreeNodes once the nodes, viewers and staff are known. */
  method BuildWikiTreeNodes(nodes: seq<WikiNode>, views: map<Token, seq<string>>, staff: set<string>)
    returns (rows: seq<TreeNode>)
    ensures rows == PrunedRows(ByToken(nodes), Readers(nodes, views), views, staff, nodes)
  {
    var tree := ByToken(nodes);
    var readers := Readers(nodes, views);
    var keep := KeepSet(tree, readers);
    rows := [];
    for i := 0 to |nodes|
      invariant rows == PrunedRows(tree, readers, views, staff, nodes[..i])
    {
      assert nodes[..i + 1][..i] == nodes[..i];
      if nodes[i].token in keep {
        var viewers := Viewers(views, nodes[i]);
        var nonstaff := CountNonStaff(viewers, staff);
        rows := rows + [TreeNode(nodes[i].token, nodes[i].parent, nodes[i].title, |viewers|, nonstaff)];
      }
    }
    assert nodes[..|nodes|] == nodes;
  }

  lemma {:induction false} RowsAreTheWanted(tree: map<Token, WikiNode>, readers: set<Token>,
                                            views: map<Token, seq<string>>, staff: set<string>,
                                            nodes: seq<WikiNode>, n: WikiNode)
    requires n in nodes && Wanted(tree, readers, n.token)
    ensures Row(views, staff, n) in PrunedRows(tree, readers, views, staff, nodes)
  {
    var last := |nodes| - 1;
    if n != nodes[last] {
      assert nodes == nodes[..last] + [nodes[last]];
      RowsAreTheWanted(tree, readers, views, staff, nodes[..last], n);
    }
  }

  lemma {:induction false} RowsAreOnlyWanted(tree: map<Token, WikiNode>, readers: set<Token>,
                                             views: map<Token, seq<string>>, staff: set<string>,
                                             nodes: seq<WikiNode>, row: TreeNode)
    requires row in PrunedRows(tree, readers, views, staff, nodes)
    ensures Wanted(tree, readers, row.token)
  {
    var last := |nodes| - 1;
    if row in PrunedRows(tree, readers, views, staff, nodes[..last]) {
      RowsAreOnlyWanted(tree, readers, views, staff, nodes[..last], row);
    }
  }

  lemma {:induction false} ClimbOn(tree: map<Token, WikiNode>, r: Token, t: Token, k: nat, j: nat)
    requires Climb(tree, r, k) == Some(t)
    ensures Climb(tree, r, k + j) == Climb(tree, t, j)
  {
    if j > 0 {
      ClimbOn(tree, r, t, k, j - 1);
    }
  }

  lemma AboveWanted(tree: map<Token, WikiNode>, readers: set<Token>, t: Token, below: Token)
    requires Wanted(tree, readers, below) && IsAbove(tree, t, below)
    ensures Wanted(tree, readers, t)
  {
    var r :| r in readers && IsAbove(tree, below, r);
    var k: nat :| Climb(tree, r, k) == Some(below);
    var j: nat :| Climb(tree, below, j) == Some(t);
    ClimbOn(tree, r, below, k, j);
    assert IsAbove(tree, t, r);
  }

  /** When a drawn node hangs below a drawn node: the row of `above` is there whenever the row of n below it is, for
      any readers, exactly if the link of n is on the way up from the entry that counts for its token. */
  lemma ParentDrawnIff(nodes: seq<WikiNode>, views: map<Token, seq<string>>, staff: set<string>,
                       n: WikiNode, above: WikiNode)
    requires n in nodes && above in nodes && n.parent == above.token
    ensures (forall readers ::
               Row(views, staff, n) in PrunedRows(ByToken(nodes), readers, views, staff, nodes) ==>
                 Row(views, staff, above) in PrunedRows(ByToken(nodes), readers, views, staff, nodes))
            <==> IsAbove(ByToken(nodes), n.parent, n.token)
  {
    var tree := ByToken(nodes);
    if IsAbove(tree, n.parent, n.token) {
      forall readers | Row(views, staff, n) in PrunedRows(tree, readers, views, staff, nodes)
        ensures Row(views, staff, above) in PrunedRows(tree, readers, views, staff, nodes)
      {
        RowsAreOnlyWanted(tree, readers, views, staff, nodes, Row(views, staff, n));
        AboveWanted(tree, readers, n.parent, n.token);
        RowsAreTheWanted(tree, readers, views, staff, nodes, above);
      }
    } else {
      ReadersAreWanted(tree, {n.token});
      RowsAreTheWanted(tree, {n.token}, views, staff, nodes, n);
      if Row(views, staff, above) in PrunedRows(tree, {n.token}, views, staff, nodes) {
        RowsAreOnlyWanted(tree, {n.token}, views, staff, nodes, Row(views, staff, above));
        assert false;
      }
    }
  }

  lemma {:induction false} TokenCounts(nodes: seq<WikiNode>, n: WikiNode)
    requires DistinctTokens(nodes) && n in nodes
    ensures n.token in ByToken(nodes) && ByToken(nodes)[n.token] == n
  {
    var last := |nodes| - 1;
    if n != nodes[last] {
      assert nodes == nodes[..last] + [nodes[last]];
      TokenCounts(nodes[..last], n);
    }
  }

  /** So where no token is listed twice, as in one space, no drawn node loses a parent that the wiki has. */
  lemma NoOrphans(nodes: seq<WikiNode>, readers: set<Token>, views: map<Token, seq<string>>, staff: set<string>,
                  n: WikiNode, above: WikiNode)
    requires DistinctTokens(nodes) && n in nodes && above in nodes && n.parent == above.token != ""
    requires Row(views, staff, n) in PrunedRows(ByToken(nodes), readers, views, staff, nodes)
    ensures Row(views, staff, above) in PrunedRows(ByToken(nodes), readers, views, staff, nodes)
  {
    var tree := ByToken(nodes);
    TokenCounts(nodes, n);
    assert Climb(tree, n.token, 0) == Some(n.token);
    assert Climb(tree, n.token, 1) == Some(n.parent);
    ParentDrawnIff(nodes, views, staff, n, above);
  }

  lemma FolderAndPage(p: WikiNode, a: WikiNode)
    requires p.hasChild && !a.hasChild && p.token != a.token && p.token != ""
    ensures SpaceListing(map["" := [p], p.token := [a]], [p, a])
  {
    var below, all := map["" := [p], p.token := [a]], [p, a];
    assert Asked(all, "") && p in Children(below, "");
    assert Asked(all, p.token) && a in Children(below, p.token);
  }

  lemma FourNodes(p: WikiNode, a1: WikiNode, q: WikiNode, a2: WikiNode)
    requires a1.token == a2.token == "a" && p.token == "p" && q.token == "q"
    ensures ByToken([p, a1] + [q, a2]) == map["a" := a2, "p" := p, "q" := q]
  {
    assert [p, a1] + [q, a2] == [p, a1, q, a2];
    assert [p, a1, q, a2][..3] == [p, a1, q] && [p, a1, q][..2] == [p, a1];
    assert [p, a1][..1] == [p] && [p][..0] == [];
    assert ByToken([p]) == map["p" := p];
    assert ByToken([p, a1]) == map["a" := a1, "p" := p];
    assert ByToken([p, a1, q]) == map["a" := a1, "p" := p, "q" := q];
  }

  /** Only the reader and the folder in the later space are kept. */
  lemma EarlierFolderDropped(p: WikiNode, a1: WikiNode, q: WikiNode, a2: WikiNode, views: map<Token, seq<string>>)
    requires a1.token == a2.token == "a" && p.token == "p" && q.token == "q" && a2.parent == "q" && q.parent == ""
    ensures var nodes := [p, a1] + [q, a2];
      var rows := PrunedRows(ByToken(nodes), {"a"}, views, {}, nodes);
      Row(views, {}, a1) in rows && forall row :: row in rows ==> row.token != "p"
  {
    hide PrunedRows, ByToken;
    var nodes := [p, a1] + [q, a2];
    FourNodes(p, a1, q, a2);
    var tree := ByToken(nodes);
    ReadersAreWanted(tree, {"a"});
    RowsAreTheWanted(tree, {"a"}, views, {}, nodes, a1);
    assert UpwardClosed(tree, {"a", "q"});
    forall row | row in PrunedRows(tree, {"a"}, views, {}, nodes) ensures row.token != "p" {
      RowsAreOnlyWanted(tree, {"a"}, views, {}, nodes, row);
      ClosedHasWanted(tree, {"a", "q"}, {"a"}, row.token);
    }
  }

  lemma OnlyPageRead(p: WikiNode, a1: WikiNode, q: WikiNode, a2: WikiNode, views: map<Token, seq<string>>)
    requires p.obj !in views && q.obj !in views && a1.obj in views && views[a1.obj] != []
    requires a1.token == a2.token == "a" && a1.title == ""
    ensures Readers([p, a1] + [q, a2], views) == {"a"}
  {
    hide IsExcludedFileTitle;
    NoTitleKept();
    assert a1 in [p, a1] + [q, a2] && Viewers(views, a1) != [];
  }

  lemma NoTitleKept()
    ensures !IsExcludedFileTitle("")
  {
    hide IsExcludedFileTitle;
    assert "" + "" == "";
    ExcludedIff("", "");
  }

  /** A node that two spaces list, as when it is moved while the report asks, is drawn twice, but only the parent in the
      later space is kept: its row in the earlier space hangs below nothing. */
  lemma ListedTwiceOrphans()
    ensures var p, a1 := WikiNode("p", "folder", "", "", true), WikiNode("a", "page", "p", "", false);
      var q, a2 := WikiNode("q", "shelf", "", "", true), WikiNode("a", "page", "q", "", false);
      var nodes, views := [p, a1] + [q, a2], map["page" := ["reader"]];
      var rows := PrunedRows(ByToken(nodes), Readers(nodes, views), views, {}, nodes);
      && SpaceListing(map["" := [p], "p" := [a1]], [p, a1])
      && SpaceListing(map["" := [q], "q" := [a2]], [q, a2])
      && Row(views, {}, a1) in rows && forall row :: row in rows ==> row.token != "p"
  {
    hide PrunedRows, ByToken, SpaceListing, Row;
    var p, a1 := WikiNode("p", "folder", "", "", true), WikiNode("a", "page", "p", "", false);
    var q, a2 := WikiNode("q", "shelf", "", "", true), WikiNode("a", "page", "q", "", false);
    var nodes, views := [p, a1] + [q, a2], map["page" := ["reader"]];
    FolderAndPage(p, a1);
    FolderAndPage(q, a2);
    OnlyPageRead(p, a1, q, a2, views);
    EarlierFolderDropped(p, a1, q, a2, views);
  }
}
