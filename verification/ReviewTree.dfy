/** The tree of review settings: which level a repository's branch rules come from, whom a change to
    one level reaches, and which levels it changes the rules of. */
module ReviewTree {
  import opened Lists
  import opened BranchRules

  datatype Kind = Connection | Group | Repo

  /** What a level holds of branch rules: a list of its own, none ([]), or settings that do not parse. */
  datatype Settings = Unreadable | Readable(rules: seq<Rule>)

  /** A level. id is 0 for a rowless repository, which no other level has as parent. */
  datatype Node = Node(id: nat, kind: Kind, parent: nat, installation: nat, repo: string, removed: bool,
    settings: Settings)

  datatype Tree = Tree(nodes: seq<Node>, byId: map<nat, Node>, appRepos: map<nat, seq<string>>)

  predicate AllDistinct(repos: seq<string>) { forall i, j :: 0 <= i < j < |repos| ==> repos[i] != repos[j] }

  /** The index agrees with the rows: ids are positive and name one row each. */
  ghost predicate Indexed(t: Tree) {
    && (forall i :: 0 <= i < |t.nodes| ==> t.nodes[i].id in t.byId && t.byId[t.nodes[i].id] == t.nodes[i])
    && (forall i, j :: 0 <= i < j < |t.nodes| ==> t.nodes[i].id != t.nodes[j].id)
    && (forall id :: id in t.byId ==> id > 0 && t.byId[id].id == id && t.byId[id] in t.nodes)
    && (forall c :: c in t.appRepos ==> AllDistinct(t.appRepos[c]))
  }

  function Lookup(t: Tree, id: nat): Option<Node> {
    if id in t.byId then Some(t.byId[id]) else None
  }

  const DEPTH: nat := 3

  /** The connection reached from n within k levels. */
  function ConnectionFrom(t: Tree, n: Node, k: nat): Option<Node>
    decreases k
  {
    if k == 0 then None
    else if n.kind.Connection? then Some(n)
    else match Lookup(t, n.parent) case None => None case Some(p) => ConnectionFrom(t, p, k - 1)
  }

  function ConnectionOf(t: Tree, n: Node): Option<Node> { ConnectionFrom(t, n, DEPTH) }

  /** At most k levels from n up, broadest first. */
  function ChainFrom(t: Tree, n: Node, k: nat): (c: seq<Node>)
    ensures k > 0 ==> c != [] && c[|c| - 1] == n
    decreases k
  {
    if k == 0 then []
    else if n.kind.Connection? then [n]
    else match Lookup(t, n.parent) case None => [n] case Some(p) => ChainFrom(t, p, k - 1) + [n]
  }

  function Chain(t: Tree, n: Node): seq<Node> { ChainFrom(t, n, DEPTH) }

  predicate HasList(n: Node) { n.settings.Readable? && n.settings.rules != [] }

  /** reviewRulesSource: the nearest level of the chain, the node itself first, that holds a list. */
  function Source(chain: seq<Node>): (r: Option<Node>)
    ensures r.Some? ==> r.value in chain && HasList(r.value)
  {
    if chain == [] then None
    else if HasList(chain[|chain| - 1]) then Some(chain[|chain| - 1])
    else Source(chain[..|chain| - 1])
  }

  predicate AllReadable(chain: seq<Node>) { forall i :: 0 <= i < |chain| ==> chain[i].settings.Readable? }

  /** review.Resolve's fold, broadest level first, over the built-in default. */
  function Folded(chain: seq<Node>, rules: seq<Rule>): seq<Rule>
    requires AllReadable(chain)
  {
    if chain == [] then rules
    else
      assert chain[0].settings.Readable?;
      Folded(chain[1..], if chain[0].settings.rules != [] then chain[0].settings.rules else rules)
  }

  datatype Resolution = Broken | Rules(rules: seq<Rule>)

  /** resolveChain: no level's rules are known through one that does not parse. */
  function Resolve(chain: seq<Node>, builtin: seq<Rule>): Resolution {
    if AllReadable(chain) then Rules(Folded(chain, builtin)) else Broken
  }

  /** The branch rules a level runs. */
  function Effective(t: Tree, n: Node, builtin: seq<Rule>): Resolution { Resolve(Chain(t, n), builtin) }

  lemma {:induction false} FoldedSnoc(chain: seq<Node>, n: Node, rules: seq<Rule>)
    requires AllReadable(chain) && n.settings.Readable?
    ensures AllReadable(chain + [n])
    ensures Folded(chain + [n], rules) == if HasList(n) then n.settings.rules else Folded(chain, rules)
  {
    if chain == [] {
      assert (chain + [n])[1..] == [];
    } else {
      assert (chain + [n])[1..] == chain[1..] + [n];
      FoldedSnoc(chain[1..], n, if chain[0].settings.rules != [] then chain[0].settings.rules else rules);
    }
  }

  /** The source is the level the resolution takes its list from. */
  lemma {:induction false} SourceIsResolved(chain: seq<Node>, builtin: seq<Rule>)
    requires AllReadable(chain)
    ensures Folded(chain, builtin) == match Source(chain) case None => builtin case Some(m) => m.settings.rules
  {
    if chain != [] {
      var front, last := chain[..|chain| - 1], chain[|chain| - 1];
      assert chain == front + [last];
      SourceIsResolved(front, builtin);
      FoldedSnoc(front, last, builtin);
    }
  }

  // ---- the shape of chains ----

  /** Where a connection is reached within k levels, more levels change nothing. */
  lemma {:induction false} ChainStable(t: Tree, n: Node, k: nat)
    requires k <= DEPTH && ConnectionFrom(t, n, k).Some?
    ensures ConnectionFrom(t, n, k) == ConnectionOf(t, n) && ChainFrom(t, n, k) == Chain(t, n)
  {
    if k < DEPTH {
      Longer(t, n, k, DEPTH);
    }
  }

  lemma {:induction false} Longer(t: Tree, n: Node, k: nat, l: nat)
    requires k <= l && ConnectionFrom(t, n, k).Some?
    ensures ConnectionFrom(t, n, l) == ConnectionFrom(t, n, k) && ChainFrom(t, n, l) == ChainFrom(t, n, k)
    decreases k
  {
    if !n.kind.Connection? {
      Longer(t, Lookup(t, n.parent).value, k - 1, l - 1);
    }
  }

  /** Every level of a chain that reaches its connection has the chain above it for its own, so no level
      stands twice in one. */
  lemma {:induction false} ChainNests(t: Tree, n: Node, k: nat, i: nat)
    requires k <= DEPTH && ConnectionFrom(t, n, k).Some? && i < |ChainFrom(t, n, k)|
    ensures ChainFrom(t, n, k)[..i + 1] == Chain(t, ChainFrom(t, n, k)[i])
    ensures ConnectionOf(t, ChainFrom(t, n, k)[i]) == ConnectionFrom(t, n, k)
    decreases k
  {
    var c := ChainFrom(t, n, k);
    if i == |c| - 1 {
      assert c[..i + 1] == c;
      ChainStable(t, n, k);
    } else {
      var p := Lookup(t, n.parent).value;
      ChainNests(t, p, k - 1, i);
      assert c[..i + 1] == ChainFrom(t, p, k - 1)[..i + 1];
    }
  }

  // ---- followers ----

  /** A live repository row under n, reached through the same connection. */
  ghost predicate Below(t: Tree, n: Node, r: Node) {
    && r in t.nodes && r.kind.Repo? && !r.removed
    && ConnectionOf(t, r).Some? && ConnectionOf(t, r) == ConnectionOf(t, n)
    && n in Chain(t, r)
  }

  predicate Follows(t: Tree, n: Node, r: Node) { Source(Chain(t, r)) == Source(Chain(t, n)) }

  /** The repositories n's connection reaches through its installation that have no row of their own. */
  predicate Rowless(t: Tree, n: Node, repo: string) {
    && n.kind.Connection? && n.installation in t.appRepos && repo in t.appRepos[n.installation]
    && forall i :: 0 <= i < |t.nodes| ==> !(t.nodes[i].kind.Repo? && t.nodes[i].repo == repo)
  }

  ghost function Following(t: Tree, n: Node, nodes: seq<Node>): set<Node> {
    set r | r in nodes && Below(t, n, r) && Follows(t, n, r)
  }

  ghost function Owning(t: Tree, n: Node, nodes: seq<Node>): set<Node> {
    set r | r in nodes && Below(t, n, r) && !Follows(t, n, r)
  }

  ghost function RowlessUnder(t: Tree, n: Node, repos: seq<string>): set<string> {
    set repo | repo in repos && Rowless(t, n, repo)
  }

  function AppRepos(t: Tree, n: Node): seq<string> {
    if n.installation in t.appRepos then t.appRepos[n.installation] else []
  }

  /** reviewFollowers: how many repositories below n run the rules n runs, and how many run others. */
  method Followers(t: Tree, n: Node) returns (follow: nat, own: nat)
    requires Indexed(t) && n in t.nodes
    ensures ConnectionOf(t, n).None? ==> follow == own == 0
    ensures ConnectionOf(t, n).Some? ==>
      follow == |Following(t, n, t.nodes)| + |RowlessUnder(t, n, AppRepos(t, n))| && own == |Owning(t, n, t.nodes)|
  {
    follow, own := 0, 0;
    var conn := ConnectionOf(t, n);
    if conn.None? {
      return;
    }
    var src := Source(Chain(t, n));
    for i := 0 to |t.nodes|
      invariant follow == |Following(t, n, t.nodes[..i])| && own == |Owning(t, n, t.nodes[..i])|
    {
      var r := t.nodes[i];
      OneRowMore(t, n, i);
      if !r.kind.Repo? || r.removed || ConnectionOf(t, r) != conn {
        continue;
      }
      var chain := Chain(t, r);
      if n !in chain {
        continue;
      }
      if Source(chain) == src {
        follow := follow + 1;
      } else {
        own := own + 1;
      }
    }
    assert t.nodes[..|t.nodes|] == t.nodes;
    if n.kind.Connection? {
      var more := FollowersWithoutRows(t, n);
      follow := follow + more;
    } else {
      assert RowlessUnder(t, n, AppRepos(t, n)) == {};
    }
  }

  lemma {:induction false} RowlessGrows(t: Tree, n: Node, repos: seq<string>, i: nat)
    requires AllDistinct(repos) && i < |repos|
    ensures |RowlessUnder(t, n, repos[..i + 1])| ==
      |RowlessUnder(t, n, repos[..i])| + if Rowless(t, n, repos[i]) then 1 else 0
  {
    var was, now := RowlessUnder(t, n, repos[..i]), RowlessUnder(t, n, repos[..i + 1]);
    assert repos[..i + 1] == repos[..i] + [repos[i]];
    assert repos[i] !in was;
    assert now == if Rowless(t, n, repos[i]) then was + {repos[i]} else was;
  }

  method FollowersWithoutRows(t: Tree, n: Node) returns (more: nat)
    requires AllDistinct(AppRepos(t, n))
    ensures more == |RowlessUnder(t, n, AppRepos(t, n))|
  {
    more := 0;
    var repos := AppRepos(t, n);
    for i := 0 to |repos|
      invariant more == |RowlessUnder(t, n, repos[..i])|
    {
      RowlessGrows(t, n, repos, i);
      if Rowless(t, n, repos[i]) {
        more := more + 1;
      }
    }
    assert repos[..|repos|] == repos;
  }

  lemma {:induction false} OneRowMore(t: Tree, n: Node, i: nat)
    requires Indexed(t) && i < |t.nodes|
    ensures var r, was, now := t.nodes[i], t.nodes[..i], t.nodes[..i + 1];
            && |Following(t, n, now)| == |Following(t, n, was)| + (if Below(t, n, r) && Follows(t, n, r) then 1 else 0)
            && |Owning(t, n, now)| == |Owning(t, n, was)| + (if Below(t, n, r) && !Follows(t, n, r) then 1 else 0)
  {
    var r, was, now := t.nodes[i], t.nodes[..i], t.nodes[..i + 1];
    assert now == was + [r];
    assert r !in was;
    Grows(t, n, was, r, now);
  }

  lemma {:induction false} Grows(t: Tree, n: Node, was: seq<Node>, r: Node, now: seq<Node>)
    requires r !in was && forall x :: x in now <==> x in was || x == r
    ensures |Following(t, n, now)| == |Following(t, n, was)| + if Below(t, n, r) && Follows(t, n, r) then 1 else 0
    ensures |Owning(t, n, now)| == |Owning(t, n, was)| + if Below(t, n, r) && !Follows(t, n, r) then 1 else 0
  {
    OneMore(Following(t, n, was), Following(t, n, now), r);
    OneMore(Owning(t, n, was), Owning(t, n, now), r);
  }

  lemma {:induction false} OneMore(was: set<Node>, now: set<Node>, r: Node)
    requires r !in was && forall x :: x != r ==> (x in now <==> x in was)
    ensures |now| == |was| + if r in now then 1 else 0
  {
    if r in now {
      assert now == was + {r};
    } else {
      assert now == was;
    }
  }

  // ---- saving one level ----

  function Saved(n: Node, id: nat, s: Settings): Node { if n.id == id then n.(settings := s) else n }

  /** The tree after a save gives the level id the settings s. */
  function SetOwn(t: Tree, id: nat, s: Settings): Tree {
    t.(nodes := seq(|t.nodes|, i requires 0 <= i < |t.nodes| => Saved(t.nodes[i], id, s)),
       byId := map k | k in t.byId :: Saved(t.byId[k], id, s))
  }

  /** A chain's levels with level id given settings s (reviewChainWith). */
  function ChainWith(chain: seq<Node>, id: nat, s: Settings): (r: seq<Node>)
    ensures |r| == |chain| && forall i :: 0 <= i < |r| ==> r[i] == Saved(chain[i], id, s)
  {
    seq(|chain|, i requires 0 <= i < |chain| => Saved(chain[i], id, s))
  }

  lemma {:induction false} LookupAfter(t: Tree, p: nat, id: nat, s: Settings)
    ensures Lookup(SetOwn(t, id, s), p) == match Lookup(t, p) case None => None case Some(x) => Some(Saved(x, id, s))
  {
  }

  lemma ChainStep(t: Tree, n: Node, k: nat, p: Node)
    requires k > 0 && !n.kind.Connection? && Lookup(t, n.parent) == Some(p)
    ensures ChainFrom(t, n, k) == ChainFrom(t, p, k - 1) + [n]
  {
  }

  lemma ChainWithSnoc(chain: seq<Node>, n: Node, id: nat, s: Settings)
    ensures ChainWith(chain + [n], id, s) == ChainWith(chain, id, s) + [Saved(n, id, s)]
  {
  }

  lemma {:induction false} ChainAfter(t: Tree, n: Node, k: nat, id: nat, s: Settings)
    ensures ChainFrom(SetOwn(t, id, s), Saved(n, id, s), k) == ChainWith(ChainFrom(t, n, k), id, s)
    decreases k
  {
    if k > 0 && !n.kind.Connection? {
      LookupAfter(t, n.parent, id, s);
      match Lookup(t, n.parent) {
        case None =>
        case Some(p) =>
          ChainAfter(t, p, k - 1, id, s);
          ChainStep(t, n, k, p);
          ChainStep(SetOwn(t, id, s), Saved(n, id, s), k, Saved(p, id, s));
          ChainWithSnoc(ChainFrom(t, p, k - 1), n, id, s);
      }
    }
  }

  lemma {:induction false} SourceAppend(a: seq<Node>, b: seq<Node>)
    ensures Source(a + b) == if Source(b).Some? then Source(b) else Source(a)
  {
    if b == [] {
      assert a + b == a;
    } else {
      var front, last := b[..|b| - 1], b[|b| - 1];
      assert (a + b)[..|a + b| - 1] == a + front;
      SourceAppend(a, front);
    }
  }

  lemma {:induction false} ChainDistinct(t: Tree, n: Node, a: nat, b: nat)
    requires ConnectionOf(t, n).Some? && a < |Chain(t, n)| && b < |Chain(t, n)| && Chain(t, n)[a] == Chain(t, n)[b]
    ensures a == b
  {
    ChainNests(t, n, DEPTH, a);
    ChainNests(t, n, DEPTH, b);
    assert |Chain(t, n)[..a + 1]| == |Chain(t, n)[..b + 1]|;
  }

  lemma {:induction false} InChain(t: Tree, n: Node, k: nat, x: Node)
    requires Indexed(t) && n in t.nodes && x in ChainFrom(t, n, k)
    ensures x in t.nodes
    decreases k
  {
    if x != n {
      InChain(t, t.byId[n.parent], k - 1, x);
    }
  }

  /** A repository under n: n's own chain, and the levels between, none of which is on it. */
  lemma {:induction false} BelowApart(t: Tree, n: Node, r: Node, i: nat, j: nat)
    requires Indexed(t) && n in t.nodes && ConnectionOf(t, r).Some? && r in t.nodes
    requires i < j < |Chain(t, r)| && Chain(t, r)[i] == n && Chain(t, n) == Chain(t, r)[..i + 1]
    ensures Chain(t, r)[j] !in Chain(t, n) && Chain(t, r)[j].id != n.id
  {
    var c := Chain(t, r);
    if c[j] in Chain(t, n) {
      var h :| 0 <= h < |Chain(t, n)| && Chain(t, n)[h] == c[j];
      assert c[h] == c[j];
      ChainDistinct(t, r, h, j);
    }
    InChain(t, r, DEPTH, c[j]);
    assert n in Chain(t, n);
  }

  lemma {:induction false} AllBelowApart(t: Tree, n: Node, r: Node, i: nat)
    requires Indexed(t) && n in t.nodes && ConnectionOf(t, r).Some? && r in t.nodes
    requires i < |Chain(t, r)| && Chain(t, r)[i] == n && Chain(t, n) == Chain(t, r)[..i + 1]
    ensures forall x :: x in Chain(t, r)[i + 1..] ==> x !in Chain(t, n) && x.id != n.id
  {
    var below := Chain(t, r)[i + 1..];
    forall x | x in below
      ensures x !in Chain(t, n) && x.id != n.id
    {
      var j :| 0 <= j < |below| && below[j] == x;
      BelowApart(t, n, r, i, i + 1 + j);
    }
  }

  lemma {:induction false} ChainBelow(t: Tree, n: Node, r: Node) returns (below: seq<Node>)
    requires Indexed(t) && n in t.nodes && Below(t, n, r)
    ensures Chain(t, r) == Chain(t, n) + below
    ensures forall x :: x in below ==> x !in Chain(t, n) && x.id != n.id
  {
    var c := Chain(t, r);
    var i :| 0 <= i < |c| && c[i] == n;
    ChainNests(t, r, DEPTH, i);
    below := c[i + 1..];
    assert c == c[..i + 1] + below;
    AllBelowApart(t, n, r, i);
  }

  /** After a save at n, a repository below reads n's new chain and then the levels it read before. */
  lemma {:induction false} ChainAfterSave(t: Tree, n: Node, r: Node, s: Settings) returns (below: seq<Node>)
    requires Indexed(t) && n in t.nodes && n.kind != Repo && Below(t, n, r)
    ensures Chain(t, r) == Chain(t, n) + below
    ensures Chain(SetOwn(t, n.id, s), r) == Chain(SetOwn(t, n.id, s), n.(settings := s)) + below
    ensures forall x :: x in below ==> x !in Chain(t, n)
  {
    below := ChainBelow(t, n, r);
    ChainAfter(t, n, DEPTH, n.id, s);
    ChainAfter(t, r, DEPTH, n.id, s);
    SavedBelow(Chain(t, n), below, n.id, s);
  }

  lemma {:induction false} SavedBelow(above: seq<Node>, below: seq<Node>, id: nat, s: Settings)
    requires forall x :: x in below ==> x.id != id
    ensures ChainWith(above + below, id, s) == ChainWith(above, id, s) + below
  {
    assert forall i :: 0 <= i < |below| ==> below[i] in below && Saved(below[i], id, s) == below[i];
  }

  /** The levels on the way from n down to r that do not parse are what keeps r from running n's list. */
  ghost predicate ReadableBelow(t: Tree, n: Node, r: Node) {
    forall x :: x in Chain(t, r) && x !in Chain(t, n) ==> x.settings.Readable?
  }

  lemma {:induction false} AppendResolves(above: seq<Node>, below: seq<Node>, builtin: seq<Rule>)
    ensures Resolve(above + below, builtin) ==
      if !AllReadable(above) || !AllReadable(below) then Broken
      else match Source(below) case Some(m) => Rules(m.settings.rules) case None => Resolve(above, builtin)
  {
    var c := above + below;
    assert forall i :: 0 <= i < |above| ==> c[i] == above[i];
    assert forall i :: 0 <= i < |below| ==> c[|above| + i] == below[i];
    if AllReadable(above) && AllReadable(below) {
      SourceAppend(above, below);
      SourceIsResolved(c, builtin);
      SourceIsResolved(above, builtin);
    }
  }

  /** Following is what reviewFollowers says it is: no level between n and the repository holds a list. */
  lemma {:induction false} FollowsExactly(t: Tree, n: Node, r: Node, below: seq<Node>)
    requires Chain(t, r) == Chain(t, n) + below && forall x :: x in below ==> x !in Chain(t, n)
    ensures Follows(t, n, r) <==> Source(below).None?
  {
    SourceAppend(Chain(t, n), below);
  }

  /** A save at a connection or a group, of a list or of none, gives every repository counted as
      following exactly what the level then runs, unless a level in between does not parse, and leaves
      every repository counted as having its own exactly what it ran. */
  lemma {:induction false} BlastRadius(t: Tree, n: Node, r: Node, s: Settings, builtin: seq<Rule>)
    requires Indexed(t) && n in t.nodes && n.kind != Repo && Below(t, n, r)
    requires n.settings.Readable? && s.Readable?
    ensures var t2, n2 := SetOwn(t, n.id, s), n.(settings := s);
            && (Follows(t, n, r) ==>
                 (Effective(t2, r, builtin) == Effective(t2, n2, builtin) <==>
                  ReadableBelow(t, n, r) || Effective(t2, n2, builtin).Broken?))
            && (!Follows(t, n, r) ==> Effective(t2, r, builtin) == Effective(t, r, builtin))
  {
    var t2, n2 := SetOwn(t, n.id, s), n.(settings := s);
    var below := ChainAfterSave(t, n, r, s);
    FollowsExactly(t, n, r, below);
    AppendResolves(Chain(t2, n2), below, builtin);
    AppendResolves(Chain(t, n), below, builtin);
    SameReadable(t, n, s);
    assert ReadableBelow(t, n, r) <==> AllReadable(below) by {
      assert forall i :: 0 <= i < |below| ==> below[i] in Chain(t, r);
    }
  }

  lemma {:induction false} SameReadable(t: Tree, n: Node, s: Settings)
    requires n.settings.Readable? && s.Readable?
    requires Indexed(t) && n in t.nodes
    ensures AllReadable(Chain(SetOwn(t, n.id, s), n.(settings := s))) <==> AllReadable(Chain(t, n))
  {
    var c := Chain(t, n);
    ChainAfter(t, n, DEPTH, n.id, s);
    forall i | 0 <= i < |c|
      ensures Saved(c[i], n.id, s).settings.Readable? <==> c[i].settings.Readable?
    {
      InChain(t, n, DEPTH, c[i]);
    }
  }

  /** A connection, a group whose settings do not parse, and a repository in it. */
  function Torn(own: Settings): Tree {
    var conn, group := Node(1, Connection, 0, 7, "", false, own), Node(2, Group, 1, 0, "", false, Settings.Unreadable);
    var repo := Node(3, Repo, 2, 0, "acme/web", false, Readable([]));
    Tree([conn, group, repo], map[1 := conn, 2 := group, 3 := repo], map[])
  }

  lemma TornChains(own: Settings)
    ensures var t := Torn(own);
            && Indexed(t) && Chain(t, t.nodes[0]) == [t.nodes[0]] && Chain(t, t.nodes[2]) == t.nodes
            && ConnectionOf(t, t.nodes[0]) == ConnectionOf(t, t.nodes[2]) == Some(t.nodes[0])
  {
    var t := Torn(own);
    assert ConnectionFrom(t, t.nodes[0], 1) == ConnectionFrom(t, t.nodes[1], 2) == Some(t.nodes[0]);
    assert ChainFrom(t, t.nodes[0], 1) == [t.nodes[0]] && ChainFrom(t, t.nodes[1], 2) == [t.nodes[0], t.nodes[1]];
  }

  lemma {:induction false} TornFollows()
    ensures var t := Torn(Readable([])); Follows(t, t.nodes[0], t.nodes[2])
  {
    TornChains(Readable([]));
    var c := Torn(Readable([])).nodes;
    assert c[..2] == [c[0], c[1]] && c[..2][..1] == [c[0]] && c[..1][..0] == [];
    assert Source([]) == None && Source([c[0]]) == None;
    assert Source([c[0], c[1]]) == Source([c[0], c[1]][..1]);
  }

  /** Saved a list, its connection runs it; its repository, counted as following, runs nothing that is known. */
  lemma {:induction false} UnreadableBetween(rule: Rule, builtin: seq<Rule>)
    ensures var t, t2 := Torn(Readable([])), SetOwn(Torn(Readable([])), 1, Readable([rule]));
            && Indexed(t) && Below(t, t.nodes[0], t.nodes[2]) && Follows(t, t.nodes[0], t.nodes[2])
            && Effective(t2, t2.nodes[0], builtin) == Rules([rule]) && Effective(t2, t2.nodes[2], builtin) == Broken
  {
    TornChains(Readable([]));
    TornFollows();
    var t, now := Torn(Readable([])), Torn(Readable([rule]));
    assert SetOwn(t, 1, Readable([rule])) == now;
    TornChains(Readable([rule]));
    assert now.nodes[1].settings.Unreadable?;
    FoldedSnoc([], now.nodes[0], builtin);
    assert [] + [now.nodes[0]] == [now.nodes[0]];
    assert t.nodes[0] in Chain(t, t.nodes[2]);
  }

  lemma {:induction false} SavedIsIndexed(t: Tree, id: nat, s: Settings)
    requires Indexed(t)
    ensures Indexed(SetOwn(t, id, s))
  {
    var t2 := SetOwn(t, id, s);
    assert forall i :: 0 <= i < |t2.nodes| ==> t2.nodes[i].id == t.nodes[i].id;
    forall k | k in t2.byId
      ensures k > 0 && t2.byId[k].id == k && t2.byId[k] in t2.nodes
    {
      assert t.byId[k] in t.nodes;
      var i :| 0 <= i < |t.nodes| && t.nodes[i] == t.byId[k];
      assert t2.nodes[i] == t2.byId[k];
    }
  }

  lemma RowlessRuns(t: Tree, n: Node, repo: string, builtin: seq<Rule>)
    requires Indexed(t) && n in t.nodes && n.kind.Connection?
    ensures Effective(t, VirtualRepo(n, repo), builtin) == Effective(t, n, builtin)
  {
    var v := VirtualRepo(n, repo);
    assert Lookup(t, v.parent) == Some(n);
    assert Chain(t, v) == [n] + [v];
    AppendResolves([n], [v], builtin);
    assert Source([v]) == None;
  }

  /** Rowless repositories resolve as their connection does, in the tree as it is and in one with any level
      saved. */
  lemma {:induction false} RowlessFollows(t: Tree, n: Node, repo: string, id: nat, s: Settings, builtin: seq<Rule>)
    requires Indexed(t) && n in t.nodes && n.kind.Connection?
    ensures Effective(t, VirtualRepo(n, repo), builtin) == Effective(t, n, builtin)
    ensures var t2, n2 := SetOwn(t, id, s), Saved(n, id, s);
            Effective(t2, VirtualRepo(n2, repo), builtin) == Effective(t2, n2, builtin)
  {
    RowlessRuns(t, n, repo, builtin);
    var t2, n2 := SetOwn(t, id, s), Saved(n, id, s);
    SavedIsIndexed(t, id, s);
    var i :| 0 <= i < |t.nodes| && t.nodes[i] == n;
    assert t2.nodes[i] == n2;
    RowlessRuns(t2, n2, repo, builtin);
  }

  /** virtualRepo: the stand-in for a row that a repository seen through conn does not have yet. */
  function VirtualRepo(conn: Node, repo: string): Node {
    Node(0, Repo, conn.id, 0, repo, false, Readable([]))
  }

  /** The live repositories under n, counted both ways. */
  lemma FollowersAddUp(t: Tree, n: Node)
    ensures |Following(t, n, t.nodes)| + |Owning(t, n, t.nodes)| == |set r | r in t.nodes && Below(t, n, r)|
  {
    var live := set r | r in t.nodes && Below(t, n, r);
    assert live == Following(t, n, t.nodes) + Owning(t, n, t.nodes);
    assert Following(t, n, t.nodes) !! Owning(t, n, t.nodes);
  }

  // ---- which cards a save makes stale ----

  /** reviewChangesRulesOf: n's list would come out different if m were given the settings s. */
  function ChangesRulesOf(t: Tree, n: Node, m: Node, s: Settings, builtin: seq<Rule>): bool {
    var chain := Chain(t, n);
    if m.id == 0 || m !in chain then false
    else
      match Resolve(chain, builtin)
      case Broken => false
      case Rules(before) =>
        match Resolve(ChainWith(chain, m.id, s), builtin)
        case Broken => false
        case Rules(after) => after != before
  }

  /** The prediction agrees with saving m and resolving the tree again. */
  lemma {:induction false} ChangesIsReResolving(t: Tree, n: Node, m: Node, s: Settings, builtin: seq<Rule>)
    requires Indexed(t) && m in t.nodes && m.settings.Readable? && s.Readable?
    requires n in t.nodes || n.id == 0
    ensures ChangesRulesOf(t, n, m, s, builtin) <==>
            Effective(SetOwn(t, m.id, s), Saved(n, m.id, s), builtin) != Effective(t, n, builtin)
  {
    var c := Chain(t, n);
    ChainAfter(t, n, DEPTH, m.id, s);
    var after := ChainWith(c, m.id, s);
    forall i | 0 <= i < |c|
      ensures after[i].settings.Readable? <==> c[i].settings.Readable?
      ensures c[i] != m ==> after[i] == c[i]
    {
      RowsOnly(t, n, DEPTH, c[i]);
    }
    assert AllReadable(after) <==> AllReadable(c);
    if m !in c {
      assert after == c;
    }
  }

  /** m is on n's chain and no level below it there holds a list. */
  ghost predicate Over(t: Tree, m: Node, n: Node) {
    m.id != 0 && exists i :: 0 <= i < |Chain(t, n)| && Chain(t, n)[i] == m && Source(Chain(t, n)[i + 1..]).None?
  }

  /** What a level runs once it is left these rules, or none. */
  function Left(t: Tree, m: Node, rules: seq<Rule>, builtin: seq<Rule>): Resolution {
    var c := Chain(t, m);
    if rules == [] then Resolve(c[..|c| - 1], builtin) else Rules(rules)
  }

  /** A level is only once on a chain: what is above and below it there has other ids. */
  lemma {:induction false} OnceInChain(t: Tree, n: Node, i: nat, j: nat)
    requires Indexed(t) && ConnectionOf(t, n).Some? && (n in t.nodes || n.id == 0)
    requires i < |Chain(t, n)| && j < |Chain(t, n)| && i != j && Chain(t, n)[i].id > 0
    ensures Chain(t, n)[j].id != Chain(t, n)[i].id
  {
    var c := Chain(t, n);
    RowsOnly(t, n, DEPTH, c[i]);
    RowsOnly(t, n, DEPTH, c[j]);
    if c[i].id == c[j].id {
      assert t.byId[c[i].id] == c[i] && t.byId[c[j].id] == c[j];
      ChainDistinct(t, n, i, j);
    }
  }

  /** A chain with one of its levels set anew. */
  lemma {:induction false} ChainSetAt(t: Tree, n: Node, i: nat, s: Settings)
    requires Indexed(t) && ConnectionOf(t, n).Some? && (n in t.nodes || n.id == 0)
    requires i < |Chain(t, n)| && Chain(t, n)[i].id > 0
    ensures var c := Chain(t, n);
            ChainWith(c, c[i].id, s) == (c[..i] + [c[i].(settings := s)]) + c[i + 1..]
  {
    var c := Chain(t, n);
    forall j | 0 <= j < |c| && j != i
      ensures Saved(c[j], c[i].id, s) == c[j]
    {
      OnceInChain(t, n, i, j);
    }
  }

  lemma {:induction false} SetAtResolves(above: seq<Node>, m: Node, below: seq<Node>, builtin: seq<Rule>)
    requires AllReadable(above) && AllReadable(below) && m.settings.Readable?
    ensures AllReadable((above + [m]) + below)
    ensures Resolve((above + [m]) + below, builtin) ==
      match Source(below)
      case Some(l) => Rules(l.settings.rules)
      case None => if HasList(m) then Rules(m.settings.rules) else Resolve(above, builtin)
  {
    AppendResolves(above + [m], below, builtin);
    FoldedSnoc(above, m, builtin);
    var c := (above + [m]) + below;
    assert forall k :: 0 <= k < |c| ==> c[k] in above || c[k] == m || c[k] in below;
  }

  /** What setting m to rules does to what is run at the foot of a chain through it. */
  lemma {:induction false} SetChanges(above: seq<Node>, m: Node, below: seq<Node>, rules: seq<Rule>, builtin: seq<Rule>)
    requires AllReadable(above) && AllReadable(below) && m.settings.Readable?
    ensures var before, after := (above + [m]) + below, (above + [m.(settings := Readable(rules))]) + below;
            && Resolve(before, builtin).Rules? && Resolve(after, builtin).Rules?
            && (Resolve(before, builtin) != Resolve(after, builtin) <==>
                Source(below).None? &&
                (if rules == [] then Resolve(above, builtin) else Rules(rules)) != Resolve(above + [m], builtin))
  {
    SetAtResolves(above, m, below, builtin);
    SetAtResolves(above, m.(settings := Readable(rules)), below, builtin);
    SetAtResolves(above, m, [], builtin);
    assert (above + [m]) + [] == above + [m];
  }

  lemma {:induction false} SetChangesAt(t: Tree, n: Node, i: nat, rules: seq<Rule>, builtin: seq<Rule>)
    requires Indexed(t) && ConnectionOf(t, n).Some? && (n in t.nodes || n.id == 0)
    requires AllReadable(Chain(t, n)) && i < |Chain(t, n)| && Chain(t, n)[i].id > 0
    ensures var c := Chain(t, n);
            var m, above := c[i], c[..i];
            var after := ChainWith(c, m.id, Readable(rules));
            && Resolve(c, builtin).Rules? && Resolve(after, builtin).Rules?
            && (Resolve(c, builtin) != Resolve(after, builtin) <==>
                Source(c[i + 1..]).None? &&
                (if rules == [] then Resolve(above, builtin) else Rules(rules)) != Resolve(above + [m], builtin))
  {
    var c := Chain(t, n);
    assert c == (c[..i] + [c[i]]) + c[i + 1..];
    ChainSetAt(t, n, i, Readable(rules));
    SetChanges(c[..i], c[i], c[i + 1..], rules, builtin);
  }

  lemma {:induction false} ChangesAt(t: Tree, n: Node, i: nat, rules: seq<Rule>, builtin: seq<Rule>)
    requires Indexed(t) && ConnectionOf(t, n).Some? && (n in t.nodes || n.id == 0)
    requires AllReadable(Chain(t, n)) && i < |Chain(t, n)| && Chain(t, n)[i].id > 0
    ensures var m := Chain(t, n)[i];
            ChangesRulesOf(t, n, m, Readable(rules), builtin) <==>
            Source(Chain(t, n)[i + 1..]).None? && Left(t, m, rules, builtin) != Effective(t, m, builtin)
  {
    SetChangesAt(t, n, i, rules, builtin);
    Compared(t, n, Chain(t, n)[i], Readable(rules), builtin);
    LevelResolves(t, n, i, rules, builtin);
  }

  /** What a level of a chain runs, and would be left with, read off that chain. */
  lemma {:induction false} LevelResolves(t: Tree, n: Node, i: nat, rules: seq<Rule>, builtin: seq<Rule>)
    requires ConnectionOf(t, n).Some? && i < |Chain(t, n)|
    ensures var m, above := Chain(t, n)[i], Chain(t, n)[..i];
            && Effective(t, m, builtin) == Resolve(above + [m], builtin)
            && Left(t, m, rules, builtin) == if rules == [] then Resolve(above, builtin) else Rules(rules)
  {
    ChainOfLevel(t, n, i);
  }

  lemma Compared(t: Tree, n: Node, m: Node, s: Settings, builtin: seq<Rule>)
    requires m.id != 0 && m in Chain(t, n)
    requires Resolve(Chain(t, n), builtin).Rules? && Resolve(ChainWith(Chain(t, n), m.id, s), builtin).Rules?
    ensures ChangesRulesOf(t, n, m, s, builtin) <==>
            Resolve(Chain(t, n), builtin) != Resolve(ChainWith(Chain(t, n), m.id, s), builtin)
  {
  }

  lemma {:induction false} ChainOfLevel(t: Tree, n: Node, i: nat)
    requires ConnectionOf(t, n).Some? && i < |Chain(t, n)|
    ensures var c := Chain(t, Chain(t, n)[i]);
            c == Chain(t, n)[..i] + [Chain(t, n)[i]] && c[..|c| - 1] == Chain(t, n)[..i]
  {
    ChainNests(t, n, DEPTH, i);
  }

  /** Which rules a save of one level changes, read off the tree: those of every level below it with no
      list in between, unless the saved one then runs what it ran. */
  lemma {:induction false} ChangesExactly(t: Tree, n: Node, m: Node, rules: seq<Rule>, builtin: seq<Rule>)
    requires Indexed(t) && ConnectionOf(t, n).Some? && (n in t.nodes || n.id == 0) && AllReadable(Chain(t, n))
    ensures ChangesRulesOf(t, n, m, Readable(rules), builtin) <==>
            Over(t, m, n) && Left(t, m, rules, builtin) != Effective(t, m, builtin)
  {
    var c := Chain(t, n);
    if m.id != 0 && m in c {
      var i :| 0 <= i < |c| && c[i] == m;
      ChangesAt(t, n, i, rules, builtin);
      if Over(t, m, n) {
        var j :| 0 <= j < |c| && c[j] == m && Source(c[j + 1..]).None?;
        ChainDistinct(t, n, i, j);
      }
    }
  }

  /** A chain holds rows of the tree, but for a repository without one at its foot. */
  lemma {:induction false} RowsOnly(t: Tree, n: Node, k: nat, x: Node)
    requires Indexed(t) && x in ChainFrom(t, n, k)
    ensures x in t.nodes || x == n
    decreases k
  {
    if x != n {
      InChain(t, t.byId[n.parent], k - 1, x);
    }
  }
}
