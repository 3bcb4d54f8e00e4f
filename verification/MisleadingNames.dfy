/** Names of levels by which the notes of an answer go wrong. */
module MisleadingNames {
  import opened Lists
  import opened Text
  import opened Joining
  import opened BranchRules
  import opened ReviewTree
  import opened Notes
  import opened Proposals
  import opened StaleNotes

  const CONN := Node(1, Connection, 0, 7, "", false, Readable([]))
  const TEAM := Node(2, Group, 1, 0, "", false, Readable([]))
  const API := Node(3, Repo, 2, 0, "acme/api", false, Readable([]))

  function SampleTree(other: Node): Tree {
    Tree([CONN, TEAM, API, other], map[1 := CONN, 2 := TEAM, 3 := API, 4 := other], map[])
  }

  /** A connection, a group with a repository in it, and one more level of the connection, none with a list, over
      the built-in default. */
  function Sample(other: Node, conn: string, team: string, name: string): Levels {
    Levels(SampleTree(other), [ANY_RULE], map["conn" := CONN, "team" := TEAM, "api" := API, "other" := other],
           k => if k == "conn" then conn else if k == "team" then team else if k == "api" then "acme/api" else name,
           TheSentence())
  }

  function TheSentence(): Words {
    StaleAfterIsMarked();
    STALE_AFTER
  }

  predicate Beside(other: Node) {
    other.id == 4 && other.parent == 1 && !other.kind.Connection? && other.settings == Readable([])
  }

  lemma {:induction false} SampleChains(other: Node)
    requires Beside(other)
    ensures var t := SampleTree(other);
            && Chain(t, CONN) == [CONN] && Chain(t, TEAM) == [CONN, TEAM]
            && Chain(t, API) == [CONN, TEAM, API] && Chain(t, other) == [CONN, other]
  {
    var t := SampleTree(other);
    assert ChainFrom(t, CONN, 1) == [CONN] && ChainFrom(t, CONN, 2) == [CONN];
    assert ChainFrom(t, TEAM, 2) == [CONN, TEAM];
  }

  lemma {:induction false} SampleConnections(other: Node)
    requires Beside(other)
    ensures var t := SampleTree(other);
            && ConnectionOf(t, CONN) == ConnectionOf(t, TEAM) == Some(CONN)
            && ConnectionOf(t, API) == ConnectionOf(t, other) == Some(CONN)
  {
    var t := SampleTree(other);
    assert ConnectionFrom(t, CONN, 1) == ConnectionFrom(t, CONN, 2) == Some(CONN) == ConnectionFrom(t, TEAM, 2);
  }

  lemma {:induction false} SampleIsGrounded(other: Node, conn: string, team: string, name: string)
    requires Beside(other)
    ensures Grounded(Sample(other, conn, team, name))
  {
    var t := SampleTree(other);
    assert t.nodes[0] == CONN && t.nodes[1] == TEAM && t.nodes[2] == API && t.nodes[3] == other;
  }

  lemma {:induction false} Unlisted(chain: seq<Node>, builtin: seq<Rule>)
    requires forall i :: 0 <= i < |chain| ==> chain[i].settings == Readable([])
    ensures AllReadable(chain) && Folded(chain, builtin) == builtin && Source(chain) == None
  {
    if chain != [] {
      Unlisted(chain[1..], builtin);
      Unlisted(chain[..|chain| - 1], builtin);
    }
  }

  lemma LowSavable()
    ensures Savable([LOW_RULE]) && [LOW_RULE] != [ANY_RULE]
  {
    assert [LOW_RULE][0] != [ANY_RULE][0];
  }

  /** A level that runs the built-in default can be given another rule. */
  lemma {:induction false} LowAccepted(e: Levels, key: string)
    requires key != "" && key in e.level && ConnectionOf(e.tree, e.level[key]).Some? && e.builtin == [ANY_RULE]
    requires forall n :: n in Chain(e.tree, e.level[key]) ==> n.settings == Readable([])
    ensures Accepts(e, key, [LOW_RULE])
  {
    LowSavable();
    Unlisted(Chain(e.tree, e.level[key]), e.builtin);
  }

  /** Any of the four levels can be given it. */
  lemma {:induction false} SampleAccepts(other: Node, conn: string, team: string, name: string, key: string)
    requires Beside(other) && key in ["conn", "team", "api", "other"]
    ensures Accepts(Sample(other, conn, team, name), key, [LOW_RULE])
  {
    SampleChains(other);
    SampleConnections(other);
    LowAccepted(Sample(other, conn, team, name), key);
  }

  lemma {:induction false} SampleGives(other: Node, conn: string, team: string, name: string)
    requires Beside(other)
    requires Known(Sample(other, conn, team, name), "conn") && Known(Sample(other, conn, team, name), "team")
    requires Known(Sample(other, conn, team, name), "api") && Known(Sample(other, conn, team, name), "other")
    ensures var e := Sample(other, conn, team, name);
            && Gives(e, "team", "api") && !Gives(e, "other", "api") && Gives(e, "conn", "team") &&
                 !Gives(e, "other", "team")
  {
    SampleChains(other);
    Unlisted([API], []);
    Unlisted([TEAM], []);
    var c, d := Chain(SampleTree(other), API), Chain(SampleTree(other), TEAM);
    assert c[1] == TEAM && c[1 + 1..] == [API];
    assert d[0] == CONN && d[0 + 1..] == [TEAM];
  }

  lemma {:induction false} SampleIs(other: Node, conn: string, team: string, name: string)
    requires Beside(other)
    ensures var e, any := Sample(other, conn, team, name), [LOW_RULE];
            && Three(e, "api", "other", "team") && Three(e, "team", "conn", "other") && Grounded(e)
            && Accepts(e, "conn", any) && Accepts(e, "team", any) && Accepts(e, "api", any) && Accepts(e, "other", any)
            && Changes(e, "api", "team", any) && !Changes(e, "api", "other", any)
            && Changes(e, "team", "conn", any) && !Changes(e, "team", "other", any)
  {
    var e, any := Sample(other, conn, team, name), [LOW_RULE];
    SampleIsGrounded(other, conn, team, name);
    SampleAccepts(other, conn, team, name, "conn");
    SampleAccepts(other, conn, team, name, "team");
    SampleAccepts(other, conn, team, name, "api");
    SampleAccepts(other, conn, team, name, "other");
    SampleGives(other, conn, team, name);
    AcceptedChanges(e, "api", "team", any);
    AcceptedChanges(e, "api", "other", any);
    AcceptedChanges(e, "team", "conn", any);
    AcceptedChanges(e, "team", "other", any);
  }

  lemma SamplePlain(other: Node, conn: string, team: string, name: string)
    requires |conn| <= 138 && |team| <= 138 && |name| <= 138
    ensures PlainNames(Sample(other, conn, team, name))
  {
    NamesArePlain(conn);
    NamesArePlain(team);
    NamesArePlain(name);
    NamesArePlain("acme/api");
  }

  /** Where the sentence about the group ends in the one about the other level, staging the repository, the
      group and then that level leaves the repository's card without its word on the group. */
  lemma {:induction false} Misled(other: Node, conn: string, team: string, name: string)
    requires Beside(other) && PlainNames(Sample(other, conn, team, name))
    requires EndsIn(Sample(other, conn, team, name), "team", "other")
    ensures !AlwaysRight(Sample(other, conn, team, name))
  {
    var e, any := Sample(other, conn, team, name), [LOW_RULE];
    SampleIs(other, conn, team, name);
    CutOutOfAnother(e, "api", "other", "team", any, any, any);
    WrongOnce(e, AThenCThenB("api", "other", "team", any, any, any, []));
  }

  lemma {:induction false} ReadsAsCard()
    ensures Ends(BEFORE_NAME + "acme / The card for acme/web", BEFORE_NAME + "acme/web")
  {
    var short := BEFORE_NAME + "acme/web";
    assert "acme / The card for acme/web" == "acme / " + short;
    assert BEFORE_NAME + ("acme / " + short) == (BEFORE_NAME + "acme / ") + short;
    EndsLonger(BEFORE_NAME + "acme / ", short, short);
  }

  /** All names differ, but the group's reads as the card for a repository. */
  lemma {:induction false} NamedLikeACard()
    ensures var web := Node(4, Repo, 1, 0, "acme/web", false, Readable([]));
            var e := Sample(web, "acme", "acme / The card for acme/web", "acme/web");
            PlainNames(e) && !AlwaysRight(e)
  {
    var web := Node(4, Repo, 1, 0, "acme/web", false, Readable([]));
    SamplePlain(web, "acme", "acme / The card for acme/web", "acme/web");
    ReadsAsCard();
    Misled(web, "acme", "acme / The card for acme/web", "acme/web");
  }

  /** Two groups of one name. */
  lemma {:induction false} Namesakes()
    ensures var e := Sample(Node(4, Group, 1, 0, "", false, Readable([])), "acme", "acme / a b", "acme / a b");
            PlainNames(e) && !AlwaysRight(e)
  {
    var group := Node(4, Group, 1, 0, "", false, Readable([]));
    SamplePlain(group, "acme", "acme / a b", "acme / a b");
    Misled(group, "acme", "acme / a b", "acme / a b");
  }

  // ---- other words that read on ----

  const COPY_1 := " runs the built-in default branch rules:"
  const COPY_2 := " it gets its own copy of these 1 rule,"
  const COPY_3 := " and a change to the default in a later"
  const COPY_4 := " release will not reach it."
  const EDITS_1 := "You have unsaved edits to "
  const EDITS_2 := "'s branch rules in the editor;"
  const EDITS_3 := " Confirm will conflict with them."

  /** What a card says of a level that takes its own copy of the built-in list, of one that a repository follows,
      and of one with edits on screen. */
  function OwnCopy(target: string): string { target + COPY_1 + COPY_2 + COPY_3 + COPY_4 }

  const FOLLOWED := "1 repository below follows this list."

  function Unsaved(target: string): string { EDITS_1 + target + EDITS_2 + EDITS_3 }

  /** A group named to read as a card, and one named as what then follows. */
  const CARD := "ab / " + BEFORE_NAME + "ab / q"
  const FOLLOWS := "ab / q" + EDITS_2 + EDITS_3 + " " + BEFORE_NAME + "ab"

  predicate Kless(s: string) { 'k' !in s }

  lemma KlessCopy1()
    ensures Kless(COPY_1) && Kless(COPY_2)
  {
  }

  lemma KlessCopy2()
    ensures Kless(COPY_3) && Kless(COPY_4)
  {
  }

  lemma KlessEdits()
    ensures Kless(EDITS_1) && Kless(EDITS_2) && Kless(EDITS_3)
  {
  }

  lemma KlessCard()
    ensures Kless(CARD) && Kless(FOLLOWED)
  {
  }

  lemma {:induction false} KlessWithout(s: string)
    requires Kless(s)
    ensures Without(s, STALE_AFTER.ending)
  {
    var front := AFTER_NAME_1 + AFTER_NAME_2 + AFTER_NAME_3;
    var rest := AFTER_NAME_4 + (AFTER_NAME_5 + AFTER_NAME_6 + ".");
    assert STALE_AFTER.ending == front + rest;
    assert AFTER_NAME_4[24] == 'k';
    var at := |front| + 24;
    assert STALE_AFTER.ending[at] == 'k';
    forall i | 0 <= i <= |s|
      ensures !Occurs(s, STALE_AFTER.ending, i)
    {
      if Occurs(s, STALE_AFTER.ending, i) {
        OccursChar(s, STALE_AFTER.ending, i, at);
      }
    }
  }

  /** Words that hold a name with an opening in it, and go on as another name does, then the opening and a third. */
  lemma {:induction false} ReadOnShape(front: string, opening: string, name: string, more: string, third: string)
    ensures Ends(front + (opening + name) + more + " " + opening + third,
                 opening + (name + more + " " + opening + third))
  {
    var end := opening + (name + more + " " + opening + third);
    assert front + (opening + name) + more + " " + opening + third == front + end;
    EndsLonger(front, end, end);
  }

  /** After them the sentence about the connection ends as the one about the other group does. */
  lemma {:induction false} LeadReadsOn()
    ensures var words := OwnCopy(CARD) + " " + FOLLOWED + " " + Unsaved(CARD);
            Ends(words + " " + BEFORE_NAME + "ab", BEFORE_NAME + FOLLOWS)
  {
    var said, more := OwnCopy(CARD) + " " + FOLLOWED, EDITS_2 + EDITS_3;
    ReadOnShape(said + " " + EDITS_1 + "ab / ", BEFORE_NAME, "ab / q", more, "ab");
    WordsAre(said, "ab / ", BEFORE_NAME, "ab / q");
    assert "ab / q" + more == "ab / q" + EDITS_2 + EDITS_3;
  }

  lemma WordsAre(said: string, login: string, opening: string, name: string)
    ensures said + " " + Unsaved(login + opening + name) ==
      (said + " " + EDITS_1 + login) + (opening + name) + (EDITS_2 + EDITS_3)
  {
    Regrouped(said + " ", EDITS_1, login, opening, name, EDITS_2, EDITS_3);
  }

  lemma Regrouped(a: string, b: string, c: string, d: string, e: string, f: string, g: string)
    ensures a + (b + (c + d + e) + f + g) == (a + b + c) + (d + e) + (f + g)
  {
  }

  lemma {:induction false} LeadWithout()
    ensures var words := OwnCopy(CARD) + " " + FOLLOWED + " " + Unsaved(CARD);
            Without(words, STALE_AFTER.ending) && words != "" && Inked(words[0])
  {
    KlessCopy1();
    KlessCopy2();
    KlessEdits();
    KlessCard();
    var words := OwnCopy(CARD) + " " + FOLLOWED + " " + Unsaved(CARD);
    KlessWithout(words);
    assert words[0] == CARD[0];
  }

  /** Other words on the group's card after which the sentence about the connection reads as the one about the other
      level. */
  lemma {:induction false} MisledBy(other: Node, conn: string, team: string, name: string, lead: seq<string>)
    requires Beside(other) && PlainNames(Sample(other, conn, team, name))
    requires ReadOn(Sample(other, conn, team, name), "conn", "other", Join(lead, " "))
    ensures var e, any := Sample(other, conn, team, name), [LOW_RULE];
            var calls := AThenCThenB("team", "conn", "other", any, any, any, lead);
            FairAll(e, calls) && !NotesRight(e, CalledAll(e, [], calls))
  {
    SampleIs(other, conn, team, name);
    ReadsOn(Sample(other, conn, team, name), "team", "conn", "other", [LOW_RULE], [LOW_RULE], [LOW_RULE], lead);
  }

  lemma LeadIs(copy: string, followed: string, unsaved: string)
    ensures Join([copy, followed, unsaved], " ") == copy + " " + followed + " " + unsaved
  {
    assert [copy, followed, unsaved][1..] == [followed, unsaved] && [followed, unsaved][1..] == [unsaved];
    assert Join([followed, unsaved], " ") == followed + " " + unsaved;
    assert copy + " " + (followed + " " + unsaved) == copy + " " + followed + " " + unsaved;
  }

  /** What a card at the group counts: the repository in it follows, and none has a list of its own. */
  lemma {:induction false} SampleFollowers(other: Node)
    requires Beside(other)
    ensures var t := SampleTree(other);
            && Following(t, TEAM, t.nodes) == {API} && Owning(t, TEAM, t.nodes) == {}
            && RowlessUnder(t, TEAM, AppRepos(t, TEAM)) == {}
  {
    var t := SampleTree(other);
    SampleChains(other);
    SampleConnections(other);
    Unlisted(Chain(t, API), []);
    Unlisted(Chain(t, TEAM), []);
    assert t.nodes[2] == API && Chain(t, API)[1] == TEAM;
    assert ReviewTree.Below(t, TEAM, API) && Follows(t, TEAM, API);
    assert AppRepos(t, TEAM) == [];
    forall r | r in t.nodes && ReviewTree.Below(t, TEAM, r)
      ensures r == API
    {
      assert Chain(t, other) == [CONN, other] && TEAM !in [CONN, other];
    }
    assert API in Following(t, TEAM, t.nodes);
    assert forall r :: r in Following(t, TEAM, t.nodes) ==> r == API;
    assert forall r :: r in Owning(t, TEAM, t.nodes) ==> r == API && !Follows(t, TEAM, r);
  }

  lemma NamesFit()
    ensures |CARD| == 24 && |FOLLOWS| == 85
  {
  }

  /** What the program writes on the first card at the group, with edits to the group on screen. */
  function WrittenLead(): seq<string> { [OwnCopy(CARD), FOLLOWED, Unsaved(CARD)] }

  /** Those words read on into the sentence about its connection as one about another group. */
  lemma {:induction false} UnsavedReadsOn()
    ensures var group := Node(4, Group, 1, 0, "", false, Readable([]));
            var e, any := Sample(group, "ab", CARD, FOLLOWS), [LOW_RULE];
            var calls := AThenCThenB("team", "conn", "other", any, any, any, WrittenLead());
            PlainNames(e) && FairAll(e, calls) && !NotesRight(e, CalledAll(e, [], calls))
  {
    var group := Node(4, Group, 1, 0, "", false, Readable([]));
    NamesFit();
    SamplePlain(group, "ab", CARD, FOLLOWS);
    LeadReadsOn();
    LeadWithout();
    LeadIs(OwnCopy(CARD), FOLLOWED, Unsaved(CARD));
    MisledBy(group, "ab", CARD, FOLLOWS, WrittenLead());
  }
}
