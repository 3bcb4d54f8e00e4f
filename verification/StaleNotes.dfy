/** The notes of one answer's cards, over every run of calls: when each says exactly which of the others
    would make it stale. */
module StaleNotes {
  import opened Lists
  import opened Text
  import opened Joining
  import opened BranchRules
  import opened ReviewTree
  import opened Notes
  import opened Proposals

  // ---- the stale notes ----

  /** Whether the card b, confirmed first, changes the rules the card a was read from. */
  ghost predicate Affects(e: Levels, a: Card, b: Card) { Changes(e, a.key, b.key, b.rules) }

  predicate Pair(a: Card, b: Card) { a.kind.ReviewSettings? && b.kind.ReviewSettings? && a.key != b.key }

  /** A branch-rule card's note holds the sentence about another exactly when that one makes it stale. */
  ghost predicate NotesRight(e: Levels, cards: seq<Card>) {
    forall i, j :: 0 <= i < |cards| && 0 <= j < |cards| && Pair(cards[i], cards[j]) ==>
      (Contains(cards[i].note, Say(e.words, cards[j].target)) <==> Affects(e, cards[i], cards[j]))
  }

  // ---- when names keep sentences apart ----

  /** Whether some card at x, confirmed first, would make one at a stale, and whether every one would. */
  ghost predicate May(e: Levels, a: string, x: string) {
    exists r: seq<Rule> :: Accepts(e, x, r) && Changes(e, a, x, r)
  }

  ghost predicate Must(e: Levels, a: string, x: string) {
    forall r: seq<Rule> :: Accepts(e, x, r) ==> Changes(e, a, x, r)
  }

  /** The sentence about c ends in all of the sentence about b. */
  predicate EndsIn(e: Levels, c: string, b: string) { Ends(e.words.opening + e.name(c), e.words.opening + e.name(b)) }

  /** And has a space before it there, so that other words of a note can stand where c's sentence begins. */
  predicate RunsInto(e: Levels, c: string, b: string) {
    Ends(e.words.opening + e.name(c), " " + e.words.opening + e.name(b))
  }

  ghost predicate Three(e: Levels, a: string, b: string, c: string) {
    Known(e, a) && Known(e, b) && Known(e, c) && a != b && a != c && b != c
  }

  /** Of two levels, the sentence about one ending in the sentence about the other, both or neither make a
      third level's card stale, whatever their cards say. */
  ghost predicate Apart(e: Levels) {
    forall a, b, c :: Three(e, a, b, c) && EndsIn(e, c, b) ==> ApartFor(e, a, b, c)
  }

  ghost predicate ApartFor(e: Levels, a: string, b: string, c: string) {
    May(e, a, c) || (RunsInto(e, c, b) && May(e, a, b)) ==> Must(e, a, b) && Must(e, a, c)
  }

  ghost predicate PlainNames(e: Levels) { forall k :: Known(e, k) ==> Plain(e.words, e.name(k)) }

  /** A piece of a's note that speaks of c, and with what stands before it ends as the sentence about b:
      then both make a stale. */
  lemma {:induction false} PieceApart(e: Levels, a: string, p: Piece, c: string, b: string)
    requires Apart(e) && Three(e, a, b, c) && May(e, a, c)
    requires Spaced(p.gap) && p.name == e.name(c) && Ends(Head(e.words, p), e.words.opening + e.name(b))
    ensures Must(e, a, b) && Must(e, a, c)
  {
    PieceEnds(e.words, p, e.name(b));
    if |e.name(b)| <= |e.name(c)| {
      assert EndsIn(e, c, b) && ApartFor(e, a, b, c);
    } else {
      RunsIntoEnds(e, b, c);
      assert Three(e, a, c, b) && ApartFor(e, a, c, b);
    }
  }

  lemma {:induction false} RunsIntoEnds(e: Levels, c: string, b: string)
    requires RunsInto(e, c, b)
    ensures EndsIn(e, c, b)
  {
    var t, h := e.words.opening + e.name(c), e.words.opening + e.name(b);
    assert " " + e.words.opening + e.name(b) == " " + h;
    assert t[|t| - |h|..] == t[|t| - |" " + h|..][1..];
  }

  // ---- one note ----

  /** The lists that branch-rule cards leave their levels, by key. */
  type StagedLists = map<string, seq<Rule>>

  ghost predicate Speaks(e: Levels, a: string, staged: StagedLists, name: string, key: string) {
    key in staged && key != a && name == e.name(key) && Changes(e, a, key, staged[key])
  }

  ghost predicate NoteRight(e: Levels, a: string, note: string, staged: StagedLists) {
    forall b :: b in staged && b != a ==> (Contains(note, Say(e.words, e.name(b))) <==> Changes(e, a, b, staged[b]))
  }

  /** The note is put together of other words, then sentences about staged cards that make a stale. */
  ghost predicate FormFor(e: Levels, a: string, staged: StagedLists, f: Form, note: string) {
    && Fits(e.words, f) && TextOf(e.words, f) == note
    && forall k :: 0 <= k < |f.pieces| ==> Speaks(e, a, staged, f.pieces[k].name, f.pieces[k].key)
  }

  ghost predicate NoteKept(e: Levels, a: string, note: string, staged: StagedLists) {
    exists f :: FormFor(e, a, staged, f, note)
  }

  ghost predicate AllAccepted(e: Levels, staged: StagedLists) { forall b :: b in staged ==> Accepts(e, b, staged[b]) }

  ghost predicate Setting(e: Levels, a: string, staged: StagedLists) {
    Apart(e) && PlainNames(e) && Known(e, a) && AllAccepted(e, staged)
  }

  /** What a piece about key ends as, of another staged level: one that makes a stale, as every card at key does. */
  lemma {:induction false} PieceTrue(e: Levels, a: string, staged: StagedLists, p: Piece, b: string)
    requires Setting(e, a, staged) && Spaced(p.gap) && Speaks(e, a, staged, p.name, p.key)
    requires Known(e, b) && b != a && b != p.key && Ends(Head(e.words, p), e.words.opening + e.name(b))
    ensures Must(e, a, b) && Must(e, a, p.key)
  {
    assert Accepts(e, p.key, staged[p.key]) && Changes(e, a, p.key, staged[p.key]);
    PieceApart(e, a, p, p.key, b);
  }

  /** A kept note is right if everything it ought to say is in it. */
  lemma {:induction false} KeptSaysTrue(e: Levels, a: string, staged: StagedLists, f: Form, note: string, b: string)
    requires Setting(e, a, staged) && FormFor(e, a, staged, f, note) && b in staged && b != a
    requires Contains(note, Say(e.words, e.name(b)))
    ensures Changes(e, a, b, staged[b])
  {
    Found(e.words, f, e.name(b));
    var k :| 0 <= k < |f.pieces| && Ends(Head(e.words, f.pieces[k]), e.words.opening + e.name(b));
    if f.pieces[k].key != b {
      PieceTrue(e, a, staged, f.pieces[k], b);
    }
  }

  /** A note so put together is right once all it ought to say is in it. */
  lemma {:induction false} RightFromForm(e: Levels, a: string, staged: StagedLists, f: Form, note: string)
    requires Setting(e, a, staged) && FormFor(e, a, staged, f, note)
    requires forall b :: b in staged && b != a && Changes(e, a, b, staged[b]) ==> Spoken(e.words, f.pieces, e.name(b))
    ensures NoteRight(e, a, note, staged) && NoteKept(e, a, note, staged)
  {
    forall b | b in staged && b != a
      ensures Contains(note, Say(e.words, e.name(b))) <==> Changes(e, a, b, staged[b])
    {
      if Contains(note, Say(e.words, e.name(b))) {
        KeptSaysTrue(e, a, staged, f, note, b);
      } else {
        Found(e.words, f, e.name(b));
      }
    }
  }

  /** What the piece about a level says is found in the note. */
  lemma {:induction false} PieceSaid(e: Levels, a: string, staged: StagedLists, f: Form, note: string, k: nat)
    requires Setting(e, a, staged) && FormFor(e, a, staged, f, note) && k < |f.pieces|
    ensures var p := f.pieces[k];
            Speaks(e, a, staged, p.name, p.key) && Contains(note, Say(e.words, e.name(p.key)))
  {
    var p := f.pieces[k];
    assert Speaks(e, a, staged, p.name, p.key);
    HeadEnds(e.words, p);
    assert Spoken(e.words, f.pieces, p.name);
    Found(e.words, f, p.name);
  }

  lemma HeadEnds(w: Phrase, p: Piece)
    ensures Ends(Head(w, p), w.opening + p.name)
  {
    assert Head(w, p) == p.gap + (w.opening + p.name);
  }

  lemma {:induction false} SpeaksStill(e: Levels, a: string, staged: StagedLists, p: Piece, key: string,
                                       rules: seq<Rule>)
    requires Speaks(e, a, staged, p.name, p.key) && key != a
    requires p.key == key ==> Changes(e, a, key, rules)
    ensures Speaks(e, a, staged[key := rules], p.name, p.key)
  {
  }

  // ---- an earlier card's note after a call ----

  ghost predicate Before(e: Levels, a: string, staged: StagedLists, f: Form, note: string, key: string,
                         rules: seq<Rule>) {
    && Setting(e, a, staged) && NoteRight(e, a, note, staged) && FormFor(e, a, staged, f, note)
    && Accepts(e, key, rules) && key != a
  }

  /** What another level's card still does, the note still says. */
  lemma {:induction false} SaidBy(e: Levels, a: string, staged: StagedLists, f: Form, note: string, b: string)
    returns (k: nat)
    requires Setting(e, a, staged) && NoteRight(e, a, note, staged) && FormFor(e, a, staged, f, note)
    requires b in staged && b != a && Changes(e, a, b, staged[b])
    ensures k < |f.pieces| && Ends(Head(e.words, f.pieces[k]), e.words.opening + e.name(b))
    ensures Speaks(e, a, staged, f.pieces[k].name, f.pieces[k].key)
  {
    Found(e.words, f, e.name(b));
    k :| 0 <= k < |f.pieces| && Ends(Head(e.words, f.pieces[k]), e.words.opening + e.name(b));
  }

  lemma {:induction false} NothingToUpdate(e: Levels, a: string, staged: StagedLists, f: Form, note: string,
                                           key: string, rules: seq<Rule>)
    requires Before(e, a, staged, f, note, key, rules)
    requires Contains(note, Say(e.words, e.name(key))) <==> Changes(e, a, key, rules)
    ensures NoteRight(e, a, note, staged[key := rules]) && NoteKept(e, a, note, staged[key := rules])
  {
    forall k | 0 <= k < |f.pieces|
      ensures Speaks(e, a, staged[key := rules], f.pieces[k].name, f.pieces[k].key)
    {
      PieceSaid(e, a, staged, f, note, k);
      SpeaksStill(e, a, staged, f.pieces[k], key, rules);
    }
    assert FormFor(e, a, staged[key := rules], f, note);
  }

  lemma {:induction false} AddedSpeaksOf(e: Levels, a: string, staged: StagedLists, f: Form, note: string, key: string,
                                           rules: seq<Rule>, k: nat)
    requires Before(e, a, staged, f, note, key, rules) && Changes(e, a, key, rules) && k <= |f.pieces|
    ensures var p := Trimmed(WithSentence(f, e.name(key), key)).pieces[k];
            Speaks(e, a, staged[key := rules], p.name, p.key)
  {
    TrimmedSays(WithSentence(f, e.name(key), key), k);
    var p := WithSentence(f, e.name(key), key).pieces[k];
    if k < |f.pieces| {
      assert p == f.pieces[k];
      assert Speaks(e, a, staged, f.pieces[k].name, f.pieces[k].key);
      SpeaksStill(e, a, staged, f.pieces[k], key, rules);
    } else {
      assert p.name == e.name(key) && p.key == key;
    }
  }

  lemma {:induction false} AddedForm(e: Levels, a: string, staged: StagedLists, f: Form, note: string, key: string,
                                     rules: seq<Rule>)
    requires Before(e, a, staged, f, note, key, rules) && Changes(e, a, key, rules)
    ensures FormFor(e, a, staged[key := rules], Trimmed(WithSentence(f, e.name(key), key)),
                    Trim(note + " " + Say(e.words, e.name(key))))
  {
    var w, t := e.words, e.name(key);
    var g := WithSentence(f, t, key);
    AddedFits(w, f, t, key);
    AddedText(w, f, t, key);
    TrimmedFits(w, g);
    TrimmedText(w, g);
    forall k | 0 <= k < |Trimmed(g).pieces|
      ensures Speaks(e, a, staged[key := rules], Trimmed(g).pieces[k].name, Trimmed(g).pieces[k].key)
    {
      AddedSpeaksOf(e, a, staged, f, note, key, rules, k);
    }
  }

  lemma {:induction false} AddedSpeaks(e: Levels, a: string, staged: StagedLists, f: Form, note: string, key: string,
                                           rules: seq<Rule>, b: string)
    requires Before(e, a, staged, f, note, key, rules)
    requires b in staged[key := rules] && b != a && Changes(e, a, b, staged[key := rules][b])
    ensures Spoken(e.words, WithSentence(f, e.name(key), key).pieces, e.name(b))
  {
    var ps := WithSentence(f, e.name(key), key).pieces;
    if b == key {
      HeadEnds(e.words, ps[|f.pieces|]);
    } else {
      var k := SaidBy(e, a, staged, f, note, b);
      assert ps[k] == f.pieces[k];
    }
  }

  lemma {:induction false} SentenceAdded(e: Levels, a: string, staged: StagedLists, f: Form, note: string,
                                         key: string, rules: seq<Rule>)
    requires Before(e, a, staged, f, note, key, rules) && Changes(e, a, key, rules)
    ensures var now := Trim(note + " " + Say(e.words, e.name(key)));
            NoteRight(e, a, now, staged[key := rules]) && NoteKept(e, a, now, staged[key := rules])
  {
    var after, g := staged[key := rules], WithSentence(f, e.name(key), key);
    AddedForm(e, a, staged, f, note, key, rules);
    AddedFits(e.words, f, e.name(key), key);
    forall b | b in after && b != a && Changes(e, a, b, after[b])
      ensures Spoken(e.words, Trimmed(g).pieces, e.name(b))
    {
      AddedSpeaks(e, a, staged, f, note, key, rules, b);
      TrimmedSpoken(e.words, g, e.name(b));
    }
    RightFromForm(e, a, after, Trimmed(g), Trim(note + " " + Say(e.words, e.name(key))));
  }

  /** A sentence found that is not due stands only where it was put for its own level: were it the end of
      another's, every card at its level would make a stale. */
  lemma {:induction false} StandsAlone(e: Levels, a: string, staged: StagedLists, f: Form, note: string, key: string,
                                           rules: seq<Rule>, k: nat)
    requires Before(e, a, staged, f, note, key, rules) && !Changes(e, a, key, rules) && k < |f.pieces|
    ensures var p := f.pieces[k];
            && (Ends(Head(e.words, p), e.words.opening + e.name(key)) ==> p.key == key)
            && (p.key == key <==> p.name == e.name(key))
  {
    var p := f.pieces[k];
    assert Speaks(e, a, staged, p.name, p.key);
    HeadEnds(e.words, p);
    if Ends(Head(e.words, p), e.words.opening + e.name(key)) && p.key != key {
      PieceTrue(e, a, staged, p, key);
    }
  }

  lemma {:induction false} AllStandAlone(e: Levels, a: string, staged: StagedLists, f: Form, note: string,
                                         key: string, rules: seq<Rule>)
    requires Before(e, a, staged, f, note, key, rules) && !Changes(e, a, key, rules)
    ensures OwnOnly(e.words, f.pieces, e.name(key))
    ensures forall k :: 0 <= k < |f.pieces| ==> (f.pieces[k].key == key <==> f.pieces[k].name == e.name(key))
  {
    forall k | 0 <= k < |f.pieces|
      ensures Ends(Head(e.words, f.pieces[k]), e.words.opening + e.name(key)) ==> f.pieces[k].key == key
      ensures f.pieces[k].key == key <==> f.pieces[k].name == e.name(key)
    {
      StandsAlone(e, a, staged, f, note, key, rules, k);
    }
  }

  /** The cut as text is the cut of the pieces. */
  lemma {:induction false} CutIs(w: Words, f: Form, name: string)
    requires Fits(w, f) && Plain(w, name) && OwnOnly(w, f.pieces, name) && f.pieces != []
    ensures var g := CutOut(f, name);
            Fits(w, g) && TextOf(w, g) == ReplaceAll(TextOf(w, f), Say(w, name), "")
  {
    assert Without("", w.ending);
    CutFits(w, f.pieces, f.tail, name, "");
    CutText(w, f.pieces, f.tail, name, "");
  }

  lemma TrimmedSays(g: Form, k: nat)
    requires k < |g.pieces|
    ensures |Trimmed(g).pieces| == |g.pieces|
    ensures Trimmed(g).pieces[k].name == g.pieces[k].name && Trimmed(g).pieces[k].key == g.pieces[k].key
  {
  }

  /** A piece left by the cut was there before, and is of another level. */
  lemma {:induction false} CutFrom(ps: seq<Piece>, name: string, k: nat) returns (j: nat)
    requires k < |CutPieces(ps, name, "")|
    ensures var p := CutPieces(ps, name, "")[k];
            j < |ps| && ps[j].name == p.name != name && ps[j].key == p.key
  {
    CutAmong(ps, name, "", k);
    var p := CutPieces(ps, name, "")[k];
    j :| 0 <= j < |ps| && ps[j].name == p.name && ps[j].key == p.key;
  }

  lemma {:induction false} CutSpeaksOf(e: Levels, a: string, staged: StagedLists, f: Form, note: string, key: string,
                                           rules: seq<Rule>, k: nat)
    requires Before(e, a, staged, f, note, key, rules) && !Changes(e, a, key, rules)
    requires k < |CutOut(f, e.name(key)).pieces|
    ensures var p := CutOut(f, e.name(key)).pieces[k];
            Speaks(e, a, staged[key := rules], p.name, p.key)
  {
    var j := CutFrom(f.pieces, e.name(key), k);
    StandsAlone(e, a, staged, f, note, key, rules, j);
    assert Speaks(e, a, staged, f.pieces[j].name, f.pieces[j].key);
    SpeaksStill(e, a, staged, f.pieces[j], key, rules);
  }

  lemma {:induction false} CutForm(e: Levels, a: string, staged: StagedLists, f: Form, note: string, key: string,
                                   rules: seq<Rule>)
    requires Before(e, a, staged, f, note, key, rules) && !Changes(e, a, key, rules) && f.pieces != []
    ensures Fits(e.words, CutOut(f, e.name(key)))
    ensures FormFor(e, a, staged[key := rules], Trimmed(CutOut(f, e.name(key))),
                    Trim(ReplaceAll(note, Say(e.words, e.name(key)), "")))
  {
    var w, t := e.words, e.name(key);
    var g := CutOut(f, t);
    AllStandAlone(e, a, staged, f, note, key, rules);
    CutIs(w, f, t);
    TrimmedFits(w, g);
    TrimmedText(w, g);
    forall k | 0 <= k < |Trimmed(g).pieces|
      ensures Speaks(e, a, staged[key := rules], Trimmed(g).pieces[k].name, Trimmed(g).pieces[k].key)
    {
      CutSpeaksOf(e, a, staged, f, note, key, rules, k);
      TrimmedSays(g, k);
    }
  }

  lemma {:induction false} CutStillSpeaks(e: Levels, a: string, staged: StagedLists, f: Form, note: string, key: string,
                                              rules: seq<Rule>, b: string)
    requires Before(e, a, staged, f, note, key, rules) && !Changes(e, a, key, rules)
    requires b in staged && b != a && b != key && Changes(e, a, b, staged[b])
    ensures Spoken(e.words, CutOut(f, e.name(key)).pieces, e.name(b))
  {
    var k := SaidBy(e, a, staged, f, note, b);
    StandsAlone(e, a, staged, f, note, key, rules, k);
    if f.pieces[k].key == key {
      PieceTrue(e, a, staged, f.pieces[k], b);
    } else {
      CutSpoken(e.words, f.pieces, e.name(key), "", k, e.name(b));
    }
  }

  lemma {:induction false} CutStillSpoken(e: Levels, a: string, staged: StagedLists, f: Form, note: string, key: string,
                                              rules: seq<Rule>, b: string)
    requires Before(e, a, staged, f, note, key, rules) && !Changes(e, a, key, rules) &&
      Fits(e.words, CutOut(f, e.name(key)))
    requires b in staged[key := rules] && b != a && Changes(e, a, b, staged[key := rules][b])
    ensures Spoken(e.words, Trimmed(CutOut(f, e.name(key))).pieces, e.name(b))
  {
    CutStillSpeaks(e, a, staged, f, note, key, rules, b);
    TrimmedSpoken(e.words, CutOut(f, e.name(key)), e.name(b));
  }

  lemma {:induction false} AllStillSpoken(e: Levels, a: string, staged: StagedLists, f: Form, note: string, key: string,
                                              rules: seq<Rule>)
    requires Before(e, a, staged, f, note, key, rules) && !Changes(e, a, key, rules) &&
      Fits(e.words, CutOut(f, e.name(key)))
    ensures var after := staged[key := rules];
            forall b :: b in after && b != a && Changes(e, a, b, after[b]) ==>
              Spoken(e.words, Trimmed(CutOut(f, e.name(key))).pieces, e.name(b))
  {
    var after := staged[key := rules];
    forall b | b in after && b != a && Changes(e, a, b, after[b])
      ensures Spoken(e.words, Trimmed(CutOut(f, e.name(key))).pieces, e.name(b))
    {
      CutStillSpoken(e, a, staged, f, note, key, rules, b);
    }
  }

  lemma {:induction false} SettingStays(e: Levels, a: string, staged: StagedLists, key: string, rules: seq<Rule>)
    requires Setting(e, a, staged) && Accepts(e, key, rules)
    ensures Setting(e, a, staged[key := rules])
  {
  }

  lemma {:induction false} SentenceCut(e: Levels, a: string, staged: StagedLists, f: Form, note: string, key: string,
                                           rules: seq<Rule>)
    requires Before(e, a, staged, f, note, key, rules) && !Changes(e, a, key, rules)
    requires Contains(note, Say(e.words, e.name(key)))
    ensures var now := Trim(ReplaceAll(note, Say(e.words, e.name(key)), ""));
            NoteRight(e, a, now, staged[key := rules]) && NoteKept(e, a, now, staged[key := rules])
  {
    var now := Trim(ReplaceAll(note, Say(e.words, e.name(key)), ""));
    Found(e.words, f, e.name(key));
    CutForm(e, a, staged, f, note, key, rules);
    AllStillSpoken(e, a, staged, f, note, key, rules);
    SettingStays(e, a, staged, key, rules);
    RightFromForm(e, a, staged[key := rules], Trimmed(CutOut(f, e.name(key))), now);
  }

  /** An earlier card's note, right before a call, is right after it. */
  lemma {:induction false} NoteStaysRight(e: Levels, a: string, staged: StagedLists, note: string, key: string,
                                          rules: seq<Rule>)
    requires Setting(e, a, staged) && NoteRight(e, a, note, staged) && NoteKept(e, a, note, staged)
    requires Accepts(e, key, rules) && key != a
    ensures var now := Updated(e.words, note, e.name(key), Changes(e, a, key, rules));
            NoteRight(e, a, now, staged[key := rules]) && NoteKept(e, a, now, staged[key := rules])
  {
    var f :| FormFor(e, a, staged, f, note);
    if Changes(e, a, key, rules) == Contains(note, Say(e.words, e.name(key))) {
      NothingToUpdate(e, a, staged, f, note, key, rules);
    } else if Changes(e, a, key, rules) {
      SentenceAdded(e, a, staged, f, note, key, rules);
    } else {
      SentenceCut(e, a, staged, f, note, key, rules);
    }
  }

  // ---- the new card's note ----

  /** The new card's note as it is put together. */
  function NewForm(e: Levels, cards: seq<Card>, key: string, lead: seq<string>): Form {
    if cards == [] then Form([], Join(lead, " "))
    else
      var n := |cards| - 1;
      var f := NewForm(e, cards[..n], key, lead);
      if !Reaches(e, cards[n], key) then f
      else Another(f, lead + SaidAt(e, cards[..n], key) == [], cards[n].target, cards[n].key)
  }

  /** Branch-rule cards are for levels the tree has, named as the tree names them. */
  ghost predicate Placed(e: Levels, cards: seq<Card>) {
    forall i :: 0 <= i < |cards| && cards[i].kind.ReviewSettings? ==>
      Known(e, cards[i].key) && cards[i].target == e.name(cards[i].key)
  }

  /** One more sentence of a new note: the first of a note that says nothing else stands alone. */
  function Another(f: Form, alone: bool, name: string, key: string): Form {
    if alone then Form([Piece("", name, key)], "") else WithSentence(f, name, key)
  }

  lemma {:induction false} AnotherIs(w: Words, f: Form, parts: seq<string>, name: string, key: string)
    requires Fits(w, f) && TextOf(w, f) == Join(parts, " ") && Plain(w, name)
    ensures var g := Another(f, parts == [], name, key);
            Fits(w, g) && TextOf(w, g) == Join(parts + [Say(w, name)], " ")
  {
    JoinSnoc(parts, Say(w, name), " ");
    assert Without("", w.ending);
    if parts == [] {
      OneSentence(w, name, key);
    } else {
      AddedFits(w, f, name, key);
      AddedText(w, f, name, key);
    }
  }

  lemma {:induction false} NewFormIs(e: Levels, cards: seq<Card>, key: string, lead: seq<string>)
    requires Placed(e, cards) && PlainNames(e) && Without(Join(lead, " "), e.words.ending)
    ensures var f := NewForm(e, cards, key, lead);
            && Fits(e.words, f) && TextOf(e.words, f) == Join(lead + SaidAt(e, cards, key), " ")
            && (f.pieces == [] <==> SaidAt(e, cards, key) == [])
  {
    if cards == [] {
      assert lead + [] == lead;
    } else {
      var n := |cards| - 1;
      NewFormIs(e, cards[..n], key, lead);
      if Reaches(e, cards[n], key) {
        var said, more := SaidAt(e, cards[..n], key), [Say(e.words, cards[n].target)];
        assert SaidAt(e, cards, key) == said + more;
        assert lead + (said + more) == (lead + said) + more;
        AnotherIs(e.words, NewForm(e, cards[..n], key, lead), lead + said, cards[n].target, cards[n].key);
      } else {
        assert SaidAt(e, cards, key) == SaidAt(e, cards[..n], key);
      }
    }
  }

  lemma OneSentence(w: Phrase, name: string, key: string)
    ensures TextOf(w, Form([Piece("", name, key)], "")) == Say(w, name)
  {
    var p := Piece("", name, key);
    assert Head(w, p) == w.opening + name && [p] == [p] + [];
    SpelledCons(w, p, [], "");
    assert Head(w, p) + w.ending + "" == Say(w, name);
  }

  lemma {:induction false} NewFormSpeaks(e: Levels, cards: seq<Card>, key: string, lead: seq<string>, k: nat)
    returns (i: nat)
    requires Placed(e, cards) && PlainNames(e) && Without(Join(lead, " "), e.words.ending)
    requires k < |NewForm(e, cards, key, lead).pieces|
    ensures var p := NewForm(e, cards, key, lead).pieces[k];
            i < |cards| && Reaches(e, cards[i], key) && p.name == cards[i].target && p.key == cards[i].key
  {
    var n := |cards| - 1;
    var f := NewForm(e, cards[..n], key, lead);
    NewFormIs(e, cards[..n], key, lead);
    var alone := lead + SaidAt(e, cards[..n], key) == [];
    var g := NewForm(e, cards, key, lead);
    if k < |f.pieces| {
      assert !alone;
      i := NewFormSpeaks(e, cards[..n], key, lead, k);
      assert g.pieces[k] == f.pieces[k];
    } else {
      i := n;
      assert g == if Reaches(e, cards[n], key) then Another(f, alone, cards[n].target, cards[n].key) else f;
    }
  }

  lemma {:induction false} NewFormSays(e: Levels, cards: seq<Card>, key: string, lead: seq<string>, i: nat)
    requires i < |cards| && Reaches(e, cards[i], key)
    requires Placed(e, cards) && PlainNames(e) && Without(Join(lead, " "), e.words.ending)
    ensures Spoken(e.words, NewForm(e, cards, key, lead).pieces, cards[i].target)
  {
    var n := |cards| - 1;
    var f, g := NewForm(e, cards[..n], key, lead), NewForm(e, cards, key, lead);
    var alone := lead + SaidAt(e, cards[..n], key) == [];
    NewFormIs(e, cards[..n], key, lead);
    assert g == if Reaches(e, cards[n], key) then Another(f, alone, cards[n].target, cards[n].key) else f;
    if i == n {
      var last := |g.pieces| - 1;
      assert g.pieces[last].name == cards[n].target;
      HeadEnds(e.words, g.pieces[last]);
      assert Ends(Head(e.words, g.pieces[last]), e.words.opening + cards[i].target);
    } else {
      NewFormSays(e, cards[..n], key, lead, i);
      var k :| 0 <= k < |f.pieces| && Ends(Head(e.words, f.pieces[k]), e.words.opening + cards[i].target);
      assert g.pieces[k] == f.pieces[k];
    }
  }

  /** staged is the lists of the branch-rule cards among cards. */
  ghost predicate Tracks(cards: seq<Card>, staged: StagedLists) {
    && (forall i :: 0 <= i < |cards| && cards[i].kind.ReviewSettings? ==>
          cards[i].key in staged && staged[cards[i].key] == cards[i].rules)
    && (forall b :: b in staged ==> HasRules(cards, b))
  }

  ghost predicate HasRules(cards: seq<Card>, key: string) {
    exists i :: 0 <= i < |cards| && cards[i].kind.ReviewSettings? && cards[i].key == key
  }

  lemma {:induction false} NewNoteRight(e: Levels, cards: seq<Card>, staged: StagedLists, key: string,
                                        rules: seq<Rule>, lead: seq<string>)
    requires Apart(e) && PlainNames(e) && AllAccepted(e, staged) && Accepts(e, key, rules)
    requires Placed(e, cards) && Tracks(cards, staged) && Without(Join(lead, " "), e.words.ending)
    ensures var note := Join(lead + SaidAt(e, cards, key), " ");
            NoteRight(e, key, note, staged[key := rules]) && NoteKept(e, key, note, staged[key := rules])
  {
    var after, f := staged[key := rules], NewForm(e, cards, key, lead);
    var note := Join(lead + SaidAt(e, cards, key), " ");
    NewFormIs(e, cards, key, lead);
    forall k | 0 <= k < |f.pieces|
      ensures Speaks(e, key, after, f.pieces[k].name, f.pieces[k].key)
    {
      var i := NewFormSpeaks(e, cards, key, lead, k);
      assert cards[i].key in staged && staged[cards[i].key] == cards[i].rules;
    }
    assert FormFor(e, key, after, f, note);
    forall b | b in after && b != key && Changes(e, key, b, after[b])
      ensures Spoken(e.words, f.pieces, e.name(b))
    {
      assert HasRules(cards, b);
      var i :| 0 <= i < |cards| && cards[i].kind.ReviewSettings? && cards[i].key == b;
      assert staged[b] == cards[i].rules;
      NewFormSays(e, cards, key, lead, i);
    }
    RightFromForm(e, key, after, f, note);
  }

  // ---- every run of calls ----

  /** The cards of one answer as calls leave them: their notes are right, and put together as they should be. */
  ghost predicate Sound(e: Levels, cards: seq<Card>, staged: StagedLists) {
    && Placed(e, cards) && OnePerThing(cards) && Tracks(cards, staged) && AllAccepted(e, staged)
    && forall i :: 0 <= i < |cards| && cards[i].kind.ReviewSettings? ==> CardSound(e, cards[i], staged)
  }

  ghost predicate CardSound(e: Levels, c: Card, staged: StagedLists) {
    NoteRight(e, c.key, c.note, staged) && NoteKept(e, c.key, c.note, staged)
  }

  lemma {:induction false} SoundIsRight(e: Levels, cards: seq<Card>, staged: StagedLists)
    requires Sound(e, cards, staged)
    ensures NotesRight(e, cards)
  {
    forall i, j | 0 <= i < |cards| && 0 <= j < |cards| && Pair(cards[i], cards[j])
      ensures Contains(cards[i].note, Say(e.words, cards[j].target)) <==> Affects(e, cards[i], cards[j])
    {
      assert CardSound(e, cards[i], staged) && staged[cards[j].key] == cards[j].rules;
    }
  }

  /** A call that draws branch rules only as such a card, whose other words do not themselves end a sentence about
      a card, and which may be staged, unless it is for a repository without a row: the address of any other level's
      save is one that may. */
  ghost predicate Fair(e: Levels, c: Call) {
    if c.Rules? then
      Without(Join(c.lead, " "), e.words.ending) && (c.allowed || (c.key in e.level && e.level[c.key].id == 0))
    else !c.card.kind.ReviewSettings?
  }

  /** What a staged branch-rule call leaves at each place: the new card, or an old one renoted. */
  lemma {:induction false} AfterRules(e: Levels, cards: seq<Card>, call: Call) returns (at: nat)
    requires call.Rules? && call.allowed && Refused(e, cards, call).None?
    ensures Called(e, cards, call).1 == None
    ensures var now, p := Called(e, cards, call).0, NewCard(e, cards, call);
            && at < |now| && now[at] == p && |cards| <= |now| <= |cards| + 1
            && (at < |cards| ==> SameThing(cards[at], ReviewSettings, call.key) && |now| == |cards|)
            && (at >= |cards| ==> forall k :: 0 <= k < |cards| ==> !SameThing(cards[k], ReviewSettings, call.key))
            && forall i :: 0 <= i < |now| && i != at ==>
                 i < |cards| && now[i] == Renoted(e, cards[i], call.key, call.rules)
  {
    var noted := RenotedAll(e, cards, call.key, call.rules);
    at := PlaceOf(noted, ReviewSettings, call.key);
    SamePlace(cards, noted, ReviewSettings, call.key);
  }

  lemma {:induction false} SamePlace(a: seq<Card>, b: seq<Card>, kind: CardKind, key: string)
    requires |a| == |b| && forall i :: 0 <= i < |a| ==>
      a[i].kind == b[i].kind && a[i].key == b[i].key && a[i].id == b[i].id
    ensures PlaceOf(a, kind, key) == PlaceOf(b, kind, key)
  {
    if a != [] && !SameThing(a[0], kind, key) {
      SamePlace(a[1..], b[1..], kind, key);
    }
  }

  /** No card at another place is on the new card's level. */
  lemma {:induction false} OneAtKey(cards: seq<Card>, at: nat, i: nat, key: string)
    requires OnePerThing(cards) && key != "" && i < |cards| && i != at && cards[i].kind.ReviewSettings?
    requires at < |cards| ==> SameThing(cards[at], ReviewSettings, key)
    requires at >= |cards| ==> forall k :: 0 <= k < |cards| ==> !SameThing(cards[k], ReviewSettings, key)
    ensures cards[i].key != key
  {
    if at < |cards| {
      assert i < at ==> !SameThing(cards[at], cards[i].kind, cards[i].key);
      assert at < i ==> !SameThing(cards[i], cards[at].kind, cards[at].key);
    } else {
      assert !SameThing(cards[i], ReviewSettings, key);
    }
  }

  lemma {:induction false} RenotedSound(e: Levels, c: Card, staged: StagedLists, key: string, rules: seq<Rule>)
    requires Apart(e) && PlainNames(e) && AllAccepted(e, staged) && Accepts(e, key, rules)
    requires c.kind.ReviewSettings? && Known(e, c.key) && c.key != key && CardSound(e, c, staged)
    ensures CardSound(e, Renoted(e, c, key, rules), staged[key := rules])
  {
    NoteStaysRight(e, c.key, staged, c.note, key, rules);
  }

  /** Every card but one is as it was, its note aside. */
  predicate KeepsOthers(cards: seq<Card>, now: seq<Card>, at: nat) {
    forall i :: 0 <= i < |now| && i != at ==> i < |cards| && SameButNote(now[i], cards[i])
  }

  predicate SameButNote(c: Card, d: Card) { c == d.(note := c.note) }

  lemma {:induction false} StillTracks(cards: seq<Card>, now: seq<Card>, staged: StagedLists, at: nat, p: Card)
    requires Tracks(cards, staged) && p.kind.ReviewSettings? && at < |now| && now[at] == p &&
      |cards| <= |now| <= |cards| + 1
    requires KeepsOthers(cards, now, at)
    requires forall i :: 0 <= i < |now| && i != at && now[i].kind.ReviewSettings? ==> now[i].key != p.key
    requires at < |cards| ==> cards[at].key == p.key
    ensures Tracks(now, staged[p.key := p.rules])
  {
    forall b | b in staged[p.key := p.rules]
      ensures HasRules(now, b)
    {
      if b == p.key {
        assert now[at].key == b;
      } else {
        assert HasRules(cards, b);
        var i :| 0 <= i < |cards| && cards[i].kind.ReviewSettings? && cards[i].key == b;
        if i != at {
          assert SameButNote(now[i], cards[i]);
        }
        assert now[i].key == b;
      }
    }
  }

  /** The cards after a branch-rule call was staged: p at place at, every other one renoted. */
  ghost predicate StagedAt(e: Levels, cards: seq<Card>, p: Card, at: nat, now: seq<Card>) {
    && p.kind.ReviewSettings? && p.key != "" && at < |now| && now[at] == p && |cards| <= |now| <= |cards| + 1
    && (at < |cards| ==> SameThing(cards[at], ReviewSettings, p.key))
    && (at >= |cards| ==> forall k :: 0 <= k < |cards| ==> !SameThing(cards[k], ReviewSettings, p.key))
    && forall i :: 0 <= i < |now| && i != at ==> i < |cards| && now[i] == Renoted(e, cards[i], p.key, p.rules)
  }

  lemma {:induction false} OthersElsewhere(e: Levels, cards: seq<Card>, p: Card, at: nat, now: seq<Card>)
    requires OnePerThing(cards) && StagedAt(e, cards, p, at, now)
    ensures forall i :: 0 <= i < |now| && i != at && now[i].kind.ReviewSettings? ==> now[i].key != p.key
  {
    forall i | 0 <= i < |now| && i != at && now[i].kind.ReviewSettings?
      ensures now[i].key != p.key
    {
      OneAtKey(cards, at, i, p.key);
    }
  }

  lemma {:induction false} OtherKept(e: Levels, cards: seq<Card>, p: Card, at: nat, now: seq<Card>, i: nat)
    requires StagedAt(e, cards, p, at, now) && i < |now| && i != at
    ensures i < |cards| && SameButNote(now[i], cards[i])
  {
    var c := now[i];
    assert i < |cards| && c == Renoted(e, cards[i], p.key, p.rules);
  }

  lemma {:induction false} OthersKept(e: Levels, cards: seq<Card>, p: Card, at: nat, now: seq<Card>)
    requires StagedAt(e, cards, p, at, now)
    ensures KeepsOthers(cards, now, at)
  {
    forall i | 0 <= i < |now| && i != at
      ensures i < |cards| && SameButNote(now[i], cards[i])
    {
      OtherKept(e, cards, p, at, now, i);
    }
  }

  lemma {:induction false} StagedPlaced(e: Levels, cards: seq<Card>, staged: StagedLists, p: Card, at: nat,
                                        now: seq<Card>)
    requires Placed(e, cards) && OnePerThing(cards) && Tracks(cards, staged) && AllAccepted(e, staged)
    requires StagedAt(e, cards, p, at, now) && Accepts(e, p.key, p.rules) && p.target == e.name(p.key)
    ensures Placed(e, now) && Tracks(now, staged[p.key := p.rules]) && AllAccepted(e, staged[p.key := p.rules])
    ensures forall i :: 0 <= i < |now| && i != at && now[i].kind.ReviewSettings? ==> now[i].key != p.key
  {
    OthersElsewhere(e, cards, p, at, now);
    OthersKept(e, cards, p, at, now);
    StillTracks(cards, now, staged, at, p);
  }

  lemma {:induction false} OtherSound(e: Levels, cards: seq<Card>, staged: StagedLists, p: Card, at: nat,
                                      now: seq<Card>, i: nat)
    requires Apart(e) && PlainNames(e) && Sound(e, cards, staged) && StagedAt(e, cards, p, at, now)
    requires Accepts(e, p.key, p.rules) && i < |now| && i != at && now[i].kind.ReviewSettings? && now[i].key != p.key
    ensures CardSound(e, now[i], staged[p.key := p.rules])
  {
    assert now[i] == Renoted(e, cards[i], p.key, p.rules);
    RenotedSound(e, cards[i], staged, p.key, p.rules);
  }

  lemma {:induction false} StagedSound(e: Levels, cards: seq<Card>, staged: StagedLists, p: Card, at: nat,
                                       now: seq<Card>)
    requires Apart(e) && PlainNames(e) && Sound(e, cards, staged) && StagedAt(e, cards, p, at, now) &&
      Accepts(e, p.key, p.rules)
    requires p.target == e.name(p.key) && CardSound(e, p, staged[p.key := p.rules]) && OnePerThing(now)
    ensures Sound(e, now, staged[p.key := p.rules])
  {
    StagedPlaced(e, cards, staged, p, at, now);
    forall i | 0 <= i < |now| && now[i].kind.ReviewSettings?
      ensures CardSound(e, now[i], staged[p.key := p.rules])
    {
      if i != at {
        OtherSound(e, cards, staged, p, at, now, i);
      }
    }
  }

  lemma {:induction false} RulesKeepSound(e: Levels, cards: seq<Card>, staged: StagedLists, call: Call)
    requires Apart(e) && PlainNames(e) && Sound(e, cards, staged)
    requires call.Rules? && Fair(e, call) && call.allowed && Refused(e, cards, call).None?
    requires OnePerThing(Called(e, cards, call).0)
    ensures Sound(e, Called(e, cards, call).0, staged[call.key := call.rules])
  {
    var now, p := Called(e, cards, call).0, NewCard(e, cards, call);
    var at := AfterRules(e, cards, call);
    NewNoteRight(e, cards, staged, call.key, call.rules, call.lead);
    StagedSound(e, cards, staged, p, at, now);
  }

  /** No note speaks of a repository without a row, nor of another in words that end so. */
  lemma {:induction false} RowlessUnsaid(e: Levels, a: string, staged: StagedLists, f: Form, note: string, key: string)
    requires Setting(e, a, staged) && FormFor(e, a, staged, f, note)
    requires Known(e, key) && key != a && e.level[key].id == 0
    ensures !Contains(note, Say(e.words, e.name(key)))
  {
    Found(e.words, f, e.name(key));
    var rules := SomeAccepted(e, key);
    assert !Changes(e, a, key, rules);
    forall k | 0 <= k < |f.pieces|
      ensures !Ends(Head(e.words, f.pieces[k]), e.words.opening + e.name(key))
    {
      assert Speaks(e, a, staged, f.pieces[k].name, f.pieces[k].key);
      if Ends(Head(e.words, f.pieces[k]), e.words.opening + e.name(key)) {
        PieceTrue(e, a, staged, f.pieces[k], key);
      }
    }
  }

  /** A card refused when it is staged has changed no note. */
  lemma {:induction false} RefusedKeepsCards(e: Levels, cards: seq<Card>, staged: StagedLists, call: Call)
    requires Apart(e) && PlainNames(e) && Sound(e, cards, staged)
    requires call.Rules? && !call.allowed && Fair(e, call) && Refused(e, cards, call).None?
    ensures Called(e, cards, call).0 == cards
  {
    var noted := RenotedAll(e, cards, call.key, call.rules);
    forall i | 0 <= i < |cards|
      ensures noted[i] == cards[i]
    {
      RenotedSame(e, cards[i], staged, call.key, call.rules);
    }
  }

  lemma {:induction false} RenotedSame(e: Levels, c: Card, staged: StagedLists, key: string, rules: seq<Rule>)
    requires Apart(e) && PlainNames(e) && AllAccepted(e, staged) && Known(e, key) && e.level[key].id == 0
    requires c.kind.ReviewSettings? ==> CardSound(e, c, staged)
    ensures Renoted(e, c, key, rules) == c
  {
    if OtherRules(c, key) && Known(e, c.key) {
      var f :| FormFor(e, c.key, staged, f, c.note);
      RowlessUnsaid(e, c.key, staged, f, c.note, key);
    }
  }

  /** A call accepted or refused keeps every note right, where the names of levels keep sentences apart. */
  lemma {:induction false} NotesStayRight(e: Levels, cards: seq<Card>, staged: StagedLists, call: Call)
    returns (after: StagedLists)
    requires Apart(e) && PlainNames(e) && Fair(e, call)
    requires Sound(e, cards, staged) && NeedsStaged(cards)
    ensures Sound(e, Called(e, cards, call).0, after) && NeedsStaged(Called(e, cards, call).0)
  {
    CallKeeps(e, cards, call);
    after := staged;
    if call.Other? {
      OtherKeepsSound(e, cards, staged, call);
    } else if Refused(e, cards, call).None? {
      if call.allowed {
        RulesKeepSound(e, cards, staged, call);
        after := staged[call.key := call.rules];
      } else {
        RefusedKeepsCards(e, cards, staged, call);
      }
    }
  }

  /** The branch-rule cards of cards and now are the same, in the same places. */
  predicate SameRules(cards: seq<Card>, now: seq<Card>) {
    && |cards| <= |now|
    && forall i :: 0 <= i < |now| ==>
         if i < |cards| && cards[i].kind.ReviewSettings? then now[i] == cards[i] else !now[i].kind.ReviewSettings?
  }

  lemma {:induction false} SameRulesTrack(cards: seq<Card>, now: seq<Card>, staged: StagedLists)
    requires SameRules(cards, now) && Tracks(cards, staged)
    ensures Tracks(now, staged)
  {
    forall b | b in staged
      ensures HasRules(now, b)
    {
      assert HasRules(cards, b);
      var i :| 0 <= i < |cards| && cards[i].kind.ReviewSettings? && cards[i].key == b;
      assert now[i].key == b;
    }
  }

  lemma {:induction false} SameRulesSound(e: Levels, cards: seq<Card>, now: seq<Card>, staged: StagedLists)
    requires SameRules(cards, now) && OnePerThing(now) && Sound(e, cards, staged)
    ensures Sound(e, now, staged)
  {
    SameRulesTrack(cards, now, staged);
  }

  lemma {:induction false} OtherKeepsRules(cards: seq<Card>, p: Card, allowed: bool)
    requires OnePerThing(cards) && !p.kind.ReviewSettings? && Staged(cards, p, allowed).Ok?
    ensures SameRules(cards, Staged(cards, p, allowed).value)
  {
    var i := PlaceOf(cards, p.kind, p.key);
    assert i < |cards| ==> cards[i].kind == p.kind;
  }

  lemma {:induction false} OtherKeepsSound(e: Levels, cards: seq<Card>, staged: StagedLists, call: Call)
    requires Sound(e, cards, staged) && call.Other? && !call.card.kind.ReviewSettings?
    ensures Sound(e, Called(e, cards, call).0, staged)
  {
    var p := call.card.(id := IdFor(cards, call.card.kind, call.card.key, call.card.id), needs := "");
    if Staged(cards, p, call.allowed).Ok? {
      StagedKeeps(cards, p, call.allowed);
      OtherKeepsRules(cards, p, call.allowed);
      SameRulesSound(e, cards, Staged(cards, p, call.allowed).value, staged);
    }
  }

  lemma {:induction false} RunKeepsNotes(e: Levels, cards: seq<Card>, staged: StagedLists, calls: seq<Call>)
    requires Apart(e) && PlainNames(e) && forall i :: 0 <= i < |calls| ==> Fair(e, calls[i])
    requires Sound(e, cards, staged) && NeedsStaged(cards)
    ensures NotesRight(e, CalledAll(e, cards, calls))
    decreases |calls|
  {
    if calls == [] {
      SoundIsRight(e, cards, staged);
    } else {
      var after := NotesStayRight(e, cards, staged, calls[0]);
      RunKeepsNotes(e, Called(e, cards, calls[0]).0, after, calls[1..]);
    }
  }

  // ---- and only then ----

  function RulesCall(key: string, rules: seq<Rule>, lead: seq<string>): Call {
    Call.Rules(key, rules, lead, "", key, true)
  }

  /** The one rule of the built-in default, and the same with a strictness of its own. */
  const ANY_RULE := Rule("", "", [], [DEFAULT_TYPE], Unset, NO_OVERRIDES)

  const LOW_RULE := Rule("", "", [], [DEFAULT_TYPE], Low, NO_OVERRIDES)

  /** A level can always be given some list. */
  lemma {:induction false} SomeAccepted(e: Levels, key: string) returns (rules: seq<Rule>)
    requires Known(e, key)
    ensures rules != [] && Accepts(e, key, rules)
  {
    var run := Effective(e.tree, e.level[key], e.builtin);
    rules := if run == ReviewTree.Rules([ANY_RULE]) then [LOW_RULE] else [ANY_RULE];
    assert [LOW_RULE][0] != [ANY_RULE][0];
  }

  /** The first card is the one at a, and says note. */
  ghost predicate Seat(e: Levels, cards: seq<Card>, a: string, note: string) {
    cards != [] && cards[0].kind.ReviewSettings? && cards[0].key == a && cards[0].note == note
  }

  ghost predicate Standing(e: Levels, cards: seq<Card>, key: string, rules: seq<Rule>) {
    exists i :: 0 <= i < |cards| && cards[i].kind.ReviewSettings? && cards[i].key == key && cards[i].rules == rules
                && cards[i].target == e.name(key)
  }

  lemma {:induction false} SeatFirst(e: Levels, a: string, rules: seq<Rule>, lead: seq<string>)
    requires Accepts(e, a, rules)
    ensures Seat(e, Called(e, [], RulesCall(a, rules, lead)).0, a, Join(lead, " "))
  {
    assert lead + [] == lead;
  }

  /** What a card at a says of key's, after a call there. */
  function NoteAfter(e: Levels, a: string, note: string, key: string, rules: seq<Rule>): string {
    Updated(e.words, note, e.name(key), Changes(e, a, key, rules))
  }

  lemma {:induction false} SeatNext(e: Levels, cards: seq<Card>, a: string, note: string, key: string, rules: seq<Rule>)
    requires Seat(e, cards, a, note) && Known(e, a) && key != a && Accepts(e, key, rules)
    ensures var now := Called(e, cards, RulesCall(key, rules, [])).0;
            Seat(e, now, a, NoteAfter(e, a, note, key, rules)) && Standing(e, now, key, rules)
  {
    var call := RulesCall(key, rules, []);
    var now := Called(e, cards, call).0;
    var at := AfterRules(e, cards, call);
    assert at != 0;
    assert now[0] == Renoted(e, cards[0], key, rules);
    assert now[at].target == e.name(key) && now[at].rules == rules;
  }

  lemma {:induction false} StandsOn(e: Levels, cards: seq<Card>, key: string, rules: seq<Rule>, other: string,
                                    list: seq<Rule>)
    requires Accepts(e, key, rules) && Standing(e, cards, other, list) && other != key
    ensures Standing(e, Called(e, cards, RulesCall(key, rules, [])).0, other, list)
  {
    var call := RulesCall(key, rules, []);
    var at := AfterRules(e, cards, call);
    var i :| 0 <= i < |cards| && cards[i].kind.ReviewSettings? && cards[i].key == other && cards[i].rules == list
             && cards[i].target == e.name(other);
    var now := Called(e, cards, call).0;
    assert i != at;
    assert now[i] == Renoted(e, cards[i], key, rules);
  }

  lemma {:induction false} WordWrong(e: Levels, cards: seq<Card>, a: string, note: string, x: string, rules: seq<Rule>)
    requires Seat(e, cards, a, note) && Standing(e, cards, x, rules) && x != a
    requires Contains(note, Say(e.words, e.name(x))) != Changes(e, a, x, rules)
    ensures !NotesRight(e, cards)
  {
    var i :| 0 <= i < |cards| && cards[i].kind.ReviewSettings? && cards[i].key == x && cards[i].rules == rules
             && cards[i].target == e.name(x);
    assert Pair(cards[0], cards[i]);
    assert Contains(cards[0].note, Say(e.words, cards[i].target)) != Affects(e, cards[0], cards[i]);
  }

  ghost predicate FairAll(e: Levels, calls: seq<Call>) { forall i :: 0 <= i < |calls| ==> Fair(e, calls[i]) }

  /** Whatever fair calls one answer makes, its notes are right. */
  ghost predicate AlwaysRight(e: Levels) {
    forall calls :: FairAll(e, calls) ==> NotesRight(e, CalledAll(e, [], calls))
  }

  lemma LastCall(e: Levels, cards: seq<Card>, calls: seq<Call>, last: Call)
    ensures CalledAll(e, cards, calls + [last]) == Called(e, CalledAll(e, cards, calls), last).0
    decreases |calls|
  {
    if calls == [] {
      assert [] + [last] == [last] && [last][1..] == [];
      assert CalledAll(e, Called(e, cards, last).0, []) == Called(e, cards, last).0;
    } else {
      assert (calls + [last])[1..] == calls[1..] + [last];
      LastCall(e, Called(e, cards, calls[0]).0, calls[1..], last);
    }
  }

  /** A card at a, then one at c, then one at b. */
  function AThenCThenB(a: string, b: string, c: string, ra: seq<Rule>, rb: seq<Rule>, rc: seq<Rule>,
                       lead: seq<string>): seq<Call> {
    [RulesCall(a, ra, lead)] + [RulesCall(c, rc, [])] + [RulesCall(b, rb, [])]
  }

  /** Three levels, and a list for each. */
  ghost predicate Cast(e: Levels, a: string, b: string, c: string, ra: seq<Rule>, rb: seq<Rule>, rc: seq<Rule>) {
    && PlainNames(e) && Three(e, a, b, c)
    && Accepts(e, a, ra) && Accepts(e, b, rb) && Accepts(e, c, rc)
  }

  lemma {:induction false} ThreeStand(e: Levels, a: string, b: string, c: string, ra: seq<Rule>, rb: seq<Rule>,
                                      rc: seq<Rule>, lead: seq<string>)
    requires Cast(e, a, b, c, ra, rb, rc)
    ensures var now := CalledAll(e, [], AThenCThenB(a, b, c, ra, rb, rc, lead));
            && Seat(e, now, a, NoteAfter(e, a, NoteAfter(e, a, Join(lead, " "), c, rc), b, rb))
            && Standing(e, now, b, rb) && Standing(e, now, c, rc)
  {
    var x, y, z := RulesCall(a, ra, lead), RulesCall(c, rc, []), RulesCall(b, rb, []);
    LastCall(e, [], [], x);
    LastCall(e, [], [x], y);
    LastCall(e, [], [x] + [y], z);
    assert [] + [x] == [x];
    SeatFirst(e, a, ra, lead);
    SeatNext(e, CalledAll(e, [], [x]), a, Join(lead, " "), c, rc);
    SeatNext(e, CalledAll(e, [], [x] + [y]), a, NoteAfter(e, a, Join(lead, " "), c, rc), b, rb);
    StandsOn(e, CalledAll(e, [], [x] + [y]), b, rb, c, rc);
  }

  lemma {:induction false} NoLead(e: Levels)
    ensures Join([], " ") == "" && Without("", e.words.ending)
  {
  }

  lemma {:induction false} CastIsFair(e: Levels, a: string, b: string, c: string, ra: seq<Rule>, rb: seq<Rule>,
                                      rc: seq<Rule>, lead: seq<string>)
    requires Without(Join(lead, " "), e.words.ending)
    ensures FairAll(e, AThenCThenB(a, b, c, ra, rb, rc, lead))
  {
    NoLead(e);
  }

  /** c makes a stale and b does not, and c's sentence ends in b's: staging b, after c, cuts b's sentence out
      of c's. */
  lemma {:induction false} CutOutOfAnother(e: Levels, a: string, b: string, c: string, ra: seq<Rule>, rb: seq<Rule>,
                                           rc: seq<Rule>)
    requires Cast(e, a, b, c, ra, rb, rc) && EndsIn(e, c, b) && Changes(e, a, c, rc) && !Changes(e, a, b, rb)
    ensures var calls := AThenCThenB(a, b, c, ra, rb, rc, []);
            FairAll(e, calls) && !NotesRight(e, CalledAll(e, [], calls))
  {
    NoLead(e);
    CastIsFair(e, a, b, c, ra, rb, rc, []);
    ThreeStand(e, a, b, c, ra, rb, rc, []);
    FirstSaid(e.words, e.name(c));
    SayHolds(e.words, e.name(b), e.name(c));
    CutBreaks(e.words, e.name(b), e.name(c));
    var now := CalledAll(e, [], AThenCThenB(a, b, c, ra, rb, rc, []));
    WordWrong(e, now, a, NoteAfter(e, a, Say(e.words, e.name(c)), b, rb), c, rc);
  }

  /** Where a's note holds no more than c's sentence, b's inside it: c's card replaced by one that leaves a
      be takes b's word with it. */
  lemma {:induction false} CutTogether(e: Levels, cards: seq<Card>, a: string, b: string, c: string, rb: seq<Rule>,
                                       rd: seq<Rule>)
    requires Seat(e, cards, a, Say(e.words, e.name(c))) && Standing(e, cards, b, rb)
    requires Three(e, a, b, c) && Accepts(e, c, rd) && Changes(e, a, b, rb) && !Changes(e, a, c, rd)
    ensures !NotesRight(e, Called(e, cards, RulesCall(c, rd, [])).0)
  {
    SeatNext(e, cards, a, Say(e.words, e.name(c)), c, rd);
    StandsOn(e, cards, c, rd, b, rb);
    CutWhole(e.words, e.name(c));
    NoLead(e);
    NothingSaid(e.words, "", e.name(b));
    WordWrong(e, Called(e, cards, RulesCall(c, rd, [])).0, a, "", b, rb);
  }

  /** Both make a stale, b is not said again inside c's sentence, and c's card is then replaced by one that does
      not: b's word goes with c's. */
  lemma {:induction false} CutWithAnother(e: Levels, a: string, b: string, c: string, ra: seq<Rule>, rb: seq<Rule>,
                                          rc: seq<Rule>, rd: seq<Rule>)
    requires Cast(e, a, b, c, ra, rb, rc) && EndsIn(e, c, b) && Accepts(e, c, rd)
    requires Changes(e, a, c, rc) && Changes(e, a, b, rb) && !Changes(e, a, c, rd)
    ensures var calls := AThenCThenB(a, b, c, ra, rb, rc, []) + [RulesCall(c, rd, [])];
            FairAll(e, calls) && !NotesRight(e, CalledAll(e, [], calls))
  {
    NoLead(e);
    CastIsFair(e, a, b, c, ra, rb, rc, []);
    ThreeStand(e, a, b, c, ra, rb, rc, []);
    FirstSaid(e.words, e.name(c));
    SayHolds(e.words, e.name(b), e.name(c));
    LastCall(e, [], AThenCThenB(a, b, c, ra, rb, rc, []), RulesCall(c, rd, []));
    CutTogether(e, CalledAll(e, [], AThenCThenB(a, b, c, ra, rb, rc, [])), a, b, c, rb, rd);
  }

  /** Other words after which b's sentence ends as c's does. */
  predicate ReadOn(e: Levels, b: string, c: string, words: string) {
    && words != "" && Inked(words[0]) && Without(words, e.words.ending)
    && Ends(words + " " + e.words.opening + e.name(b), e.words.opening + e.name(c))
  }

  lemma {:induction false} SomeReadOn(e: Levels, b: string, c: string) returns (words: string)
    requires RunsInto(e, c, b) && Plain(e.words, e.name(c))
    ensures ReadOn(e, b, c, words)
  {
    var w := e.words;
    var head, end := w.opening + e.name(c), " " + w.opening + e.name(b);
    words := head[..|head| - |end|];
    assert head == words + end && head == "" + words + end;
    assert words + " " + w.opening + e.name(b) == head && head[|head| - |head|..] == head;
    assert head[0] == w.opening[0] && end[0] == ' ';
    WithoutPart(head, words, "", end, w.ending);
  }

  /** With b's sentence after them, such words hold c's. */
  lemma {:induction false} ReadOnHolds(e: Levels, b: string, c: string, words: string)
    requires ReadOn(e, b, c, words)
    ensures var note := Trim(words + " " + Say(e.words, e.name(b))); Contains(note, Say(e.words, e.name(c)))
  {
    var w := e.words;
    var all, said := words + " " + w.opening + e.name(b), Say(w, e.name(c));
    var note := words + " " + Say(w, e.name(b));
    assert note == all + w.ending;
    TrimmedAlready(note);
    var i := |all| - |w.opening + e.name(c)|;
    assert note[i..i + |said|] == all[i..] + w.ending;
    assert Occurs(note, said, i);
  }

  /** b makes a stale and c does not, and a's other words end as c's sentence begins: with b's word after them
      they read as c's. */
  lemma {:induction false} ReadsOn(e: Levels, a: string, b: string, c: string, ra: seq<Rule>, rb: seq<Rule>,
                                   rc: seq<Rule>,
                                   lead: seq<string>)
    requires Cast(e, a, b, c, ra, rb, rc)
    requires ReadOn(e, b, c, Join(lead, " ")) && Changes(e, a, b, rb) && !Changes(e, a, c, rc)
    ensures var calls := AThenCThenB(a, b, c, ra, rb, rc, lead);
            FairAll(e, calls) && !NotesRight(e, CalledAll(e, [], calls))
  {
    var words := Join(lead, " ");
    CastIsFair(e, a, b, c, ra, rb, rc, lead);
    ThreeStand(e, a, b, c, ra, rb, rc, lead);
    NothingSaid(e.words, words, e.name(c));
    NothingSaid(e.words, words, e.name(b));
    ReadOnHolds(e, b, c, words);
    var now := CalledAll(e, [], AThenCThenB(a, b, c, ra, rb, rc, lead));
    WordWrong(e, now, a, Trim(words + " " + Say(e.words, e.name(b))), c, rc);
  }

  lemma WrongOnce(e: Levels, calls: seq<Call>)
    requires FairAll(e, calls) && !NotesRight(e, CalledAll(e, [], calls))
    ensures !AlwaysRight(e)
  {
  }

  lemma {:induction false} CutOutGoesWrong(e: Levels, a: string, b: string, c: string)
    requires PlainNames(e) && Three(e, a, b, c) && EndsIn(e, c, b) && May(e, a, c) && !Must(e, a, b)
    ensures !AlwaysRight(e)
  {
    var ra := SomeAccepted(e, a);
    var rc: seq<Rule> :| Accepts(e, c, rc) && Changes(e, a, c, rc);
    var rb: seq<Rule> :| Accepts(e, b, rb) && !Changes(e, a, b, rb);
    CutOutOfAnother(e, a, b, c, ra, rb, rc);
    WrongOnce(e, AThenCThenB(a, b, c, ra, rb, rc, []));
  }

  lemma {:induction false} CutWithGoesWrong(e: Levels, a: string, b: string, c: string)
    requires PlainNames(e) && Three(e, a, b, c) && EndsIn(e, c, b) && May(e, a, c) && Must(e, a, b) && !Must(e, a, c)
    ensures !AlwaysRight(e)
  {
    var ra := SomeAccepted(e, a);
    var rb := SomeAccepted(e, b);
    var rc: seq<Rule> :| Accepts(e, c, rc) && Changes(e, a, c, rc);
    var rd: seq<Rule> :| Accepts(e, c, rd) && !Changes(e, a, c, rd);
    CutWithAnother(e, a, b, c, ra, rb, rc, rd);
    WrongOnce(e, AThenCThenB(a, b, c, ra, rb, rc, []) + [RulesCall(c, rd, [])]);
  }

  lemma {:induction false} NotApartGoesWrong(e: Levels, a: string, b: string, c: string)
    requires PlainNames(e) && Three(e, a, b, c) && EndsIn(e, c, b) && !ApartFor(e, a, b, c)
    ensures !AlwaysRight(e)
  {
    if May(e, a, c) {
      if Must(e, a, b) {
        CutWithGoesWrong(e, a, b, c);
      } else {
        CutOutGoesWrong(e, a, b, c);
      }
    } else {
      var ra := SomeAccepted(e, a);
      var rb: seq<Rule> :| Accepts(e, b, rb) && Changes(e, a, b, rb);
      var rc := SomeAccepted(e, c);
      var words := SomeReadOn(e, b, c);
      assert Join([words], " ") == words;
      ReadsOn(e, a, b, c, ra, rb, rc, [words]);
      WrongOnce(e, AThenCThenB(a, b, c, ra, rb, rc, [words]));
    }
  }

  // ---- the same, read off the tree and the names ----

  /** Every level named is a row of the tree, or a repository without one. */
  ghost predicate Grounded(e: Levels) {
    Indexed(e.tree) && forall k :: k in e.level ==> e.level[k] in e.tree.nodes || e.level[k].id == 0
  }

  ghost predicate Gives(e: Levels, x: string, a: string)
    requires Known(e, x) && Known(e, a)
  {
    Over(e.tree, e.level[x], e.level[a])
  }

  /** The level's own list is the one it would inherit. */
  predicate Copies(e: Levels, x: string)
    requires Known(e, x)
  {
    HasList(e.level[x]) && Left(e.tree, e.level[x], [], e.builtin) == Effective(e.tree, e.level[x], e.builtin)
  }

  lemma {:induction false} AcceptedChanges(e: Levels, a: string, x: string, rules: seq<Rule>)
    requires Grounded(e) && Known(e, a) && Known(e, x) && Accepts(e, x, rules)
    ensures Changes(e, a, x, rules) <==> Gives(e, x, a) && (rules == [] ==> !Copies(e, x))
  {
    ChangesExactly(e.tree, e.level[a], e.level[x], rules, e.builtin);
  }

  /** Some card at x makes one at a stale when a reads its rules through x, and every one does when x's
      dropping its list would also change them. */
  lemma {:induction false} MayAndMust(e: Levels, a: string, x: string)
    requires Grounded(e) && Known(e, a) && Known(e, x)
    ensures May(e, a, x) <==> Gives(e, x, a)
    ensures Must(e, a, x) <==> Gives(e, x, a) && !Copies(e, x)
  {
    forall r: seq<Rule> | Accepts(e, x, r)
      ensures Changes(e, a, x, r) <==> Gives(e, x, a) && (r == [] ==> !Copies(e, x))
    {
      AcceptedChanges(e, a, x, r);
    }
    var some := SomeAccepted(e, x);
    assert Copies(e, x) ==> Accepts(e, x, []);
  }

  /** Of two levels, the sentence about one ending in the sentence about the other: where a third reads its
      rules through either, it does through both, and neither has a copy of the list above it. */
  ghost predicate Clear(e: Levels) {
    forall a, b, c :: Three(e, a, b, c) && EndsIn(e, c, b) ==> ClearFor(e, a, b, c)
  }

  ghost predicate ClearFor(e: Levels, a: string, b: string, c: string)
    requires Three(e, a, b, c)
  {
    Gives(e, c, a) || (RunsInto(e, c, b) && Gives(e, b, a)) ==>
      Gives(e, b, a) && Gives(e, c, a) && !Copies(e, b) && !Copies(e, c)
  }

  lemma {:induction false} ClearIsApart(e: Levels)
    requires Grounded(e)
    ensures Clear(e) <==> Apart(e)
  {
    forall a, b, c | Three(e, a, b, c)
      ensures ClearFor(e, a, b, c) <==> ApartFor(e, a, b, c)
    {
      MayAndMust(e, a, b);
      MayAndMust(e, a, c);
    }
  }

  lemma {:induction false} RightWhenApart(e: Levels)
    requires PlainNames(e)
    ensures AlwaysRight(e) <==> Apart(e)
  {
    if Apart(e) {
      forall calls | FairAll(e, calls)
        ensures NotesRight(e, CalledAll(e, [], calls))
      {
        RunKeepsNotes(e, [], map[], calls);
      }
    } else {
      var a, b, c :| Three(e, a, b, c) && EndsIn(e, c, b) && !ApartFor(e, a, b, c);
      NotApartGoesWrong(e, a, b, c);
    }
  }

  /** The notes of every answer are right exactly when the levels and their names are clear. */
  lemma {:induction false} NotesRightExactly(e: Levels)
    requires PlainNames(e) && Grounded(e)
    ensures AlwaysRight(e) <==> Clear(e)
  {
    ClearIsApart(e);
    RightWhenApart(e);
  }
}
