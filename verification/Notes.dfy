/** The sentence a card says of another, as text: found by searching a note for it, added at the note's end,
    and cut out wherever it stands. */
module Notes {
  import opened Lists
  import opened Text

  /** The two halves of a sentence about a named card. */
  datatype Phrase = Phrase(opening: string, ending: string)

  const BEFORE_NAME := "The card for "
  const AFTER_NAME_1 := " changes the branch rules"
  const AFTER_NAME_2 := " this one was read from:"
  const AFTER_NAME_3 := " confirmed first, it makes"
  const AFTER_NAME_4 := " this card stale, and asking"
  const AFTER_NAME_5 := " again after it builds on"
  const AFTER_NAME_6 := " its change"

  function AfterName(): string {
    AFTER_NAME_1 + AFTER_NAME_2 + AFTER_NAME_3 + AFTER_NAME_4 + AFTER_NAME_5 + AFTER_NAME_6
  }

  /** reviewStaleAfter. */
  const STALE_AFTER := Phrase(BEFORE_NAME, AfterName() + ".")

  function Say(w: Phrase, name: string): string { w.opening + name + w.ending }

  /** The first letter of the opening is nowhere in the ending, and the last of the ending only there. */
  predicate Marked(w: Phrase) {
    && w.opening != "" && Inked(w.opening[0]) && (forall i :: 0 <= i < |w.ending| ==> w.ending[i] != w.opening[0])
    && w.ending != "" && Inked(w.ending[|w.ending| - 1])
    && forall i :: 0 <= i < |w.ending| - 1 ==> w.ending[i] != w.ending[|w.ending| - 1]
  }

  predicate Unmarked(t: string) { 'T' !in t && '.' !in t }

  /** A phrase whose sentences can be told apart in running text. */
  type Words = w: Phrase | Marked(w) witness Phrase("(", ")")

  lemma HalfUnmarked()
    ensures Unmarked(AFTER_NAME_1) && Unmarked(AFTER_NAME_2) && Unmarked(AFTER_NAME_3)
  {
  }

  lemma OtherHalfUnmarked()
    ensures Unmarked(AFTER_NAME_4) && Unmarked(AFTER_NAME_5) && Unmarked(AFTER_NAME_6)
  {
  }

  lemma AfterNameIs()
    ensures Unmarked(AfterName()) && " ch" <= AfterName() && |AfterName()| == 139
  {
    HalfUnmarked();
    OtherHalfUnmarked();
  }

  lemma StaleAfterIsMarked()
    ensures Marked(STALE_AFTER)
  {
    AfterNameIs();
    assert STALE_AFTER.ending[..|STALE_AFTER.ending| - 1] == AfterName();
  }

  predicate Without(t: string, s: string) { !Contains(t, s) }

  /** A name that does not itself end a sentence. */
  predicate Plain(w: Phrase, name: string) { Without(w.opening + name, w.ending) }

  /** A name two shorter than the ending cannot, if the opening does not itself begin an ending. */
  lemma {:induction false} ShortIsPlain(w: Phrase, name: string)
    requires |w.opening| <= |w.ending| && |name| + 1 < |w.ending|
    requires forall i :: 0 <= i < |w.opening| - 1 ==> !(w.opening[i..] <= w.ending)
    ensures Plain(w, name)
  {
    var t := w.opening + name;
    forall i | 0 <= i <= |t|
      ensures !Occurs(t, w.ending, i)
    {
      if Occurs(t, w.ending, i) {
        OpeningEnds(w, name, i);
      }
    }
  }

  lemma OpeningEnds(w: Phrase, name: string, i: nat)
    requires i <= |w.opening| <= |w.ending| && Occurs(w.opening + name, w.ending, i)
    ensures w.opening[i..] <= w.ending
  {
    var t := w.opening + name;
    assert w.opening[i..] == t[i..i + |w.ending|][..|w.opening| - i];
  }

  /** What levels are called is never so long: a connection's login and a group's name together are plain. */
  lemma NamesArePlain(name: string)
    requires |name| <= 138
    ensures Plain(STALE_AFTER, name)
  {
    AfterNameIs();
    var w := STALE_AFTER;
    assert w.ending[0] == ' ' && w.ending[1] == 'c' && w.ending[2] == 'h';
    forall i | 0 <= i < |w.opening| - 1
      ensures !(w.opening[i..] <= w.ending)
    {
      var o := w.opening;
      assert o == ['T', 'h', 'e', ' ', 'c', 'a', 'r', 'd', ' ', 'f', 'o', 'r', ' '];
      assert o[i] != ' ' || o[i + 1] != 'c' || o[i + 2] != 'h';
      assert |o[i..]| >= 3 ==> o[i..][0] == o[i] && o[i..][1] == o[i + 1] && o[i..][2] == o[i + 2];
    }
    ShortIsPlain(w, name);
  }

  /** Nor is any name without a space: a repository's. */
  lemma {:induction false} SpacelessIsPlain(name: string)
    requires ' ' !in name
    ensures Plain(STALE_AFTER, name)
  {
    AfterNameIs();
    var w := STALE_AFTER;
    var t, k := w.opening + name, |w.ending| - 8;
    assert w.ending[k] == ' ' by {
      var front := AFTER_NAME_1 + AFTER_NAME_2 + AFTER_NAME_3 + AFTER_NAME_4 + AFTER_NAME_5;
      assert |AFTER_NAME_6| == 11 && |front| == 128 && AFTER_NAME_6[4] == ' ';
      assert AfterName()[132] == AFTER_NAME_6[4];
    }
    forall i | 0 <= i <= |t|
      ensures !Occurs(t, w.ending, i)
    {
      if Occurs(t, w.ending, i) {
        OccursChar(t, w.ending, i, k);
      }
    }
  }

  // ---- where a sentence can stand ----

  lemma {:induction false} SayContains(w: Phrase, t: string, name: string)
    requires Contains(t, Say(w, name))
    ensures Contains(t, w.ending)
  {
    var i :| 0 <= i <= |t| && Occurs(t, Say(w, name), i);
    SaySplits(w, t, name, i);
  }

  /** After text without an ending, an ending stands first where it is put. */
  lemma {:induction false} EndingAt(w: Phrase, v: string, rest: string, i: int)
    requires Marked(w) && Without(v, w.ending) && Occurs(v + w.ending + rest, w.ending, i)
    ensures i == |v| || i >= |v| + |w.ending|
  {
    var q, t := w.ending, v + w.ending + rest;
    var last := |q| - 1;
    assert t == v + (q + rest);
    assert t[|v| + last] == q[last];
    assert forall k :: 0 <= k < |q| ==> t[|v| + k] == q[k];
    if i + |q| <= |v| {
      OccursLeft(v, q + rest, q, i);
    } else if i < |v| {
      OccursChar(t, q, i, last);
    } else if |v| < i < |v| + |q| {
      OccursChar(t, q, i, |v| + last - i);
    }
  }

  /** After text without an ending, a sentence stands where that text ends in all but its ending, or later. */
  lemma {:induction false} SayAt(w: Phrase, v: string, rest: string, name: string, i: int)
    requires Marked(w) && Without(v, w.ending) && Plain(w, name)
    requires Occurs(v + w.ending + rest, Say(w, name), i)
    ensures (i == |v| - |w.opening + name| && Ends(v, w.opening + name)) || i >= |v| + |w.ending|
  {
    var q, t, head := w.ending, v + w.ending + rest, w.opening + name;
    var e := i + |head|;
    SaySplits(w, t, name, i);
    EndingAt(w, v, rest, e);
    if e == |v| {
      assert v[i..] == t[i..e];
    } else if |v| <= i < |v| + |q| {
      assert t[i] == q[i - |v|];
      OccursChar(t, head, i, 0);
    } else if i < |v| {
      assert t[|v|..|v| + |q|] == q;
      OccursWithin(t, head, i, q, |v|);
    }
  }

  lemma SaySplits(w: Phrase, t: string, name: string, i: int)
    requires Occurs(t, Say(w, name), i)
    ensures Occurs(t, w.opening + name, i) && Occurs(t, w.ending, i + |w.opening + name|)
  {
    var n := |w.opening + name|;
    assert t[i..i + n] == t[i..i + |Say(w, name)|][..n];
    assert t[i + n..i + n + |w.ending|] == t[i..i + |Say(w, name)|][n..];
  }

  /** Searching such a text: its own end, or the rest. */
  lemma {:induction false} SayPeels(w: Phrase, v: string, rest: string, name: string)
    requires Marked(w) && Without(v, w.ending) && Plain(w, name)
    ensures Contains(v + w.ending + rest, Say(w, name)) <==> Ends(v, w.opening + name) || Contains(rest, Say(w, name))
  {
    var q, t, s := w.ending, v + w.ending + rest, Say(w, name);
    if Contains(t, s) {
      var i :| 0 <= i <= |t| && Occurs(t, s, i);
      SayAt(w, v, rest, name, i);
      if i >= |v| + |q| {
        assert t == (v + q) + rest;
        OccursRight(v + q, rest, s, i);
      }
    }
    if Ends(v, w.opening + name) {
      var i := |v| - |w.opening + name|;
      assert t[i..i + |s|] == v[i..] + q;
      assert Occurs(t, s, i);
    }
    if Contains(rest, s) {
      var i :| 0 <= i <= |rest| && Occurs(rest, s, i);
      OccursOnto(v + q, rest, "", s, i);
      assert (v + q) + rest + "" == t;
    }
  }

  // ---- texts without an ending ----

  predicate Blank(t: string) { forall i :: 0 <= i < |t| ==> t[i] == ' ' }

  lemma {:induction false} WithoutHead(w: Phrase, g: string, name: string)
    requires Marked(w) && Without(g, w.ending) && Plain(w, name)
    ensures Without(g + w.opening + name, w.ending)
  {
    var q, head := w.ending, w.opening + name;
    var t := g + head;
    forall i | 0 <= i <= |t|
      ensures !Occurs(t, q, i)
    {
      if Occurs(t, q, i) {
        if i + |q| <= |g| {
          OccursLeft(g, head, q, i);
        } else if i >= |g| {
          OccursRight(g, head, q, i);
        } else {
          OccursChar(t, q, i, |g| - i);
        }
      }
    }
    assert g + w.opening + name == t;
  }

  lemma {:induction false} WithoutBlank(w: Phrase, g: string, b: string)
    requires Marked(w) && Without(g, w.ending) && Blank(b)
    ensures Without(g + b, w.ending)
  {
    var q, t := w.ending, g + b;
    forall i | 0 <= i <= |t|
      ensures !Occurs(t, q, i)
    {
      if Occurs(t, q, i) {
        if i + |q| <= |g| {
          OccursLeft(g, b, q, i);
        } else {
          OccursChar(t, q, i, |q| - 1);
        }
      }
    }
  }

  lemma {:induction false} WithoutPart(t: string, u: string, a: string, b: string, s: string)
    requires t == a + u + b && Without(t, s)
    ensures Without(u, s)
  {
    if Contains(u, s) {
      var i :| 0 <= i <= |u| && Occurs(u, s, i);
      OccursOnto(a, u, b, s, i);
    }
  }

  lemma {:induction false} WithoutTrim(t: string, s: string)
    requires Without(t, s)
    ensures Without(TrimLeft(t), s) && Without(Trim(t), s)
  {
    var l := TrimLeft(t);
    TrimLeftIs(t);
    WithoutPart(t, l, t[..|t| - |l|], "", s);
    TrimRightIs(l);
    WithoutPart(l, Trim(t), "", l[|Trim(t)|..], s);
  }

  // ---- notes put together of sentences ----

  /** One sentence of a note: the text before it, the name it says, and the key of the level so named. */
  datatype Piece = Piece(gap: string, name: string, key: string)

  /** A note as it was put together. */
  datatype Form = Form(pieces: seq<Piece>, tail: string)

  function Head(w: Phrase, p: Piece): string { p.gap + w.opening + p.name }

  function Spelled(w: Phrase, ps: seq<Piece>, tail: string): string {
    if ps == [] then tail else Head(w, ps[0]) + w.ending + Spelled(w, ps[1..], tail)
  }

  function TextOf(w: Phrase, f: Form): string { Spelled(w, f.pieces, f.tail) }

  predicate Spaced(g: string) { g == "" || g[|g| - 1] == ' ' }

  predicate PieceFits(w: Phrase, p: Piece) { Without(p.gap, w.ending) && Spaced(p.gap) && Plain(w, p.name) }

  /** Free text before the first sentence, spaces between and after. */
  predicate Fits(w: Phrase, f: Form) {
    && (forall k :: 0 <= k < |f.pieces| ==> PieceFits(w, f.pieces[k]) && (k > 0 ==> Blank(f.pieces[k].gap)))
    && Without(f.tail, w.ending) && (f.pieces != [] ==> Blank(f.tail))
  }

  /** Whether some piece, with what stands before it, ends as name's sentence does. */
  predicate Spoken(w: Phrase, ps: seq<Piece>, name: string) {
    exists k :: 0 <= k < |ps| && Ends(Head(w, ps[k]), w.opening + name)
  }

  lemma {:induction false} EndsOfEnds(t: string, long: string, short: string)
    requires Ends(t, long) && Ends(t, short) && |short| <= |long|
    ensures Ends(long, short)
  {
    assert long == t[|t| - |long|..];
    assert long[|long| - |short|..] == t[|t| - |short|..];
  }

  /** Where a piece ends as another name's sentence does, one of the two sentences ends in the other: its own
      in the other's, or, if that one begins in the words before it, the other's in its own and a space. */
  lemma {:induction false} PieceEnds(w: Phrase, p: Piece, name: string)
    requires Spaced(p.gap) && Ends(Head(w, p), w.opening + name)
    ensures |name| <= |p.name| ==> Ends(w.opening + p.name, w.opening + name)
    ensures |name| > |p.name| ==> Ends(w.opening + name, " " + w.opening + p.name)
  {
    var hb, hc, t := w.opening + name, w.opening + p.name, Head(w, p);
    assert t == p.gap + hc;
    assert t[|t| - |hc|..] == hc;
    if |name| <= |p.name| {
      EndsOfEnds(t, hc, hb);
    } else {
      var s := " " + hc;
      assert t[|t| - |hc| - 1] == p.gap[|p.gap| - 1];
      assert t[|t| - |s|..] == s;
      EndsOfEnds(t, hb, s);
      assert s == " " + w.opening + p.name;
    }
  }

  lemma {:induction false} FitsRest(w: Phrase, f: Form)
    requires Fits(w, f) && f.pieces != []
    ensures Fits(w, Form(f.pieces[1..], f.tail))
  {
    var r := f.pieces[1..];
    assert forall k :: 0 <= k < |r| ==> r[k] == f.pieces[k + 1];
  }

  lemma {:induction false} SpokenRest(w: Phrase, ps: seq<Piece>, name: string)
    requires ps != []
    ensures Spoken(w, ps, name) <==> Ends(Head(w, ps[0]), w.opening + name) || Spoken(w, ps[1..], name)
  {
    var r := ps[1..];
    if Spoken(w, ps, name) {
      var k :| 0 <= k < |ps| && Ends(Head(w, ps[k]), w.opening + name);
      if k > 0 {
        assert r[k - 1] == ps[k];
      }
    }
    if Spoken(w, r, name) {
      var k :| 0 <= k < |r| && Ends(Head(w, r[k]), w.opening + name);
      assert ps[k + 1] == r[k];
    }
  }

  /** Searching a note for a sentence finds what its pieces speak of. */
  lemma {:induction false} Found(w: Phrase, f: Form, name: string)
    requires Marked(w) && Fits(w, f) && Plain(w, name)
    ensures Contains(TextOf(w, f), Say(w, name)) <==> Spoken(w, f.pieces, name)
    decreases |f.pieces|
  {
    if f.pieces == [] {
      if Contains(f.tail, Say(w, name)) {
        SayContains(w, f.tail, name);
      }
    } else {
      var p, rest := f.pieces[0], Form(f.pieces[1..], f.tail);
      FitsRest(w, f);
      Found(w, rest, name);
      WithoutHead(w, p.gap, p.name);
      SayPeels(w, Head(w, p), TextOf(w, rest), name);
      SpokenRest(w, f.pieces, name);
    }
  }

  // ---- a sentence added ----

  function WithSentence(f: Form, name: string, key: string): Form {
    Form(f.pieces + [Piece(f.tail + " ", name, key)], "")
  }

  lemma {:induction false} SpelledAdd(w: Phrase, ps: seq<Piece>, p: Piece, tail: string)
    ensures Spelled(w, ps + [p], tail) == Spelled(w, ps, "") + Head(w, p) + w.ending + tail
  {
    if ps == [] {
      assert [] + [p] == [p];
    } else {
      assert (ps + [p])[1..] == ps[1..] + [p];
      SpelledAdd(w, ps[1..], p, tail);
    }
  }

  lemma {:induction false} SpelledTail(w: Phrase, ps: seq<Piece>, tail: string)
    ensures Spelled(w, ps, tail) == Spelled(w, ps, "") + tail
  {
    if ps != [] {
      SpelledTail(w, ps[1..], tail);
    }
  }

  lemma {:induction false} AddedFits(w: Phrase, f: Form, name: string, key: string)
    requires Marked(w) && Fits(w, f) && Plain(w, name)
    ensures Fits(w, WithSentence(f, name, key))
  {
    WithoutBlank(w, f.tail, " ");
    assert Without("", w.ending);
  }

  lemma {:induction false} AddedText(w: Phrase, f: Form, name: string, key: string)
    ensures TextOf(w, WithSentence(f, name, key)) == TextOf(w, f) + " " + Say(w, name)
  {
    SpelledAdd(w, f.pieces, Piece(f.tail + " ", name, key), "");
    SpelledTail(w, f.pieces, f.tail);
  }

  // ---- the ends trimmed ----

  function Trimmed(f: Form): Form {
    if f.pieces == [] then Form([], Trim(f.tail))
    else Form([f.pieces[0].(gap := TrimLeft(f.pieces[0].gap))] + f.pieces[1..], "")
  }

  lemma BlankTrims(b: string)
    requires Blank(b)
    ensures TrimRight(b) == ""
  {
  }

  lemma {:induction false} TrimLeftSpaced(g: string)
    requires Spaced(g)
    ensures Spaced(TrimLeft(g)) && (Blank(g) ==> TrimLeft(g) == "")
  {
    if g != "" && IsSpace(g[0]) {
      TrimLeftSpaced(g[1..]);
    }
  }

  lemma {:induction false} SpelledEnds(w: Phrase, ps: seq<Piece>)
    requires Marked(w) && ps != []
    ensures var t := Spelled(w, ps, ""); t != "" && Inked(t[|t| - 1])
  {
    if |ps| > 1 {
      SpelledEnds(w, ps[1..]);
    }
  }

  lemma {:induction false} TrimmedLeft(w: Phrase, f: Form)
    requires Marked(w) && Fits(w, f) && f.pieces != []
    ensures Spelled(w, Trimmed(f).pieces, f.tail) == TrimLeft(TextOf(w, f))
  {
    var p, ps := f.pieces[0], Trimmed(f).pieces;
    var rest := w.opening + p.name + w.ending + Spelled(w, f.pieces[1..], f.tail);
    assert ps[1..] == f.pieces[1..];
    assert TextOf(w, f) == p.gap + rest;
    TrimLeftOnto(p.gap, rest);
    assert Spelled(w, ps, f.tail) == TrimLeft(p.gap) + rest;
  }

  lemma {:induction false} TrimmedFits(w: Phrase, f: Form)
    requires Marked(w) && Fits(w, f)
    ensures Fits(w, Trimmed(f))
  {
    if f.pieces == [] {
      WithoutTrim(f.tail, w.ending);
    } else {
      WithoutTrim(f.pieces[0].gap, w.ending);
      TrimLeftSpaced(f.pieces[0].gap);
      assert Without("", w.ending);
    }
  }

  lemma {:induction false} TrimmedText(w: Phrase, f: Form)
    requires Marked(w) && Fits(w, f)
    ensures TextOf(w, Trimmed(f)) == Trim(TextOf(w, f))
  {
    if f.pieces != [] {
      var ps := Trimmed(f).pieces;
      TrimmedLeft(w, f);
      SpelledTail(w, ps, f.tail);
      SpelledEnds(w, ps);
      TrimRightOnto(Spelled(w, ps, ""), f.tail);
      BlankTrims(f.tail);
    }
  }

  /** Trimming takes no sentence. */
  lemma {:induction false} TrimmedSpoken(w: Phrase, f: Form, name: string)
    requires Marked(w) && Fits(w, f) && Plain(w, name)
    ensures Spoken(w, Trimmed(f).pieces, name) <==> Spoken(w, f.pieces, name)
  {
    if f.pieces != [] {
      var p := f.pieces[0];
      var q := p.(gap := TrimLeft(p.gap));
      SpokenRest(w, f.pieces, name);
      SpokenRest(w, Trimmed(f).pieces, name);
      assert Trimmed(f).pieces[1..] == f.pieces[1..];
      EndsTrimmed(w, p, name);
    }
  }

  lemma {:induction false} EndsTrimmed(w: Phrase, p: Piece, name: string)
    requires Marked(w)
    ensures Ends(Head(w, p.(gap := TrimLeft(p.gap))), w.opening + name) <==> Ends(Head(w, p), w.opening + name)
  {
    var r := w.opening + p.name;
    TrimLeftOnto(p.gap, r);
    assert Head(w, p) == p.gap + r && Head(w, p.(gap := TrimLeft(p.gap))) == TrimLeft(p.gap) + r;
    TrimLeftEnds(Head(w, p), w.opening + name);
  }

  // ---- a sentence cut ----

  /** The pieces without those of one name, each one's gap left to what follows. */
  function CutPieces(ps: seq<Piece>, name: string, carry: string): seq<Piece> {
    if ps == [] then []
    else if ps[0].name == name then CutPieces(ps[1..], name, carry + ps[0].gap)
    else [ps[0].(gap := carry + ps[0].gap)] + CutPieces(ps[1..], name, "")
  }

  function CutTail(ps: seq<Piece>, name: string, carry: string, tail: string): string {
    if ps == [] then carry + tail
    else if ps[0].name == name then CutTail(ps[1..], name, carry + ps[0].gap, tail)
    else CutTail(ps[1..], name, "", tail)
  }

  function CutOut(f: Form, name: string): Form {
    Form(CutPieces(f.pieces, name, ""), CutTail(f.pieces, name, "", f.tail))
  }

  /** Only the pieces of that very name end as its sentence does. */
  predicate OwnOnly(w: Phrase, ps: seq<Piece>, name: string) {
    forall k :: 0 <= k < |ps| && Ends(Head(w, ps[k]), w.opening + name) ==> ps[k].name == name
  }

  /** The sentence is not said up to the end of a piece of another name. */
  lemma {:induction false} CutPasses(w: Phrase, p: Piece, rest: string, name: string)
    requires Marked(w) && PieceFits(w, p) && Plain(w, name) && !Ends(Head(w, p), w.opening + name)
    ensures ReplaceAll(Head(w, p) + w.ending + rest, Say(w, name), "") ==
            Head(w, p) + w.ending + ReplaceAll(rest, Say(w, name), "")
  {
    WithoutHead(w, p.gap, p.name);
    forall j | 0 <= j < |Head(w, p) + w.ending|
      ensures !Occurs(Head(w, p) + w.ending + rest, Say(w, name), j)
    {
      if Occurs(Head(w, p) + w.ending + rest, Say(w, name), j) {
        SayAt(w, Head(w, p), rest, name, j);
      }
    }
    ReplaceSkip(Head(w, p) + w.ending, rest, Say(w, name), "");
  }

  lemma ReplaceFront(s: string, rest: string)
    requires s != ""
    ensures ReplaceAll(s + rest, s, "") == ReplaceAll(rest, s, "")
  {
    assert (s + rest)[..|s|] == s && (s + rest)[|s|..] == rest;
  }

  /** A piece of the name goes, all but the text before it. */
  lemma {:induction false} CutTakes(w: Phrase, p: Piece, rest: string)
    requires Marked(w) && PieceFits(w, p)
    ensures ReplaceAll(Head(w, p) + w.ending + rest, Say(w, p.name), "") == p.gap + ReplaceAll(rest, Say(w, p.name), "")
  {
    var s := Say(w, p.name);
    WithoutHead(w, p.gap, p.name);
    forall j | 0 <= j < |p.gap|
      ensures !Occurs(Head(w, p) + w.ending + rest, s, j)
    {
      if Occurs(Head(w, p) + w.ending + rest, s, j) {
        SayAt(w, Head(w, p), rest, p.name, j);
      }
    }
    assert Head(w, p) + w.ending + rest == p.gap + (s + rest);
    ReplaceSkip(p.gap, s + rest, s, "");
    ReplaceFront(s, rest);
  }

  lemma {:induction false} CutTextEnd(w: Phrase, tail: string, name: string)
    requires Marked(w) && Without(tail, w.ending)
    ensures ReplaceAll(tail, Say(w, name), "") == tail
  {
    forall j | 0 <= j < |tail|
      ensures !Occurs(tail + "", Say(w, name), j)
    {
      assert tail + "" == tail;
      if Occurs(tail, Say(w, name), j) {
        SayContains(w, tail, name);
      }
    }
    ReplaceSkip(tail, "", Say(w, name), "");
    assert tail + "" == tail;
  }

  lemma SpelledCons(w: Phrase, p: Piece, ps: seq<Piece>, tail: string)
    ensures Spelled(w, [p] + ps, tail) == Head(w, p) + w.ending + Spelled(w, ps, tail)
  {
    assert ([p] + ps)[1..] == ps;
  }

  lemma {:induction false} CutStep(w: Phrase, p: Piece, rest: string, name: string, carry: string)
    requires Marked(w) && Plain(w, name) && PieceFits(w, p) && (Ends(Head(w, p), w.opening + name) ==> p.name == name)
    ensures carry + ReplaceAll(Head(w, p) + w.ending + rest, Say(w, name), "") ==
            if p.name == name then (carry + p.gap) + ReplaceAll(rest, Say(w, name), "")
            else Head(w, p.(gap := carry + p.gap)) + w.ending + ReplaceAll(rest, Say(w, name), "")
  {
    var cut := ReplaceAll(rest, Say(w, name), "");
    if p.name == name {
      CutTakes(w, p, rest);
      assert (carry + p.gap) + cut == carry + (p.gap + cut);
    } else {
      CutPasses(w, p, rest, name);
      assert Head(w, p.(gap := carry + p.gap)) + w.ending + cut == carry + (Head(w, p) + w.ending + cut);
    }
  }

  lemma {:induction false} CutText(w: Phrase, ps: seq<Piece>, tail: string, name: string, carry: string)
    requires Marked(w) && Plain(w, name) && OwnOnly(w, ps, name) && Without(tail, w.ending)
    requires forall k :: 0 <= k < |ps| ==> PieceFits(w, ps[k])
    ensures Spelled(w, CutPieces(ps, name, carry), CutTail(ps, name, carry, tail)) ==
            carry + ReplaceAll(Spelled(w, ps, tail), Say(w, name), "")
    decreases |ps|
  {
    if ps == [] {
      CutTextEnd(w, tail, name);
    } else {
      var p, r := ps[0], ps[1..];
      assert forall k :: 0 <= k < |r| ==> r[k] == ps[k + 1];
      assert PieceFits(w, p) && (Ends(Head(w, p), w.opening + name) ==> p.name == name);
      CutStep(w, p, Spelled(w, r, tail), name, carry);
      if p.name == name {
        CutText(w, r, tail, name, carry + p.gap);
      } else {
        CutText(w, r, tail, name, "");
        SpelledCons(w, p.(gap := carry + p.gap), CutPieces(r, name, ""), CutTail(r, name, "", tail));
      }
    }
  }

  /** What is carried on is free text only before the first sentence. */
  predicate CutShape(w: Phrase, ps: seq<Piece>, carry: string) {
    && (forall k :: 0 <= k < |ps| ==> PieceFits(w, ps[k]) && (k > 0 ==> Blank(ps[k].gap)))
    && Spaced(carry) && Without(carry, w.ending)
    && (ps != [] ==> carry == "" || Blank(ps[0].gap))
  }

  predicate AllBlank(ps: seq<Piece>) { forall k :: 0 <= k < |ps| ==> Blank(ps[k].gap) }

  lemma {:induction false} CutFits(w: Phrase, ps: seq<Piece>, tail: string, name: string, carry: string)
    requires Marked(w) && CutShape(w, ps, carry) && Blank(tail)
    ensures Fits(w, Form(CutPieces(ps, name, carry), CutTail(ps, name, carry, tail)))
    ensures AllBlank(ps) && Blank(carry) ==>
      AllBlank(CutPieces(ps, name, carry)) && Blank(CutTail(ps, name, carry, tail))
    decreases |ps|
  {
    if ps == [] {
      WithoutBlank(w, carry, tail);
    } else {
      var p, r := ps[0], ps[1..];
      assert PieceFits(w, p);
      assert forall k :: 0 <= k < |r| ==> r[k] == ps[k + 1];
      assert AllBlank(r);
      if carry == "" {
        assert carry + p.gap == p.gap;
      } else {
        WithoutBlank(w, carry, p.gap);
      }
      if p.name == name {
        CutFits(w, r, tail, name, carry + p.gap);
      } else {
        assert Without("", w.ending);
        CutFits(w, r, tail, name, "");
      }
    }
  }

  /** p is one of the pieces, but perhaps for what stands before it. */
  predicate Among(ps: seq<Piece>, p: Piece) {
    exists j :: 0 <= j < |ps| && ps[j].name == p.name && ps[j].key == p.key
  }

  lemma AmongRest(ps: seq<Piece>, p: Piece)
    requires ps != [] && Among(ps[1..], p)
    ensures Among(ps, p)
  {
    var j :| 0 <= j < |ps[1..]| && ps[1..][j].name == p.name && ps[1..][j].key == p.key;
    assert ps[j + 1] == ps[1..][j];
  }

  lemma {:induction false} CutAmong(ps: seq<Piece>, name: string, carry: string, k: nat)
    requires k < |CutPieces(ps, name, carry)|
    ensures var p := CutPieces(ps, name, carry)[k]; Among(ps, p) && p.name != name
    decreases |ps|
  {
    var cut := CutPieces(ps, name, carry);
    if ps[0].name == name {
      CutAmong(ps[1..], name, carry + ps[0].gap, k);
      AmongRest(ps, cut[k]);
    } else if k > 0 {
      assert cut[1..] == CutPieces(ps[1..], name, "");
      CutAmong(ps[1..], name, "", k - 1);
      AmongRest(ps, cut[k]);
    } else {
      assert ps[0].name == cut[0].name && ps[0].key == cut[0].key;
    }
  }

  lemma EndsLonger(a: string, t: string, e: string)
    requires Ends(t, e)
    ensures Ends(a + t, e)
  {
    assert (a + t)[|a + t| - |e|..] == t[|t| - |e|..];
  }

  /** What a piece that stays speaks of is still spoken of. */
  lemma {:induction false} CutSpoken(w: Phrase, ps: seq<Piece>, name: string, carry: string, k: nat, x: string)
    requires k < |ps| && ps[k].name != name && Ends(Head(w, ps[k]), w.opening + x)
    ensures Spoken(w, CutPieces(ps, name, carry), x)
    decreases |ps|
  {
    var p, r := ps[0], ps[1..];
    if p.name == name {
      CutSpoken(w, r, name, carry + p.gap, k - 1, x);
    } else {
      var cut := CutPieces(ps, name, carry);
      if k == 0 {
        EndsLonger(carry, Head(w, p), w.opening + x);
        assert Head(w, cut[0]) == carry + Head(w, p);
      } else {
        CutSpoken(w, r, name, "", k - 1, x);
        assert cut[1..] == CutPieces(r, name, "");
        SpokenRest(w, cut, x);
      }
    }
  }

  // ---- one sentence brought up to date ----

  /** A note once it says of name what it should: the sentence added at the end where it is due and not
      found, cut out wherever it is found and not due. */
  function Updated(w: Words, note: string, name: string, due: bool): string {
    if due && !Contains(note, Say(w, name)) then Trim(note + " " + Say(w, name))
    else if !due && Contains(note, Say(w, name)) then Trim(ReplaceAll(note, Say(w, name), ""))
    else note
  }

  lemma {:induction false} TrimShrinks(t: string)
    ensures |Trim(t)| <= |t|
  {
    TrimLeftIs(t);
    TrimRightIs(TrimLeft(t));
  }

  /** Cut from a note that is no more than another's sentence, a sentence takes that one with it. */
  lemma {:induction false} CutBreaks(w: Words, name: string, other: string)
    requires Contains(Say(w, other), Say(w, name))
    ensures !Contains(Updated(w, Say(w, other), name, false), Say(w, other))
  {
    CutShrinks(Say(w, other), Say(w, name));
    TrimShrinks(ReplaceAll(Say(w, other), Say(w, name), ""));
  }

  lemma {:induction false} SayTrimmed(w: Phrase, name: string)
    requires Marked(w)
    ensures Trim(Say(w, name)) == Say(w, name) && Contains(Say(w, name), Say(w, name))
    ensures Trim(" " + Say(w, name)) == Say(w, name)
  {
    var s := Say(w, name);
    TrimmedAlready(s);
    TrimLeftOnto(" ", s);
    assert Occurs(s, s, 0);
  }

  /** One sentence holds another exactly when it ends in all of it. */
  lemma {:induction false} SayHolds(w: Phrase, name: string, other: string)
    requires Marked(w) && Plain(w, name) && Plain(w, other)
    ensures Contains(Say(w, other), Say(w, name)) <==> Ends(w.opening + other, w.opening + name)
  {
    SayPeels(w, w.opening + other, "", name);
    assert w.opening + other + w.ending + "" == Say(w, other);
  }

  lemma {:induction false} CutWhole(w: Words, name: string)
    ensures Updated(w, Say(w, name), name, false) == ""
  {
    var s := Say(w, name);
    SayTrimmed(w, name);
    CutShrinks(s, s);
    TrimShrinks(ReplaceAll(s, s, ""));
  }

  lemma {:induction false} FirstSaid(w: Words, name: string)
    ensures Updated(w, "", name, true) == Say(w, name)
  {
    SayTrimmed(w, name);
    assert "" + " " + Say(w, name) == " " + Say(w, name);
  }

  /** In a text without an ending no sentence is found. */
  lemma {:induction false} NothingSaid(w: Words, note: string, name: string)
    requires Without(note, w.ending)
    ensures !Contains(note, Say(w, name))
  {
    if Contains(note, Say(w, name)) {
      SayContains(w, note, name);
    }
  }
}
