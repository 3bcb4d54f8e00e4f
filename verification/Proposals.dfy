/** The cards one answer of the console assistant stages, and the notes that say which of them another
    would make stale. */
module Proposals {
  import opened Lists
  import opened Text
  import opened Joining
  import opened BranchRules
  import opened ReviewTree
  import opened Notes

  datatype CardKind = Channel | Approval | ReviewType | ReviewSettings

  /** A staged card. key names the one thing it changes ("" when it may stand beside another); rules is
      the list a branch-rule card leaves its level (none to inherit); note is its word to the person;
      needs is the id of the card to confirm first ("" for none). */
  datatype Card = Card(id: string, kind: CardKind, key: string, target: string, rules: seq<Rule>,
                       note: string, needs: string)

  datatype StageError = StepNotAllowed | IdNotKept | NoLevel | NoSuchTypeCard | ListRefused

  // ---- staging a card ----

  predicate SameThing(c: Card, kind: CardKind, key: string) { key != "" && c.kind == kind && c.key == key }

  /** The place of the first card on kind and key, or |cards|. */
  function PlaceOf(cards: seq<Card>, kind: CardKind, key: string): (i: nat)
    ensures i <= |cards|
    ensures i < |cards| ==> SameThing(cards[i], kind, key)
    ensures forall k :: 0 <= k < i ==> !SameThing(cards[k], kind, key)
  {
    if cards == [] || SameThing(cards[0], kind, key) then 0 else 1 + PlaceOf(cards[1..], kind, key)
  }

  /** A card on something that has a card takes over its id; any other gets the id that was made for it. */
  function IdFor(cards: seq<Card>, kind: CardKind, key: string, newId: string): string {
    var i := PlaceOf(cards, kind, key);
    if i < |cards| then cards[i].id else newId
  }

  function Staged(cards: seq<Card>, p: Card, allowed: bool): Result<seq<Card>, StageError> {
    if !allowed then Err(StepNotAllowed)
    else
      var i := PlaceOf(cards, p.kind, p.key);
      if i == |cards| then Ok(cards + [p])
      else if cards[i].id != p.id then Err(IdNotKept)
      else Ok(cards[i := p])
  }

  function AfterStage(cards: seq<Card>, p: Card, allowed: bool): (seq<Card>, Option<StageError>) {
    match Staged(cards, p, allowed)
    case Ok(after) => (after, None)
    case Err(x) => (cards, Some(x))
  }

  // ---- branch-rule cards and what they do to each other ----

  /** The levels of an organisation as the cards of one answer name them, and the sentence one card says of
      another. */
  datatype Levels = Levels(tree: Tree, builtin: seq<Rule>, level: map<string, Node>, name: string -> string,
    words: Words)

  /** A level with a connection, whose settings and those above it parse. */
  predicate Known(e: Levels, key: string) {
    key != "" && key in e.level && ConnectionOf(e.tree, e.level[key]).Some? && AllReadable(Chain(e.tree, e.level[key]))
  }

  /** The shape and the length a save takes. */
  predicate Savable(rules: seq<Rule>) { Shaped(rules) && |rules| <= MAX_BRANCH_RULES }

  /** Whether a card may leave a level these rules: a list a save takes, which the level does not run yet, or none
      if it has a list to drop. */
  predicate Accepts(e: Levels, key: string, rules: seq<Rule>) {
    && Known(e, key)
    && (rules == [] ==> HasList(e.level[key]))
    && (rules != [] ==> Savable(rules) && Effective(e.tree, e.level[key], e.builtin) != ReviewTree.Rules(rules))
  }

  /** Whether confirming a card that leaves level b the list rules changes the rules level a runs. */
  predicate Changes(e: Levels, a: string, b: string, rules: seq<Rule>) {
    Known(e, a) && Known(e, b) && ChangesRulesOf(e.tree, e.level[a], e.level[b], Readable(rules), e.builtin)
  }

  predicate OtherRules(c: Card, key: string) { c.kind.ReviewSettings? && c.key != key }

  /** An earlier card with its word on the new card at key brought up to date. */
  function Renoted(e: Levels, c: Card, key: string, rules: seq<Rule>): Card {
    if !OtherRules(c, key) || !Known(e, c.key) then c
    else c.(note := Updated(e.words, c.note, e.name(key), Changes(e, c.key, key, rules)))
  }

  function RenotedAll(e: Levels, cards: seq<Card>, key: string, rules: seq<Rule>): (r: seq<Card>)
    ensures |r| == |cards| && forall i :: 0 <= i < |r| ==> r[i] == Renoted(e, cards[i], key, rules)
  {
    seq(|cards|, i requires 0 <= i < |cards| => Renoted(e, cards[i], key, rules))
  }

  /** Whether the card c, confirmed first, makes one at key stale. */
  predicate Reaches(e: Levels, c: Card, key: string) { OtherRules(c, key) && Changes(e, key, c.key, c.rules) }

  /** What a card at key says of the cards that, confirmed first, make it stale, in their order. */
  function SaidAt(e: Levels, cards: seq<Card>, key: string): seq<string> {
    if cards == [] then []
    else
      var n := |cards| - 1;
      SaidAt(e, cards[..n], key) + if Reaches(e, cards[n], key) then [Say(e.words, cards[n].target)] else []
  }

  /** lead is what else a branch-rule card's note says. */
  datatype Call =
    | Other(card: Card, allowed: bool)
    | Rules(key: string, rules: seq<Rule>, lead: seq<string>, waitsOn: string, newId: string, allowed: bool)

  function NewCard(e: Levels, cards: seq<Card>, call: Call): Card
    requires call.Rules? && Known(e, call.key)
  {
    Card(IdFor(cards, ReviewSettings, call.key, call.newId), ReviewSettings, call.key, e.name(call.key), call.rules,
         Join(call.lead + SaidAt(e, cards, call.key), " "),
         if call.waitsOn == "" then "" else IdFor(cards, ReviewType, call.waitsOn, ""))
  }

  /** Why a branch-rule call is refused before it touches a card, if it is. */
  function Refused(e: Levels, cards: seq<Card>, call: Call): Option<StageError>
    requires call.Rules?
  {
    if !Known(e, call.key) then Some(NoLevel)
    else if call.waitsOn != "" && PlaceOf(cards, ReviewType, call.waitsOn) == |cards| then Some(NoSuchTypeCard)
    else if !Accepts(e, call.key, call.rules) then Some(ListRefused)
    else None
  }

  /** The earlier cards brought up to date and the new one staged; a refusal to stage it comes after that. */
  function Drawn(e: Levels, cards: seq<Card>, call: Call): (seq<Card>, Option<StageError>)
    requires call.Rules? && Known(e, call.key)
  {
    AfterStage(RenotedAll(e, cards, call.key, call.rules), NewCard(e, cards, call), call.allowed)
  }

  /** The cards after a call, and whether it was refused. */
  function Called(e: Levels, cards: seq<Card>, call: Call): (seq<Card>, Option<StageError>) {
    match call
    case Other(card, allowed) =>
      AfterStage(cards, card.(id := IdFor(cards, card.kind, card.key, card.id), needs := ""), allowed)
    case Rules(_, _, _, _, _, _) =>
      if Refused(e, cards, call).Some? then (cards, Refused(e, cards, call)) else Drawn(e, cards, call)
  }

  /** Brings one card's word on a level up to date, and says whether that card makes one at the level stale. */
  method Note(e: Levels, other: Card, key: string, rules: seq<Rule>) returns (now: Card, reaches: bool)
    requires Known(e, key)
    ensures now == Renoted(e, other, key, rules) && reaches == Reaches(e, other, key)
  {
    if !other.kind.ReviewSettings? || other.key == key || !Known(e, other.key) {
      return other, false;
    }
    reaches := Changes(e, key, other.key, other.rules);
    now := other;
    var said, hit := Say(e.words, e.name(key)), Changes(e, other.key, key, rules);
    if hit && !Contains(other.note, said) {
      now := other.(note := Trim(other.note + " " + said));
    } else if !hit && Contains(other.note, said) {
      now := other.(note := Trim(ReplaceAll(other.note, said, "")));
    }
  }

  class ConsoleCall {
    var proposals: seq<Card>

    constructor ()
      ensures proposals == []
    {
      proposals := [];
    }

    method ProposalIDFor(kind: CardKind, key: string, newId: string) returns (id: string, replacing: bool)
      ensures id == IdFor(proposals, kind, key, newId)
      ensures replacing <==> exists i :: 0 <= i < |proposals| && SameThing(proposals[i], kind, key)
    {
      for i := 0 to |proposals|
        invariant forall k :: 0 <= k < i ==> !SameThing(proposals[k], kind, key)
      {
        var p := proposals[i];
        if key != "" && p.kind == kind && p.key == key {
          return p.id, true;
        }
      }
      return newId, false;
    }

    method Stage(p: Card, allowed: bool) returns (err: Option<StageError>)
      modifies this
      ensures (proposals, err) == AfterStage(old(proposals), p, allowed)
    {
      if !allowed {
        return Some(StepNotAllowed);
      }
      if p.key != "" {
        for i := 0 to |proposals|
          invariant proposals == old(proposals)
          invariant forall k :: 0 <= k < i ==> !SameThing(proposals[k], p.kind, p.key)
        {
          if proposals[i].kind != p.kind || proposals[i].key != p.key {
            continue;
          }
          if proposals[i].id != p.id {
            return Some(IdNotKept);
          }
          proposals := proposals[i := p];
          return None;
        }
      }
      proposals := proposals + [p];
      return None;
    }

    /** Each earlier card for another level gains or loses its word on the new card at key, and what the new
        one has to say of them is collected. */
    method NoteOthers(e: Levels, key: string, rules: seq<Rule>) returns (said: seq<string>)
      requires Known(e, key)
      modifies this
      ensures proposals == RenotedAll(e, old(proposals), key, rules)
      ensures said == SaidAt(e, old(proposals), key)
    {
      said := [];
      ghost var was := proposals;
      for i := 0 to |proposals|
        invariant |proposals| == |was|
        invariant forall k :: 0 <= k < i ==> proposals[k] == Renoted(e, was[k], key, rules)
        invariant forall k :: i <= k < |was| ==> proposals[k] == was[k]
        invariant said == SaidAt(e, was[..i], key)
      {
        assert was[..i + 1][..i] == was[..i];
        var other, reaches := Note(e, proposals[i], key, rules);
        if reaches {
          said := said + [Say(e.words, other.target)];
        }
        proposals := proposals[i := other];
      }
      assert was[..|was|] == was;
    }

    /** The new card's own id, and that of the card it waits for. */
    method Ids(call: Call) returns (id: string, needs: string)
      requires call.Rules?
      ensures id == IdFor(proposals, ReviewSettings, call.key, call.newId)
      ensures needs == if call.waitsOn == "" then "" else IdFor(proposals, ReviewType, call.waitsOn, "")
    {
      var replacing;
      id, replacing := ProposalIDFor(ReviewSettings, call.key, call.newId);
      needs := "";
      if call.waitsOn != "" {
        needs, replacing := ProposalIDFor(ReviewType, call.waitsOn, "");
      }
    }

    /** The part of a branch-rule proposal that touches the other cards, and the staging of its own. */
    method StageBranchRules(e: Levels, call: Call) returns (err: Option<StageError>)
      requires call.Rules?
      modifies this
      ensures (proposals, err) == Called(e, old(proposals), call)
    {
      err := Checked(e, call);
      if err.None? {
        err := Draw(e, call);
      }
    }

    method Checked(e: Levels, call: Call) returns (err: Option<StageError>)
      requires call.Rules?
      ensures err == Refused(e, proposals, call)
    {
      if !Known(e, call.key) {
        return Some(NoLevel);
      }
      if call.waitsOn != "" && PlaceOf(proposals, ReviewType, call.waitsOn) == |proposals| {
        return Some(NoSuchTypeCard);
      }
      if !Accepts(e, call.key, call.rules) {
        return Some(ListRefused);
      }
      return None;
    }

    method Draw(e: Levels, call: Call) returns (err: Option<StageError>)
      requires call.Rules? && Known(e, call.key)
      modifies this
      ensures (proposals, err) == Drawn(e, old(proposals), call)
    {
      ghost var was := proposals;
      var id, needs := Ids(call);
      var said := NoteOthers(e, call.key, call.rules);
      var p := Card(id, ReviewSettings, call.key, e.name(call.key), call.rules, Join(call.lead + said, " "), needs);
      assert p == NewCard(e, was, call);
      err := Stage(p, call.allowed);
    }
  }

  // ---- what every run of calls keeps ----

  /** No two cards on one thing. */
  ghost predicate OnePerThing(cards: seq<Card>) {
    forall i, j :: 0 <= i < j < |cards| ==> !SameThing(cards[j], cards[i].kind, cards[i].key)
  }

  ghost predicate HasId(cards: seq<Card>, id: string) { exists i :: 0 <= i < |cards| && cards[i].id == id }

  /** Every card that waits for another waits for one that is staged. */
  ghost predicate NeedsStaged(cards: seq<Card>) {
    forall i :: 0 <= i < |cards| && cards[i].needs != "" ==> HasId(cards, cards[i].needs)
  }

  /** Cards are only ever replaced in place or added, and a replaced card keeps its id, kind and key. */
  ghost predicate Continues(was: seq<Card>, now: seq<Card>) {
    |was| <= |now| && forall i :: 0 <= i < |was| ==>
      now[i].id == was[i].id && now[i].kind == was[i].kind && (was[i].key != "" ==> now[i].key == was[i].key)
  }

  lemma {:induction false} ContinuesIds(was: seq<Card>, now: seq<Card>, id: string)
    requires Continues(was, now) && HasId(was, id)
    ensures HasId(now, id)
  {
    var i :| 0 <= i < |was| && was[i].id == id;
    assert now[i].id == id;
  }

  lemma {:induction false} StagedKeeps(cards: seq<Card>, p: Card, allowed: bool)
    requires OnePerThing(cards) && Staged(cards, p, allowed).Ok?
    ensures OnePerThing(Staged(cards, p, allowed).value) && Continues(cards, Staged(cards, p, allowed).value)
    ensures forall i :: 0 <= i < |Staged(cards, p, allowed).value| ==>
      Staged(cards, p, allowed).value[i] == p || (i < |cards| && Staged(cards, p, allowed).value[i] == cards[i])
  {
    var i := PlaceOf(cards, p.kind, p.key);
    if i == |cards| {
      var now := cards + [p];
      forall a, b | 0 <= a < b < |now|
        ensures !SameThing(now[b], now[a].kind, now[a].key)
      {
        if b == |cards| {
          assert !SameThing(cards[a], p.kind, p.key);
        }
      }
    }
  }

  lemma {:induction false} CallKeeps(e: Levels, cards: seq<Card>, call: Call)
    requires OnePerThing(cards) && NeedsStaged(cards)
    ensures var now := Called(e, cards, call).0;
            OnePerThing(now) && NeedsStaged(now) && Continues(cards, now)
  {
    var now := Called(e, cards, call).0;
    match call {
      case Other(card, allowed) =>
        var p := card.(id := IdFor(cards, card.kind, card.key, card.id), needs := "");
        if Staged(cards, p, allowed).Ok? {
          StagedKeeps(cards, p, allowed);
          forall i | 0 <= i < |now| && now[i].needs != ""
            ensures HasId(now, now[i].needs)
          {
            ContinuesIds(cards, now, now[i].needs);
          }
        }
      case Rules(_, _, _, _, _, _) =>
        if Refused(e, cards, call).None? {
          RulesCallKeeps(e, cards, call);
        }
    }
  }

  lemma {:induction false} RulesCallKeeps(e: Levels, cards: seq<Card>, call: Call)
    requires OnePerThing(cards) && NeedsStaged(cards) && call.Rules? && Refused(e, cards, call).None?
    ensures var now := Called(e, cards, call).0;
            OnePerThing(now) && NeedsStaged(now) && Continues(cards, now)
  {
    var noted, p := RenotedAll(e, cards, call.key, call.rules), NewCard(e, cards, call);
    var now := Called(e, cards, call).0;
    assert Continues(cards, noted);
    assert OnePerThing(noted);
    if Staged(noted, p, call.allowed).Ok? {
      StagedKeeps(noted, p, call.allowed);
    }
    forall i | 0 <= i < |now| && now[i].needs != ""
      ensures HasId(now, now[i].needs)
    {
      if now[i] == p && call.waitsOn != "" {
        var k := PlaceOf(cards, ReviewType, call.waitsOn);
        assert cards[k].id == p.needs;
      } else {
        assert noted[i].needs == cards[i].needs;
      }
      ContinuesIds(cards, now, now[i].needs);
    }
  }

  function CalledAll(e: Levels, cards: seq<Card>, calls: seq<Call>): seq<Card>
    decreases |calls|
  {
    if calls == [] then cards else CalledAll(e, Called(e, cards, calls[0]).0, calls[1..])
  }

  /** Over any run of calls in one answer, accepted and refused alike. */
  lemma {:induction false} RunKeeps(e: Levels, cards: seq<Card>, calls: seq<Call>)
    requires OnePerThing(cards) && NeedsStaged(cards)
    ensures var now := CalledAll(e, cards, calls);
            OnePerThing(now) && NeedsStaged(now) && Continues(cards, now)
    decreases |calls|
  {
    if calls != [] {
      CallKeeps(e, cards, calls[0]);
      RunKeeps(e, Called(e, cards, calls[0]).0, calls[1..]);
    }
  }
}
