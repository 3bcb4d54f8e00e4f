/** A level's branch rules: a first-match list that ends in a catch-all, and the ops a call makes on it. */
module BranchRules {
  import opened Lists
  import opened Text
  import Glob

  const MAX_BRANCH_RULES := 20

  datatype Strictness = Unset | Low | Medium | High

  /** What a rule sets over the level's settings that the ops cannot say. */
  datatype Overrides = Overrides(trigger: string, post: string, model: string, notify: Option<string>)

  const NO_OVERRIDES := Overrides("", "", "", None)

  datatype Rule = Rule(base: string, head: string, labels: seq<string>, types: seq<string>,
                       strictness: Strictness, overrides: Overrides)

  predicate LabelRule(r: Rule) { r.labels != [] }

  predicate Fallback(r: Rule) { r.base == "" && r.head == "" && r.labels == [] }

  // ---- first match ----

  /** Whether a branch rule matches a pull request from head into base; a label rule never does. */
  ghost predicate Catches(r: Rule, base: string, head: string) {
    !LabelRule(r) && Glob.GlobMatches(r.base, base) && Glob.GlobMatches(r.head, head)
  }

  /** k is the first rule of the list that catches the pull request. */
  ghost predicate FirstMatch(rules: seq<Rule>, base: string, head: string, k: int) {
    0 <= k < |rules| && Catches(rules[k], base, head) && forall i :: 0 <= i < k ==> !Catches(rules[i], base, head)
  }

  /** The rule a list chooses for a pull request, if it chooses one. */
  ghost function Chosen(rules: seq<Rule>, base: string, head: string): Option<Rule> {
    if rules == [] then None
    else if Catches(rules[0], base, head) then Some(rules[0])
    else Chosen(rules[1..], base, head)
  }

  const DEFAULT_TYPE := "general"

  method MatchRule(rules: seq<Rule>, base: string, head: string) returns (index: int, rule: Option<Rule>)
    ensures index == -1 <==> forall k :: 0 <= k < |rules| ==> !Catches(rules[k], base, head)
    ensures index == -1 ==> rule == None
    ensures index != -1 ==>
      FirstMatch(rules, base, head, index) &&
      rule == Some(rules[index].(types := if rules[index].types == [] then [DEFAULT_TYPE] else rules[index].types))
    ensures Shaped(rules) ==> index != -1
  {
    index, rule := -1, None;
    assert Shaped(rules) ==> Catches(rules[|rules| - 1], base, head);
    for i := 0 to |rules|
      invariant forall k :: 0 <= k < i ==> !Catches(rules[k], base, head)
    {
      var r := rules[i];
      if LabelRule(r) {
        continue;
      }
      var onBase := Glob.Match(r.base, base);
      var onHead := Glob.Match(r.head, head);
      if !onBase || !onHead {
        continue;
      }
      if r.types == [] {
        r := r.(types := [DEFAULT_TYPE]);
      }
      return i, Some(r);
    }
  }

  /** The shape every stored list has: the fallback last, and nowhere else. */
  predicate Shaped(rules: seq<Rule>) {
    rules != [] && Fallback(rules[|rules| - 1]) && forall i :: 0 <= i < |rules| - 1 ==> !Fallback(rules[i])
  }

  // ---- the ops of one call ----

  /** What a call says of a rule: None is a field left out. */
  datatype Sent = Sent(head: Option<string>, base: Option<string>, types: seq<string>, strictness: SentStrictness)

  datatype SentStrictness = Unsaid | TakeOff | Want(value: Strictness) | Unreadable

  datatype OpKind = Add | Edit | Remove | Move | Inherit | Unknown

  datatype Op = Op(kind: OpKind, position: int, to: int, rule: Option<Sent>)

  datatype Refusal =
    | NeedsPosition | OutOfRange | LabelRuleThere
    | ListFull | AddOutOfRange | NeedsRule | NoSuchType | NoSuchStrictness | MatchesEverything
    | FallbackStays | NeedsTo | ToOutOfRange | InheritAlone | UnknownOp

  /** One rule of a list being changed: where it stood before the call (-1 for one the call adds)
      and whether a move op took it elsewhere. */
  datatype Slot = Slot(rule: Rule, from: int, moved: bool)

  datatype Edits = Edits(slots: seq<Slot>, removed: seq<Slot>)

  type KeysOf = seq<string> -> Result<seq<string>, Refusal>

  /** The new value of a glob field: unsaid or blank leaves the old one, and the word "any" empties it. */
  function GlobOf(s: Option<string>, was: string): string {
    if s.None? || Trim(s.value) == "" then was
    else
      var g := Trim(s.value);
      if |g| == 3 && g[0] in "aA" && g[1] in "nN" && g[2] in "yY" then "" else g
  }

  function StrictnessOf(s: SentStrictness, was: Strictness): Result<Strictness, Refusal> {
    match s
    case Unsaid => Ok(was)
    case TakeOff => Ok(Unset)
    case Want(v) => Ok(v)
    case Unreadable => Err(NoSuchStrictness)
  }

  /** The rule an add makes. */
  function Added(sent: Option<Sent>, keysOf: KeysOf): Result<Rule, Refusal> {
    if sent.None? then Err(NeedsRule)
    else
      var r := sent.value;
      match keysOf(r.types)
      case Err(e) => Err(e)
      case Ok(keys) =>
        match StrictnessOf(r.strictness, Unset)
        case Err(e) => Err(e)
        case Ok(st) =>
          var rule := Rule(GlobOf(r.base, ""), GlobOf(r.head, ""), [], keys, st, NO_OVERRIDES);
          if Fallback(rule) then Err(MatchesEverything) else Ok(rule)
  }

  /** was with the fields the call gives changed and every other kept. */
  function Edited(sent: Option<Sent>, was: Rule, keysOf: KeysOf): Result<Rule, Refusal> {
    if sent.None? then Err(NeedsRule)
    else
      var r := sent.value;
      match keysOf(r.types)
      case Err(e) => Err(e)
      case Ok(keys) =>
        match StrictnessOf(r.strictness, was.strictness)
        case Err(e) => Err(e)
        case Ok(st) =>
          Ok(was.(base := GlobOf(r.base, was.base), head := GlobOf(r.head, was.head),
                  types := if keys != [] then keys else was.types, strictness := st))
  }

  /** The slot an edit, a remove or a move names. */
  function At(slots: seq<Slot>, position: int): (r: Result<nat, Refusal>)
    ensures r.Ok? ==> r.value < |slots| && r.value == position - 1 && !LabelRule(slots[r.value].rule)
  {
    if position == 0 then Err(NeedsPosition)
    else if position < 1 || position > |slots| then Err(OutOfRange)
    else if LabelRule(slots[position - 1].rule) then Err(LabelRuleThere)
    else Ok(position - 1)
  }

  /** The list with the slot at i taken to k. */
  function Carried(slots: seq<Slot>, i: nat, k: nat): seq<Slot>
    requires i < |slots| && k < |slots|
  {
    InsertAt(RemoveAt(slots, i), k, slots[i].(moved := true))
  }

  function AddOp(e: Edits, op: Op, keysOf: KeysOf): Result<Edits, Refusal> {
    var n := |e.slots|;
    if n >= MAX_BRANCH_RULES then Err(ListFull)
    else
      var pos := if op.position != 0 then op.position else n;
      if pos < 1 || pos > n then Err(AddOutOfRange)
      else
        match Added(op.rule, keysOf)
        case Err(x) => Err(x)
        case Ok(r) => Ok(e.(slots := InsertAt(e.slots, pos - 1, Slot(r, -1, false))))
  }

  function EditOp(e: Edits, op: Op, keysOf: KeysOf): Result<Edits, Refusal> {
    match At(e.slots, op.position)
    case Err(x) => Err(x)
    case Ok(i) =>
      var was := e.slots[i].rule;
      match Edited(op.rule, was, keysOf)
      case Err(x) => Err(x)
      case Ok(next) =>
        if Fallback(was) && !Fallback(next) then Err(FallbackStays)
        else if !Fallback(was) && Fallback(next) then Err(MatchesEverything)
        else Ok(e.(slots := e.slots[i := e.slots[i].(rule := next)]))
  }

  function RemoveOp(e: Edits, op: Op): Result<Edits, Refusal> {
    match At(e.slots, op.position)
    case Err(x) => Err(x)
    case Ok(i) =>
      if Fallback(e.slots[i].rule) then Err(FallbackStays)
      else Ok(Edits(RemoveAt(e.slots, i), if e.slots[i].from >= 0 then e.removed + [e.slots[i]] else e.removed))
  }

  function MoveOp(e: Edits, op: Op): Result<Edits, Refusal> {
    match At(e.slots, op.position)
    case Err(x) => Err(x)
    case Ok(i) =>
      if Fallback(e.slots[i].rule) then Err(FallbackStays)
      else if op.to == 0 then Err(NeedsTo)
      else if op.to < 1 || op.to > |e.slots| - 1 then Err(ToOutOfRange)
      else if op.to - 1 == i then Ok(e)
      else Ok(e.(slots := Carried(e.slots, i, op.to - 1)))
  }

  /** What one op makes of a list, or why it is refused. */
  function Applied(e: Edits, op: Op, keysOf: KeysOf): Result<Edits, Refusal> {
    match op.kind
    case Add => AddOp(e, op, keysOf)
    case Edit => EditOp(e, op, keysOf)
    case Remove => RemoveOp(e, op)
    case Move => MoveOp(e, op)
    case Inherit => Err(InheritAlone)
    case Unknown => Err(UnknownOp)
  }

  /** The ops in order, each reading positions in the list the one before it left. */
  function AppliedAll(e: Edits, ops: seq<Op>, keysOf: KeysOf): Result<Edits, Refusal>
    decreases |ops|
  {
    if ops == [] then Ok(e)
    else
      match Applied(e, ops[0], keysOf)
      case Err(x) => Err(x)
      case Ok(next) => AppliedAll(next, ops[1..], keysOf)
  }

  function Start(start: seq<Rule>): Edits {
    Edits(seq(|start|, i requires 0 <= i < |start| => Slot(start[i], i, false)), [])
  }

  function RuleOf(s: Slot): Rule { s.rule }

  function RulesOf(slots: seq<Slot>): (r: seq<Rule>)
    ensures |r| == |slots| && forall i :: 0 <= i < |r| ==> r[i] == slots[i].rule
  {
    Map(slots, RuleOf)
  }

  /** A list under edit, changed in place one op at a time. */
  class BranchRuleOps {
    var slots: seq<Slot>
    var removed: seq<Slot>

    constructor (start: seq<Rule>)
      ensures Edits(slots, removed) == Start(start)
    {
      slots, removed := [], [];
      new;
      for i := 0 to |start|
        invariant removed == [] && |slots| == i
        invariant forall k :: 0 <= k < i ==> slots[k] == Slot(start[k], k, false)
      {
        slots := slots + [Slot(start[i], i, false)];
      }
    }

    method Apply(op: Op, keysOf: KeysOf) returns (err: Option<Refusal>)
      modifies this
      ensures Applied(old(Edits(slots, removed)), op, keysOf) ==
        match err case None => Ok(Edits(slots, removed)) case Some(x) => Err(x)
      ensures err.Some? ==> slots == old(slots) && removed == old(removed)
    {
      var n := |slots|;
      match op.kind {
        case Add =>
          if n >= MAX_BRANCH_RULES {
            return Some(ListFull);
          }
          var pos := if op.position != 0 then op.position else n;
          if pos < 1 || pos > n {
            return Some(AddOutOfRange);
          }
          var made := Added(op.rule, keysOf);
          if made.Err? {
            return Some(made.error);
          }
          slots := slots[..pos - 1] + [Slot(made.value, -1, false)] + slots[pos - 1..];
        case Edit =>
          var at := At(slots, op.position);
          if at.Err? {
            return Some(at.error);
          }
          var i, was := at.value, slots[at.value].rule;
          var next := Edited(op.rule, was, keysOf);
          if next.Err? {
            return Some(next.error);
          }
          if Fallback(was) && !Fallback(next.value) {
            return Some(FallbackStays);
          }
          if !Fallback(was) && Fallback(next.value) {
            return Some(MatchesEverything);
          }
          slots := slots[i := slots[i].(rule := next.value)];
        case Remove =>
          var at := At(slots, op.position);
          if at.Err? {
            return Some(at.error);
          }
          var i := at.value;
          if Fallback(slots[i].rule) {
            return Some(FallbackStays);
          }
          if slots[i].from >= 0 {
            removed := removed + [slots[i]];
          }
          slots := slots[..i] + slots[i + 1..];
        case Move =>
          var at := At(slots, op.position);
          if at.Err? {
            return Some(at.error);
          }
          var i := at.value;
          if Fallback(slots[i].rule) {
            return Some(FallbackStays);
          }
          if op.to == 0 {
            return Some(NeedsTo);
          }
          if op.to < 1 || op.to > n - 1 {
            return Some(ToOutOfRange);
          }
          if op.to - 1 != i {
            var s := slots[i].(moved := true);
            slots := slots[..i] + slots[i + 1..];
            slots := slots[..op.to - 1] + [s] + slots[op.to - 1..];
          }
        case Inherit => return Some(InheritAlone);
        case Unknown => return Some(UnknownOp);
      }
      return None;
    }
  }

  method ApplyBranchRuleOps(start: seq<Rule>, ops: seq<Op>, keysOf: KeysOf) returns (r: Result<Edits, Refusal>)
    ensures r == AppliedAll(Start(start), ops, keysOf)
  {
    var e := new BranchRuleOps(start);
    for i := 0 to |ops|
      invariant AppliedAll(Start(start), ops, keysOf) == AppliedAll(Edits(e.slots, e.removed), ops[i..], keysOf)
    {
      assert ops[i..][1..] == ops[i + 1..];
      var err := e.Apply(ops[i], keysOf);
      if err.Some? {
        return Err(err.value);
      }
    }
    return Ok(Edits(e.slots, e.removed));
  }

  // ---- what every accepted call keeps ----

  function FromOf(s: Slot): int { s.from }

  predicate Original(s: Slot) { s.from >= 0 }

  /** Where the slots that were there before the call stood. */
  function Origins(slots: seq<Slot>): seq<int> { Map(Filter(slots, Original), FromOf) }

  /** The start list, split between the slots kept and the slots removed: nothing lost, nothing twice. */
  ghost predicate Conserved(start: seq<Rule>, e: Edits) {
    && multiset(Origins(e.slots)) + multiset(Origins(e.removed)) == multiset(Upto(|start|))
    && forall s :: s in e.removed ==> Original(s)
  }

  /** Rules no move op took anywhere stand in the order they had. */
  ghost predicate InOrder(slots: seq<Slot>) {
    forall a, b ::
      0 <= a < b < |slots| && Original(slots[a]) && Original(slots[b]) && !slots[a].moved && !slots[b].moved ==>
        slots[a].from < slots[b].from
  }

  /** The label rules, in order. */
  function Labels(rules: seq<Rule>): seq<Rule> { Filter(rules, LabelRule) }

  ghost predicate Kept(start: seq<Rule>, e: Edits) {
    && Shaped(RulesOf(e.slots))
    && |e.slots| <= Max(|start|, MAX_BRANCH_RULES)
    && Labels(RulesOf(e.slots)) == Labels(start)
    && Conserved(start, e)
    && InOrder(e.slots)
  }

  lemma {:induction false} OriginsRemoveAt(slots: seq<Slot>, i: nat)
    requires i < |slots|
    ensures multiset(Origins(slots)) ==
            multiset(Origins(RemoveAt(slots, i))) + (if Original(slots[i]) then multiset{slots[i].from} else multiset{})
  {
    var a, b := slots[..i], slots[i + 1..];
    FilterConcat(a, [slots[i]] + b, Original);
    FilterConcat([slots[i]], b, Original);
    FilterConcat(a, b, Original);
    assert slots == a + ([slots[i]] + b);
    assert Filter([slots[i]], Original) == if Original(slots[i]) then [slots[i]] else [];
    var fa, fb := Filter(a, Original), Filter(b, Original);
    assert Origins(RemoveAt(slots, i)) == Map(fa, FromOf) + Map(fb, FromOf);
    if Original(slots[i]) {
      assert Origins(slots) == Map(fa, FromOf) + [slots[i].from] + Map(fb, FromOf);
    }
  }

  lemma OriginsInsertAt(slots: seq<Slot>, i: nat, s: Slot)
    requires i <= |slots|
    ensures multiset(Origins(InsertAt(slots, i, s))) ==
            multiset(Origins(slots)) + (if Original(s) then multiset{s.from} else multiset{})
  {
    assert RemoveAt(InsertAt(slots, i, s), i) == slots;
    OriginsRemoveAt(InsertAt(slots, i, s), i);
  }

  lemma OriginsUpdate(slots: seq<Slot>, i: nat, s: Slot)
    requires i < |slots| && s.from == slots[i].from
    ensures multiset(Origins(slots[i := s])) == multiset(Origins(slots))
  {
    assert RemoveAt(slots[i := s], i) == RemoveAt(slots, i);
    OriginsRemoveAt(slots, i);
    OriginsRemoveAt(slots[i := s], i);
  }

  lemma LabelsRemoveAt(slots: seq<Slot>, i: nat)
    requires i < |slots| && !LabelRule(slots[i].rule)
    ensures Labels(RulesOf(RemoveAt(slots, i))) == Labels(RulesOf(slots))
  {
    MapRemoveAt(slots, i, RuleOf);
    FilterRemoveAt(RulesOf(slots), i, LabelRule);
  }

  lemma LabelsInsertAt(slots: seq<Slot>, i: nat, s: Slot)
    requires i <= |slots| && !LabelRule(s.rule)
    ensures Labels(RulesOf(InsertAt(slots, i, s))) == Labels(RulesOf(slots))
  {
    MapInsertAt(slots, i, s, RuleOf);
    FilterInsertAt(RulesOf(slots), i, s.rule, LabelRule);
  }

  lemma ShapedRemoveAt(slots: seq<Slot>, i: nat)
    requires i < |slots| && Shaped(RulesOf(slots)) && !Fallback(slots[i].rule)
    ensures Shaped(RulesOf(RemoveAt(slots, i)))
  {
    var rest := RemoveAt(slots, i);
    forall k | 0 <= k < |rest| - 1
      ensures !Fallback(RulesOf(rest)[k])
    {
      assert rest[k] == slots[if k < i then k else k + 1];
    }
  }

  lemma ShapedInsertAt(slots: seq<Slot>, i: nat, s: Slot)
    requires i < |slots| && Shaped(RulesOf(slots)) && !Fallback(s.rule)
    ensures Shaped(RulesOf(InsertAt(slots, i, s)))
  {
    var more := InsertAt(slots, i, s);
    forall k | 0 <= k < |more| - 1
      ensures !Fallback(RulesOf(more)[k])
    {
      assert more[k] == if k < i then slots[k] else if k == i then s else slots[k - 1];
    }
  }

  lemma InOrderRemoveAt(slots: seq<Slot>, i: nat)
    requires i < |slots| && InOrder(slots)
    ensures InOrder(RemoveAt(slots, i))
  {
    var rest := RemoveAt(slots, i);
    assert forall k :: 0 <= k < |rest| ==> rest[k] == slots[if k < i then k else k + 1];
  }

  lemma InOrderInsertAt(slots: seq<Slot>, i: nat, s: Slot)
    requires i <= |slots| && InOrder(slots) && (s.moved || !Original(s))
    ensures InOrder(InsertAt(slots, i, s))
  {
    var more := InsertAt(slots, i, s);
    assert forall k :: 0 <= k < |more| ==> more[k] == if k < i then slots[k] else if k == i then s else slots[k - 1];
  }

  lemma AddKeeps(start: seq<Rule>, e: Edits, op: Op, keysOf: KeysOf)
    requires Kept(start, e) && AddOp(e, op, keysOf).Ok?
    ensures Kept(start, AddOp(e, op, keysOf).value)
  {
    var pos := if op.position != 0 then op.position else |e.slots|;
    var s := Slot(Added(op.rule, keysOf).value, -1, false);
    LabelsInsertAt(e.slots, pos - 1, s);
    OriginsInsertAt(e.slots, pos - 1, s);
    ShapedInsertAt(e.slots, pos - 1, s);
    InOrderInsertAt(e.slots, pos - 1, s);
  }

  lemma EditKeeps(start: seq<Rule>, e: Edits, op: Op, keysOf: KeysOf)
    requires Kept(start, e) && EditOp(e, op, keysOf).Ok?
    ensures Kept(start, EditOp(e, op, keysOf).value)
  {
    var i := op.position - 1;
    var s := EditOp(e, op, keysOf).value.slots[i];
    OriginsUpdate(e.slots, i, s);
    LabelsRemoveAt(e.slots, i);
    LabelsRemoveAt(e.slots[i := s], i);
    assert RemoveAt(e.slots[i := s], i) == RemoveAt(e.slots, i);
  }

  lemma RemovedConserves(start: seq<Rule>, e: Edits, i: nat)
    requires i < |e.slots| && Conserved(start, e)
    ensures var removed := if Original(e.slots[i]) then e.removed + [e.slots[i]] else e.removed;
            Conserved(start, Edits(RemoveAt(e.slots, i), removed))
  {
    var s := e.slots[i];
    OriginsRemoveAt(e.slots, i);
    if Original(s) {
      OriginsInsertAt(e.removed, |e.removed|, s);
      assert InsertAt(e.removed, |e.removed|, s) == e.removed + [s];
    }
  }

  lemma RemoveKeeps(start: seq<Rule>, e: Edits, op: Op)
    requires Kept(start, e) && RemoveOp(e, op).Ok?
    ensures Kept(start, RemoveOp(e, op).value)
  {
    var i := op.position - 1;
    LabelsRemoveAt(e.slots, i);
    RemovedConserves(start, e, i);
    ShapedRemoveAt(e.slots, i);
    InOrderRemoveAt(e.slots, i);
  }

  lemma CarriedConserves(slots: seq<Slot>, i: nat, k: nat)
    requires i < |slots| && k < |slots| && !LabelRule(slots[i].rule)
    ensures multiset(Origins(Carried(slots, i, k))) == multiset(Origins(slots))
    ensures Labels(RulesOf(Carried(slots, i, k))) == Labels(RulesOf(slots))
  {
    var s, mid := slots[i].(moved := true), RemoveAt(slots, i);
    OriginsRemoveAt(slots, i);
    OriginsInsertAt(mid, k, s);
    LabelsRemoveAt(slots, i);
    LabelsInsertAt(mid, k, s);
  }

  lemma CarriedOrders(slots: seq<Slot>, i: nat, k: nat)
    requires i < |slots| && k < |slots| - 1 && !Fallback(slots[i].rule)
    requires Shaped(RulesOf(slots)) && InOrder(slots)
    ensures Shaped(RulesOf(Carried(slots, i, k))) && InOrder(Carried(slots, i, k))
  {
    var s, mid := slots[i].(moved := true), RemoveAt(slots, i);
    ShapedRemoveAt(slots, i);
    ShapedInsertAt(mid, k, s);
    InOrderRemoveAt(slots, i);
    InOrderInsertAt(mid, k, s);
  }

  lemma MoveKeeps(start: seq<Rule>, e: Edits, op: Op)
    requires Kept(start, e) && MoveOp(e, op).Ok?
    ensures Kept(start, MoveOp(e, op).value)
  {
    var i := op.position - 1;
    if op.to - 1 != i {
      CarriedConserves(e.slots, i, op.to - 1);
      CarriedOrders(e.slots, i, op.to - 1);
    }
  }

  /** A moved rule sits at the number it was sent to right after its op, and lifting it out of the
      lists before and after leaves the same list. */
  lemma {:induction false} MoveLands(e: Edits, op: Op, keysOf: KeysOf)
    requires op.kind.Move? && Applied(e, op, keysOf).Ok?
    ensures var next := Applied(e, op, keysOf).value;
            && 1 <= op.position <= |e.slots| && 1 <= op.to <= |next.slots| - 1
            && next.slots[op.to - 1].rule == e.slots[op.position - 1].rule
            && next.slots[op.to - 1].from == e.slots[op.position - 1].from
            && RemoveAt(next.slots, op.to - 1) == RemoveAt(e.slots, op.position - 1)
            && next.removed == e.removed
  {
  }

  /** An added rule sits at the number it was sent to, or just above the last rule, and taking it out again by
      that number leaves the list, and what was removed, as they were. */
  lemma {:induction false} AddThenRemove(e: Edits, op: Op, keysOf: KeysOf)
    requires op.kind.Add? && Applied(e, op, keysOf).Ok?
    ensures var at := if op.position != 0 then op.position else |e.slots|;
            var next := Applied(e, op, keysOf).value;
            && 1 <= at < |next.slots| && next.slots[at - 1].from == -1 && !Fallback(next.slots[at - 1].rule)
            && Applied(next, Op(Remove, at, 0, None), keysOf) == Ok(e)
  {
    var at := if op.position != 0 then op.position else |e.slots|;
    var next := Applied(e, op, keysOf).value;
    assert RemoveAt(next.slots, at - 1) == e.slots;
  }

  /** An edit changes the one rule it names, and of that rule only its branches, types and strictness: not
      its labels, what it sets over the settings, where it came from, or whether it is the fallback. */
  lemma {:induction false} EditTouchesOne(e: Edits, op: Op, keysOf: KeysOf, k: nat)
    requires op.kind.Edit? && Applied(e, op, keysOf).Ok? && k < |e.slots|
    ensures var next := Applied(e, op, keysOf).value;
            && |next.slots| == |e.slots| && next.removed == e.removed
            && (k != op.position - 1 ==> next.slots[k] == e.slots[k])
            && next.slots[k].from == e.slots[k].from && next.slots[k].moved == e.slots[k].moved
            && next.slots[k].rule.labels == e.slots[k].rule.labels
            && next.slots[k].rule.overrides == e.slots[k].rule.overrides
            && (Fallback(next.slots[k].rule) <==> Fallback(e.slots[k].rule))
  {
    assert At(e.slots, op.position).Ok?;
  }

  lemma {:induction false} CarriedBack(slots: seq<Slot>, i: nat, k: nat)
    requires i < |slots| && k < |slots|
    ensures var there := Carried(slots, i, k);
            there[k].rule == slots[i].rule && RulesOf(Carried(there, k, i)) == RulesOf(slots)
  {
    var there := Carried(slots, i, k);
    assert RemoveAt(there, k) == RemoveAt(slots, i);
    assert there[k].rule == slots[i].rule;
    assert Carried(there, k, i) == slots[i := there[k].(moved := true)];
  }

  lemma {:induction false} CarriedOp(e: Edits, i: nat, k: nat)
    requires i < |e.slots| - 1 && k < |e.slots| - 1 && i != k
    requires !LabelRule(e.slots[i].rule) && !Fallback(e.slots[i].rule)
    ensures MoveOp(e.(slots := Carried(e.slots, i, k)), Op(Move, k + 1, i + 1, None)) ==
            Ok(e.(slots := Carried(Carried(e.slots, i, k), k, i)))
  {
    CarriedBack(e.slots, i, k);
  }

  /** In a list that ends in its fallback a move is undone by moving the rule back to the number it had. */
  lemma {:induction false} MoveBack(e: Edits, op: Op)
    requires Shaped(RulesOf(e.slots)) && MoveOp(e, op).Ok?
    ensures var back := MoveOp(MoveOp(e, op).value, Op(Move, op.to, op.position, None));
            back.Ok? && RulesOf(back.value.slots) == RulesOf(e.slots) && back.value.removed == e.removed
  {
    var n, i, k := |e.slots|, op.position - 1, op.to - 1;
    assert At(e.slots, op.position) == Ok(i);
    assert RulesOf(e.slots)[n - 1] == e.slots[n - 1].rule;
    if i != k {
      CarriedOp(e, i, k);
      CarriedBack(e.slots, i, k);
    }
  }

  lemma StartKept(start: seq<Rule>)
    requires Shaped(start)
    ensures Kept(start, Start(start))
  {
    var e := Start(start);
    assert RulesOf(e.slots) == start;
    FilterAll(e.slots, Original);
    assert Origins(e.slots) == Upto(|start|);
    assert multiset(Origins(e.removed)) == multiset{};
  }

  /** Every accepted call leaves the fallback last and alone, the list within its bound, the label
      rules as they were, every start rule either kept or recorded as removed, and the rules no move
      touched in their order. */
  lemma {:induction false} AcceptedKeeps(start: seq<Rule>, e: Edits, ops: seq<Op>, keysOf: KeysOf)
    requires Kept(start, e) && AppliedAll(e, ops, keysOf).Ok?
    ensures Kept(start, AppliedAll(e, ops, keysOf).value)
    decreases |ops|
  {
    if ops != [] {
      match ops[0].kind {
        case Add => AddKeeps(start, e, ops[0], keysOf);
        case Edit => EditKeeps(start, e, ops[0], keysOf);
        case Remove => RemoveKeeps(start, e, ops[0]);
        case Move => MoveKeeps(start, e, ops[0]);
        case Inherit =>
        case Unknown =>
      }
      AcceptedKeeps(start, Applied(e, ops[0], keysOf).value, ops[1..], keysOf);
    }
  }

  // ---- rules that match every pull request ----

  ghost predicate CatchesAll(r: Rule) { forall base, head :: Catches(r, base, head) }

  /** A branch rule catches every pull request exactly when both its globs are universal. */
  lemma CatchesAllExactly(r: Rule)
    ensures CatchesAll(r) <==> (!LabelRule(r) && Glob.Universal(r.base) && Glob.Universal(r.head))
  {
    Glob.UniversalExactly(r.base);
    Glob.UniversalExactly(r.head);
    if forall base, head :: Catches(r, base, head) {
      forall name
        ensures Glob.GlobMatches(r.base, name) && Glob.GlobMatches(r.head, name)
      {
        assert Catches(r, name, name);
      }
      assert Catches(r, "", "");
    }
  }

  /** The ops keep the fallback the only rule with no branch named, which is less than the only rule
      that matches every pull request: that holds exactly when no branch rule above it has two
      universal globs. */
  lemma OnlyFallbackCatchesAll(start: seq<Rule>, e: Edits)
    requires Kept(start, e)
    ensures var rules := RulesOf(e.slots);
            (forall i :: 0 <= i < |rules| ==> (CatchesAll(rules[i]) <==> i == |rules| - 1)) <==>
            (forall i :: 0 <= i < |rules| - 1 ==>
               LabelRule(rules[i]) || !Glob.Universal(rules[i].base) || !Glob.Universal(rules[i].head))
  {
    var rules := RulesOf(e.slots);
    forall i | 0 <= i < |rules|
      ensures CatchesAll(rules[i]) <==>
        (!LabelRule(rules[i]) && Glob.Universal(rules[i].base) && Glob.Universal(rules[i].head))
    {
      CatchesAllExactly(rules[i]);
    }
  }

  /** One accepted add puts such a rule above the fallback: head "**". */
  lemma StarStarIsAccepted(start: seq<Rule>, keysOf: KeysOf)
    requires Shaped(start) && |start| < MAX_BRANCH_RULES && keysOf([]).Ok?
    ensures var ops := [Op(Add, 1, 0, Some(Sent(Some("**"), None, [], Unsaid)))];
            && AppliedAll(Start(start), ops, keysOf).Ok?
            && CatchesAll(RulesOf(AppliedAll(Start(start), ops, keysOf).value.slots)[0])
  {
    var op := Op(Add, 1, 0, Some(Sent(Some("**"), None, [], Unsaid)));
    assert [op][1..] == [];
    assert Trim("**") == "**";
    var rule := Added(op.rule, keysOf).value;
    var next := Applied(Start(start), op, keysOf).value;
    assert next.slots[0] == Slot(rule, -1, false);
    Glob.StarStarUniversal();
    CatchesAllExactly(rule);
  }
}
