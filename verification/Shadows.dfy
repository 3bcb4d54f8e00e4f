/** The warnings a card carries about rules that can never match. */
module Shadows {
  import opened Lists
  import opened BranchRules
  import Glob

  /** Slot i does not simply hold a rule of the start as it stood there. */
  predicate Touched(e: Edits, start: seq<Rule>, i: nat)
    requires i < |e.slots|
  {
    var s := e.slots[i];
    s.from < 0 || s.moved || s.from >= |start| || s.rule != start[s.from]
  }

  predicate CoversGlob(early: string, late: string) { early == "" || early == "**" || early == late }

  predicate CoversRule(early: Rule, late: Rule) {
    !LabelRule(early) && CoversGlob(early.base, late.base) && CoversGlob(early.head, late.head)
  }

  /** The warning "rule j+1 can never match: rule i+1 catches every pull request it would". */
  predicate Shadowed(e: Edits, start: seq<Rule>, j: nat, i: nat) {
    && i < j < |e.slots|
    && !LabelRule(e.slots[j].rule)
    && CoversRule(e.slots[i].rule, e.slots[j].rule)
    && (Touched(e, start, i) || Touched(e, start, j))
  }

  predicate Warned(e: Edits, start: seq<Rule>, j: nat) {
    exists i :: 0 <= i < j && Shadowed(e, start, j, i)
  }

  /** The warnings, one for each rule some earlier rule shadows, in order, each naming the first that does. */
  method Shadows(e: Edits, start: seq<Rule>) returns (out: seq<(nat, nat)>)
    ensures forall k :: 0 <= k < |out| ==> Shadowed(e, start, out[k].0, out[k].1)
    ensures forall k :: 0 <= k < |out| ==> forall i :: 0 <= i < out[k].1 ==> !Shadowed(e, start, out[k].0, i)
    ensures forall k, l :: 0 <= k < l < |out| ==> out[k].0 < out[l].0
    ensures forall j: nat :: Warned(e, start, j) <==> exists k :: 0 <= k < |out| && out[k].0 == j
  {
    out := [];
    for j := 0 to |e.slots|
      invariant forall k :: 0 <= k < |out| ==> out[k].0 < j && Shadowed(e, start, out[k].0, out[k].1)
      invariant forall k :: 0 <= k < |out| ==> forall i :: 0 <= i < out[k].1 ==> !Shadowed(e, start, out[k].0, i)
      invariant forall k, l :: 0 <= k < l < |out| ==> out[k].0 < out[l].0
      invariant forall d: nat :: d < j && Warned(e, start, d) ==> exists k :: 0 <= k < |out| && out[k].0 == d
    {
      var late := e.slots[j].rule;
      if LabelRule(late) {
        continue;
      }
      ghost var before := out;
      for i := 0 to j
        invariant out == before
        invariant forall k :: 0 <= k < i ==> !Shadowed(e, start, j, k)
      {
        if CoversRule(e.slots[i].rule, late) && (Touched(e, start, i) || Touched(e, start, j)) {
          out := out + [(j, i)];
          assert out[|out| - 1].0 == j;
          break;
        }
      }
      assert forall k :: 0 <= k < |before| ==> out[k] == before[k];
    }
  }

  // ---- what the warnings claim is true of first match ----

  lemma CoversGlobSound(early: string, late: string, name: string)
    requires CoversGlob(early, late) && Glob.GlobMatches(late, name)
    ensures Glob.GlobMatches(early, name)
  {
    if early == "**" {
      Glob.StarStarUniversal();
    }
  }

  /** A rule warned about is no pull request's first match. */
  lemma WarnedNeverFirst(e: Edits, start: seq<Rule>, j: nat, base: string, head: string)
    requires Warned(e, start, j)
    ensures !FirstMatch(RulesOf(e.slots), base, head, j)
  {
    var rules := RulesOf(e.slots);
    var i :| 0 <= i < j && Shadowed(e, start, j, i);
    if Catches(rules[j], base, head) {
      CoversGlobSound(rules[i].base, rules[j].base, base);
      CoversGlobSound(rules[i].head, rules[j].head, head);
      assert Catches(rules[i], base, head);
    }
  }

  /** rules, standing at place at of a longer list, with the rules at the places in gone left out. */
  function Without(rules: seq<Rule>, gone: set<nat>, at: nat): seq<Rule> {
    if rules == [] then []
    else (if at in gone then [] else [rules[0]]) + Without(rules[1..], gone, at + 1)
  }

  lemma {:induction false} ChosenWithout(rules: seq<Rule>, gone: set<nat>, at: nat, base: string, head: string)
    requires forall k :: 0 <= k < |rules| && FirstMatch(rules, base, head, k) ==> at + k !in gone
    ensures Chosen(Without(rules, gone, at), base, head) == Chosen(rules, base, head)
  {
    if rules != [] {
      var rest := rules[1..];
      if Catches(rules[0], base, head) {
        assert FirstMatch(rules, base, head, 0);
        assert at + 0 !in gone;
        assert Without(rules, gone, at)[1..] == Without(rest, gone, at + 1);
      } else {
        forall k | 0 <= k < |rest| && FirstMatch(rest, base, head, k)
          ensures at + 1 + k !in gone
        {
          assert FirstMatch(rules, base, head, k + 1);
        }
        ChosenWithout(rest, gone, at + 1, base, head);
        if at !in gone {
          assert Without(rules, gone, at)[1..] == Without(rest, gone, at + 1);
        } else {
          assert Without(rules, gone, at) == Without(rest, gone, at + 1);
        }
      }
    }
  }

  /** Taking out any of the rules warned about, one or all of them, changes the rule of no pull request. */
  lemma WarnedRulesAreDead(e: Edits, start: seq<Rule>, gone: set<nat>, base: string, head: string)
    requires forall j :: j in gone ==> Warned(e, start, j)
    ensures Chosen(Without(RulesOf(e.slots), gone, 0), base, head) == Chosen(RulesOf(e.slots), base, head)
  {
    var rules := RulesOf(e.slots);
    forall k | 0 <= k < |rules| && FirstMatch(rules, base, head, k)
      ensures k !in gone
    {
      if k in gone {
        WarnedNeverFirst(e, start, k, base, head);
      }
    }
    ChosenWithout(rules, gone, 0, base, head);
  }

  /** The rule MatchRule's index names is the rule a list chooses. */
  lemma {:induction false} ChosenIsFirstMatch(rules: seq<Rule>, base: string, head: string, k: nat)
    requires FirstMatch(rules, base, head, k)
    ensures Chosen(rules, base, head) == Some(rules[k])
  {
    if k > 0 {
      assert !Catches(rules[0], base, head);
      assert FirstMatch(rules[1..], base, head, k - 1);
      ChosenIsFirstMatch(rules[1..], base, head, k - 1);
    }
  }

  /** A list that read that way before the call is not the call's news. */
  lemma UntouchedListIsSilent(start: seq<Rule>, j: nat)
    ensures !Warned(Start(start), start, j)
  {
    var e := Start(start);
    assert forall i :: 0 <= i < |e.slots| ==> !Touched(e, start, i);
  }
}
