/** Which approval tier an access request is sent to, and to whom. */
module Approvers {
  import opened Lists
  import opened Orders

  /** A recorded call: a fix job on a repository, or an HTTP call. */
  datatype Step = Step(job: Option<string>, method_: string, url: string)

  /** A tier with its members resolved, the repositories of its connections, and whether it reaches anything. */
  datatype Tier = Tier(id: int, rank: int, members: seq<string>, repos: seq<string>, rules: nat)

  /** matches is whether a tier's access has a connection for a method and a URL; same compares repository
      names without regard to case. */
  datatype Proxy = Proxy(matches: (Tier, string, string) -> bool, same: (string, string) -> bool)

  // ---- tiers in order ----

  predicate RankLeq(a: Tier, b: Tier) { a.rank <= b.rank }

  predicate ByRank(ts: seq<Tier>) { Ordered(ts, RankLeq) }

  /** Lowest rank first, ties in the order they came. */
  function Sorted(ts: seq<Tier>): seq<Tier> { Sort(ts, RankLeq) }

  // ---- coverage ----

  predicate HasRepo(p: Proxy, t: Tier, repo: string) {
    repo != "" && exists i :: 0 <= i < |t.repos| && p.same(t.repos[i], repo)
  }

  predicate Reaches(p: Proxy, t: Tier, s: Step) {
    match s.job case Some(repo) => HasRepo(p, t, repo) case None => p.matches(t, s.method_, s.url)
  }

  /** The tier has rules, and no call is out of its reach. */
  predicate CoversAll(p: Proxy, t: Tier, calls: seq<Step>) {
    t.rules > 0 && forall i :: 0 <= i < |calls| ==> Reaches(p, t, calls[i])
  }

  method TierHasRepo(p: Proxy, t: Tier, repo: string) returns (ok: bool)
    ensures ok == HasRepo(p, t, repo)
  {
    if repo == "" {
      return false;
    }
    for i := 0 to |t.repos|
      invariant forall k :: 0 <= k < i ==> !p.same(t.repos[k], repo)
    {
      if p.same(t.repos[i], repo) {
        return true;
      }
    }
    return false;
  }

  method Covers(p: Proxy, t: Tier, calls: seq<Step>) returns (ok: bool)
    ensures ok == CoversAll(p, t, calls)
  {
    if t.rules == 0 {
      return false;
    }
    for i := 0 to |calls|
      invariant forall k :: 0 <= k < i ==> Reaches(p, t, calls[k])
    {
      match calls[i].job {
        case Some(repo) =>
          var has := TierHasRepo(p, t, repo);
          if !has {
            return false;
          }
        case None =>
          if !p.matches(t, calls[i].method_, calls[i].url) {
            return false;
          }
      }
    }
    return true;
  }

  // ---- routing ----

  /** Who asks, whom they tagged, and whether they may answer their own request. */
  datatype Ask = Ask(user: string, tagged: seq<string>, selfApprove: bool)

  predicate Answerable(a: Ask, id: string) { a.selfApprove || id != a.user }

  ghost predicate Targets(a: Ask, t: Tier, ids: seq<string>) {
    ids != [] && forall id :: id in ids ==> id in t.members && Answerable(a, id)
  }

  ghost predicate HasAnswerable(a: Ask, t: Tier) { exists i :: 0 <= i < |t.members| && Answerable(a, t.members[i]) }

  /** Someone the requester tagged holds t and may answer. */
  ghost predicate Tags(a: Ask, t: Tier) {
    exists i :: 0 <= i < |a.tagged| && a.tagged[i] in t.members && Answerable(a, a.tagged[i])
  }

  /** The outcome of routing: a tier and the people asked. */
  datatype Route = NoRoute | To(tier: Tier, ids: seq<string>)

  ghost predicate Candidate(p: Proxy, ts: seq<Tier>, calls: seq<Step>, t: Tier) { t in ts && CoversAll(p, t, calls) }

  /** What a route must be: sound, as low as it can be, and none only when there is nobody to ask. */
  ghost predicate Routed(p: Proxy, ts: seq<Tier>, a: Ask, calls: seq<Step>, r: Route) {
    match r
    case NoRoute => forall t :: Candidate(p, ts, calls, t) ==> !HasAnswerable(a, t)
    case To(t, ids) =>
      && Candidate(p, ts, calls, t) && Targets(a, t, ids)
      && (if exists u :: Candidate(p, ts, calls, u) && Tags(a, u)
          then |ids| == 1 && ids[0] in a.tagged && forall u :: Candidate(p, ts, calls, u) && Tags(a, u) ==>
            t.rank <= u.rank
          else (forall id :: id in t.members && Answerable(a, id) ==> id in ids) &&
               forall u :: Candidate(p, ts, calls, u) && HasAnswerable(a, u) ==> t.rank <= u.rank)
  }

  /** The tiers that cover the calls, in order. */
  function Covering(p: Proxy, ts: seq<Tier>, calls: seq<Step>): seq<Tier> {
    if ts == [] then []
    else
      var n := |ts| - 1;
      Covering(p, ts[..n], calls) + if CoversAll(p, ts[n], calls) then [ts[n]] else []
  }

  lemma {:induction false} CoveringIs(p: Proxy, ts: seq<Tier>, calls: seq<Step>)
    requires ByRank(ts)
    ensures ByRank(Covering(p, ts, calls))
    ensures forall t :: t in Covering(p, ts, calls) <==> Candidate(p, ts, calls, t)
  {
    if ts != [] {
      var n := |ts| - 1;
      CoveringIs(p, ts[..n], calls);
      var front := Covering(p, ts[..n], calls);
      forall k | 0 <= k < |front|
        ensures front[k].rank <= ts[n].rank
      {
        assert front[k] in front && front[k] in ts[..n];
      }
      assert forall t :: t in ts <==> t in ts[..n] || t == ts[n];
    }
  }

  /** The first person tagged who holds t and may answer. */
  function FirstTagged(a: Ask, tagged: seq<string>, t: Tier): Option<string> {
    if tagged == [] then None
    else if tagged[0] in t.members && Answerable(a, tagged[0]) then Some(tagged[0])
    else FirstTagged(a, tagged[1..], t)
  }

  function AnswerableOf(a: Ask, members: seq<string>): seq<string> {
    if members == [] then []
    else
      var n := |members| - 1;
      AnswerableOf(a, members[..n]) + if Answerable(a, members[n]) then [members[n]] else []
  }

  function ByTag(a: Ask, covering: seq<Tier>): Route {
    if covering == [] then NoRoute
    else
      match FirstTagged(a, a.tagged, covering[0])
      case Some(id) => To(covering[0], [id])
      case None => ByTag(a, covering[1..])
  }

  function ByRankOnly(a: Ask, covering: seq<Tier>): Route {
    if covering == [] then NoRoute
    else if AnswerableOf(a, covering[0].members) != [] then To(covering[0], AnswerableOf(a, covering[0].members))
    else ByRankOnly(a, covering[1..])
  }

  function Choose(a: Ask, covering: seq<Tier>): Route {
    if ByTag(a, covering).To? then ByTag(a, covering) else ByRankOnly(a, covering)
  }

  method FindTagged(a: Ask, t: Tier) returns (id: Option<string>)
    ensures id == FirstTagged(a, a.tagged, t)
  {
    for k := 0 to |a.tagged|
      invariant FirstTagged(a, a.tagged, t) == FirstTagged(a, a.tagged[k..], t)
    {
      assert a.tagged[k..][1..] == a.tagged[k + 1..];
      if a.tagged[k] in t.members && Answerable(a, a.tagged[k]) {
        return Some(a.tagged[k]);
      }
    }
    assert a.tagged[|a.tagged|..] == [];
    return None;
  }

  /** routeTo: the first search goes by the people tagged, the second by rank alone. */
  method RouteTo(p: Proxy, roles: seq<Tier>, a: Ask, calls: seq<Step>) returns (r: Route)
    ensures r == Choose(a, Covering(p, Sorted(roles), calls))
    ensures Routed(p, roles, a, calls, r)
  {
    var ts := Sorted(roles);
    var covering := [];
    for i := 0 to |ts|
      invariant covering == Covering(p, ts[..i], calls)
    {
      assert ts[..i + 1][..i] == ts[..i];
      var ok := Covers(p, ts[i], calls);
      if ok {
        covering := covering + [ts[i]];
      }
    }
    assert ts[..|ts|] == ts;
    ChosenIsRouted(p, roles, a, calls);
    for i := 0 to |covering|
      invariant ByTag(a, covering) == ByTag(a, covering[i..])
    {
      assert covering[i..][1..] == covering[i + 1..];
      var id := FindTagged(a, covering[i]);
      if id.Some? {
        return To(covering[i], [id.value]);
      }
    }
    assert covering[|covering|..] == [];
    for i := 0 to |covering|
      invariant ByRankOnly(a, covering) == ByRankOnly(a, covering[i..])
    {
      assert covering[i..][1..] == covering[i + 1..];
      var ids := AnswerableMembers(a, covering[i]);
      if ids != [] {
        return To(covering[i], ids);
      }
    }
    return NoRoute;
  }

  method AnswerableMembers(a: Ask, t: Tier) returns (ids: seq<string>)
    ensures ids == AnswerableOf(a, t.members)
  {
    ids := [];
    for i := 0 to |t.members|
      invariant ids == AnswerableOf(a, t.members[..i])
    {
      assert t.members[..i + 1][..i] == t.members[..i];
      if Answerable(a, t.members[i]) {
        ids := ids + [t.members[i]];
      }
    }
    assert t.members[..|t.members|] == t.members;
  }

  /** best is the greatest rank among the tiers user is in, where that is 0 or more; -1 stands for no tier and
      for none of such a rank. */
  ghost predicate IsRank(ts: seq<Tier>, user: string, best: int) {
    && best >= -1
    && (best == -1 <==> forall t :: t in ts && user in t.members ==> t.rank <= -1)
    && (best != -1 ==> exists t :: t in ts && user in t.members && t.rank == best)
    && forall t :: t in ts && user in t.members ==> t.rank <= best
  }

  method RankOf(ts: seq<Tier>, user: string) returns (best: int)
    ensures IsRank(ts, user, best)
  {
    best := -1;
    for i := 0 to |ts|
      invariant IsRank(ts[..i], user, best)
    {
      assert ts[..i + 1] == ts[..i] + [ts[i]];
      assert ts[i] in ts[..i + 1];
      if user in ts[i].members && ts[i].rank > best {
        best := ts[i].rank;
      }
    }
    assert ts[..|ts|] == ts;
  }

  // ---- the choice is what routing promises ----

  lemma {:induction false} FirstTaggedIs(a: Ask, tagged: seq<string>, t: Tier)
    ensures match FirstTagged(a, tagged, t)
            case Some(id) => id in tagged && id in t.members && Answerable(a, id)
            case None => forall i :: 0 <= i < |tagged| ==> !(tagged[i] in t.members && Answerable(a, tagged[i]))
  {
    if tagged != [] {
      FirstTaggedIs(a, tagged[1..], t);
    }
  }

  lemma {:induction false} AnswerableOfIs(a: Ask, members: seq<string>)
    ensures forall id :: id in AnswerableOf(a, members) <==> id in members && Answerable(a, id)
  {
    if members != [] {
      AnswerableOfIs(a, members[..|members| - 1]);
    }
  }

  lemma {:induction false} ByTagIs(a: Ask, covering: seq<Tier>)
    requires ByRank(covering)
    ensures match ByTag(a, covering)
            case NoRoute => forall u :: u in covering ==> !Tags(a, u)
            case To(t, ids) => t in covering && Tags(a, t) && Targets(a, t, ids) && |ids| == 1 && ids[0] in a.tagged &&
                               forall u :: u in covering && Tags(a, u) ==> t.rank <= u.rank
  {
    if covering != [] {
      FirstTaggedIs(a, a.tagged, covering[0]);
      ByTagIs(a, covering[1..]);
    }
  }

  lemma {:induction false} ByRankOnlyIs(a: Ask, covering: seq<Tier>)
    requires ByRank(covering)
    ensures match ByRankOnly(a, covering)
            case NoRoute => forall u :: u in covering ==> !HasAnswerable(a, u)
            case To(t, ids) =>
              && t in covering && Targets(a, t, ids) &&
                   (forall id :: id in t.members && Answerable(a, id) ==> id in ids)
              && forall u :: u in covering && HasAnswerable(a, u) ==> t.rank <= u.rank
  {
    if covering != [] {
      var t := covering[0];
      AnswerableOfIs(a, t.members);
      if AnswerableOf(a, t.members) == [] {
        assert forall k :: 0 <= k < |t.members| ==>
          t.members[k] in t.members && t.members[k] !in AnswerableOf(a, t.members);
      }
      ByRankOnlyIs(a, covering[1..]);
    }
  }

  lemma {:induction false} ChosenIsRouted(p: Proxy, roles: seq<Tier>, a: Ask, calls: seq<Step>)
    ensures Routed(p, roles, a, calls, Choose(a, Covering(p, Sorted(roles), calls)))
  {
    var covering := Covering(p, Sorted(roles), calls);
    SortSorts(roles, RankLeq);
    CoveringIs(p, Sorted(roles), calls);
    assert forall t :: t in Sorted(roles) <==> t in roles by {
      assert forall t :: t in Sorted(roles) <==> t in multiset(Sorted(roles));
      assert forall t :: t in roles <==> t in multiset(roles);
    }
    assert forall t :: t in covering <==> Candidate(p, roles, calls, t);
    ByTagIs(a, covering);
    ByRankOnlyIs(a, covering);
  }

  /** A route comes back exactly when some tier that covers the calls has somebody who may answer. */
  lemma {:induction false} RouteExactly(p: Proxy, ts: seq<Tier>, a: Ask, calls: seq<Step>, r: Route)
    requires Routed(p, ts, a, calls, r)
    ensures r.To? <==> exists t :: Candidate(p, ts, calls, t) && HasAnswerable(a, t)
  {
    if r.To? {
      var id := r.ids[0];
      assert id in r.ids;
      var i :| 0 <= i < |r.tier.members| && r.tier.members[i] == id;
      assert HasAnswerable(a, r.tier);
    }
  }

  // ---- what text can do to a route ----

  /** An id no covering tier's answerable members include, written anywhere in the message, changes
      neither the tier nor who is asked. */
  lemma {:induction false} StrayTagChangesNothing(a: Ask, covering: seq<Tier>, i: nat, x: string)
    requires i <= |a.tagged| && forall t :: t in covering ==> x !in t.members || !Answerable(a, x)
    ensures Choose(a.(tagged := InsertAt(a.tagged, i, x)), covering) == Choose(a, covering)
  {
    var b := a.(tagged := InsertAt(a.tagged, i, x));
    SameByTag(a, b, covering, i, x);
    SameByRank(a, b, covering);
  }

  lemma {:induction false} SameFirstTagged(a: Ask, b: Ask, tagged: seq<string>, i: nat, x: string, t: Tier)
    requires a.user == b.user && a.selfApprove == b.selfApprove && i <= |tagged| &&
      (x !in t.members || !Answerable(a, x))
    ensures FirstTagged(b, InsertAt(tagged, i, x), t) == FirstTagged(a, tagged, t)
    decreases |tagged|
  {
    var more := InsertAt(tagged, i, x);
    if i == 0 {
      assert more[1..] == tagged;
      SameAsk(a, b, tagged, t);
    } else {
      assert more[1..] == InsertAt(tagged[1..], i - 1, x);
      SameFirstTagged(a, b, tagged[1..], i - 1, x, t);
    }
  }

  lemma {:induction false} SameAsk(a: Ask, b: Ask, tagged: seq<string>, t: Tier)
    requires a.user == b.user && a.selfApprove == b.selfApprove
    ensures FirstTagged(b, tagged, t) == FirstTagged(a, tagged, t)
  {
    if tagged != [] {
      SameAsk(a, b, tagged[1..], t);
    }
  }

  lemma {:induction false} SameByTag(a: Ask, b: Ask, covering: seq<Tier>, i: nat, x: string)
    requires i <= |a.tagged| && b == a.(tagged := InsertAt(a.tagged, i, x))
    requires forall t :: t in covering ==> x !in t.members || !Answerable(a, x)
    ensures ByTag(b, covering) == ByTag(a, covering)
  {
    if covering != [] {
      SameFirstTagged(a, b, a.tagged, i, x, covering[0]);
      SameByTag(a, b, covering[1..], i, x);
    }
  }

  lemma {:induction false} SameAnswerable(a: Ask, b: Ask, members: seq<string>)
    requires a.user == b.user && a.selfApprove == b.selfApprove
    ensures AnswerableOf(b, members) == AnswerableOf(a, members)
  {
    if members != [] {
      SameAnswerable(a, b, members[..|members| - 1]);
    }
  }

  lemma {:induction false} SameByRank(a: Ask, b: Ask, covering: seq<Tier>)
    requires a.user == b.user && a.selfApprove == b.selfApprove
    ensures ByRankOnly(b, covering) == ByRankOnly(a, covering)
  {
    if covering != [] {
      SameAnswerable(a, b, covering[0].members);
      SameByRank(a, b, covering[1..]);
    }
  }
}
