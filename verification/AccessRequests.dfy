/** One access request under everything that can happen to it at once: approvers pressing, denying from a card
    or the console, the requester withdrawing, the expiry sweep, cards that could not be delivered, and the
    replay of an approved plan, interleaved in any order. */
module AccessRequests {
  import opened Lists
  import opened GrantReplay
  import opened Approvers
  import opened Orders

  datatype Status = Pending | Approved | Denied | Cancelled | Expired | Failed | Executed

  /** The part of a request that never changes: its asker and workspace, the people it was sent to, its expiry,
      and the number of calls in its plan. */
  datatype Request = Request(requester: string, team: string, approvers: seq<string>, expires: int, calls: nat)

  datatype Row = Row(status: Status, decidedBy: Option<string>, selfApproved: bool)

  // ---- who may answer ----

  datatype Account = Account(deleted: bool, bot: bool, restricted: bool, team: string)

  /** A press and what it finds: the bot's own user, the workspace it came through, whether self-approval is
      on, the rank of the person's approval role (below 0 for none), the rank of the request's tier if there
      still is one, and the account as the workspace has it now. */
  datatype Press = Press(who: string, botUser: string, team: string, selfAllowed: bool, rank: int,
                         tierRank: Option<int>, account: Option<Account>)

  /** The part of the test that is about approval roles. */
  predicate Ranks(p: Press, req: Request) {
    && p.rank >= 0
    && (p.tierRank.Some? ==> p.rank >= p.tierRank.value)
    && (req.approvers == [] || p.who in req.approvers || p.rank != 0)
  }

  predicate MayApprove(p: Press, req: Request) {
    && p.who != "" && p.who != p.botUser
    && (req.team == "" || p.team == "" || req.team == p.team)
    && (p.who == req.requester ==> p.selfAllowed)
    && Ranks(p, req)
    && p.account.Some?
    && var a := p.account.value;
       !a.deleted && !a.bot && !a.restricted && (a.team == "" || p.team == "" || a.team == p.team)
  }

  /** A press by one of those a request was routed to, while the tiers are what they were then. */
  ghost predicate Asked(p: Press, req: Request, roles: seq<Tier>, r: Route) {
    && r.To? && req.approvers == r.ids && p.who in r.ids
    && p.tierRank == Some(r.tier.rank) && IsRank(roles, p.who, p.rank)
  }

  /** Whoever a request is sent to passes these tests exactly when they are in some tier of rank 0 or more:
      always, if the tier it was sent to is one. */
  lemma {:induction false} AskedPassExactly(x: Proxy, roles: seq<Tier>, a: Ask, calls: seq<Step>, r: Route, p: Press,
                                            req: Request)
    requires Routed(x, roles, a, calls, r) && Asked(p, req, roles, r)
    ensures Ranks(p, req) <==> exists t :: t in roles && p.who in t.members && t.rank >= 0
    ensures r.tier.rank >= 0 ==> Ranks(p, req)
  {
    assert r.tier in roles && p.who in r.tier.members;
  }

  /** A tier may be stored with a negative rank, and a request sent to its members, none of whom may answer. */
  lemma {:induction false} AskedInVain(x: Proxy, calls: seq<Step>)
    requires forall i :: 0 <= i < |calls| ==> Reaches(x, Tier(1, -1, ["U1"], [], 1), calls[i])
    ensures var t := Tier(1, -1, ["U1"], [], 1);
            var r, req := To(t, ["U1"]), Request("U2", "", ["U1"], 1, |calls|);
            && Routed(x, [t], Ask("U2", [], false), calls, r) &&
                 Choose(Ask("U2", [], false), Covering(x, Sorted([t]), calls)) == r
            && forall p :: Asked(p, req, [t], r) ==> !MayApprove(p, req)
  {
    var t, a := Tier(1, -1, ["U1"], [], 1), Ask("U2", [], false);
    assert Sorted([t]) == [t] by {
      SortSorts([t], RankLeq);
      assert multiset(Sorted([t])) == multiset{t};
      assert |Sorted([t])| == |multiset(Sorted([t]))| && Sorted([t])[0] in multiset(Sorted([t]));
    }
    assert [t][..0] == [] && ["U1"][..0] == [];
    assert CoversAll(x, t, calls);
    assert Covering(x, [t], calls) == [t];
    assert AnswerableOf(a, ["U1"]) == ["U1"];
    assert ByTag(a, [t]) == NoRoute;
    ChosenIsRouted(x, [t], a, calls);
  }

  // ---- the stored row ----

  predicate CanTake(row: Row, req: Request, who: string, now: int, allowSelf: bool) {
    row.status == Pending && req.expires > now && (allowSelf || req.requester != who)
  }

  /** What each of the store's statements makes of the row: all but the last are guarded by the status they
      expect. */
  function TakenRow(row: Row, req: Request, who: string, now: int, allowSelf: bool): Row {
    if CanTake(row, req, who, now, allowSelf) then Row(Approved, Some(who), allowSelf) else row
  }

  function DeniedRow(row: Row, who: string): Row {
    if row.status == Pending then row.(status := Denied, decidedBy := Some(who)) else row
  }

  function ClaimedRow(row: Row, status: Status): Row {
    if row.status == Pending then row.(status := status) else row
  }

  function FinishedRow(row: Row, status: Status): Row { row.(status := status) }

  class AccessRow {
    const req: Request
    var row: Row

    constructor (req: Request)
      ensures this.req == req && row == Row(Pending, None, false)
    {
      this.req, row := req, Row(Pending, None, false);
    }

    method Take(who: string, now: int, allowSelf: bool) returns (taken: bool)
      modifies this
      ensures taken <==> CanTake(old(row), req, who, now, allowSelf)
      ensures row == TakenRow(old(row), req, who, now, allowSelf)
    {
      taken := row.status == Pending && req.expires > now;
      if !allowSelf {
        taken := taken && req.requester != who;
      }
      if taken {
        row := Row(Approved, Some(who), allowSelf);
      }
    }

    method Deny(who: string) returns (denied: bool)
      modifies this
      ensures denied <==> old(row).status == Pending
      ensures row == DeniedRow(old(row), who)
    {
      denied := row.status == Pending;
      if denied {
        row := row.(status := Denied, decidedBy := Some(who));
      }
    }

    method Claim(status: Status) returns (moved: bool)
      modifies this
      ensures moved <==> old(row).status == Pending
      ensures row == ClaimedRow(old(row), status)
    {
      moved := row.status == Pending;
      if moved {
        row := row.(status := status);
      }
    }

    method Finish(status: Status)
      modifies this
      ensures row == FinishedRow(old(row), status)
    {
      row := row.(status := status);
    }
  }

  // ---- the protocol ----

  datatype Settlement = Took(press: Press, at: int) | DeniedBy(who: string) | Withdrawn | RanOut

  /** How far a grant has come: its checks, its replay after so many calls that went through, the word on its
      end not yet written, or written. */
  datatype Stage = Checking | Replaying(done: nat) | Reporting(ok: bool) | Over(ok: bool)

  datatype Grant = Grant(who: string, stage: Stage)

  datatype Tried = Tried(call: nat, ok: bool)

  /** The row, the clock, every settlement that took effect, every grant started, every call attempted, and
      whether the request was ever given up because no card could be delivered. */
  datatype System = System(row: Row, now: int, settled: seq<Settlement>, grants: seq<Grant>, log: seq<Tried>,
    lost: bool)

  datatype Event =
    | Tick(elapsed: nat)
    | PressApprove(press: Press, selfNow: bool)
    | PressDeny(press: Press)
    | ConsoleDeny(who: string)
    | Withdraw(who: string)
    | Sweep
    | CardsUndelivered
    | Check(grant: nat, ok: bool)
    | RunCall(grant: nat, end: End)
    | Report(grant: nat)

  function Start(now: int): System { System(Row(Pending, None, false), now, [], [], [], false) }

  function DenySystem(s: System, who: string): System {
    if s.row.status != Pending then s
    else s.(row := DeniedRow(s.row, who), settled := s.settled + [DeniedBy(who)])
  }

  function ClaimSystem(s: System, status: Status, how: Settlement): System {
    if s.row.status != Pending then s else s.(row := ClaimedRow(s.row, status), settled := s.settled + [how])
  }

  function TakeSystem(s: System, req: Request, press: Press, allowSelf: bool): System {
    if !CanTake(s.row, req, press.who, s.now, allowSelf) then s
    else
      s.(row := TakenRow(s.row, req, press.who, s.now, allowSelf), settled := s.settled + [Took(press, s.now)],
         grants := s.grants + [Grant(press.who, Checking)])
  }

  function Restage(s: System, g: nat, stage: Stage): System
    requires g < |s.grants|
  {
    s.(grants := s.grants[g := s.grants[g].(stage := stage)])
  }

  /** One call of a replay, or the notice that there is none left. */
  function RunSystem(s: System, req: Request, g: nat, end: End): System
    requires g < |s.grants| && s.grants[g].stage.Replaying?
  {
    var done := s.grants[g].stage.done;
    if done >= req.calls then Restage(s, g, Reporting(true))
    else if end == Went then Restage(s, g, Replaying(done + 1)).(log := s.log + [Tried(done, true)])
    else if end == Errored || end.BadStatus? then Restage(s, g, Reporting(false)).(log := s.log + [Tried(done, false)])
    else Restage(s, g, Reporting(false))
  }

  /** What an event does; one that finds nothing to do does nothing. */
  function Next(s: System, req: Request, e: Event): System {
    match e
    case Tick(elapsed) => s.(now := s.now + elapsed)
    case PressApprove(press, selfNow) =>
      if MayApprove(press, req) then TakeSystem(s, req, press, selfNow && press.who == req.requester) else s
    case PressDeny(press) => if MayApprove(press, req) then DenySystem(s, press.who) else s
    case ConsoleDeny(who) => DenySystem(s, who)
    case Withdraw(who) => if who == req.requester then ClaimSystem(s, Cancelled, Withdrawn) else s
    case Sweep => if req.expires <= s.now then ClaimSystem(s, Expired, RanOut) else s
    case CardsUndelivered => s.(row := FinishedRow(s.row, Failed), lost := true)
    case Check(g, ok) =>
      if g < |s.grants| && s.grants[g].stage.Checking? then Restage(s, g, if ok then Replaying(0) else Reporting(false))
      else s
    case RunCall(g, end) => if g < |s.grants| && s.grants[g].stage.Replaying? then RunSystem(s, req, g, end) else s
    case Report(g) =>
      if g < |s.grants| && s.grants[g].stage.Reporting? then
        var ok := s.grants[g].stage.ok;
        Restage(s, g, Over(ok)).(row := FinishedRow(s.row, if ok then Executed else Failed))
      else s
  }

  function Run(s: System, req: Request, es: seq<Event>): System
    decreases |es|
  {
    if es == [] then s else Run(Next(s, req, es[0]), req, es[1..])
  }

  // ---- what every interleaving keeps ----

  /** The calls attempted are the first ones of the plan, in order, and all but the last went through. */
  predicate Orderly(log: seq<Tried>, calls: nat) {
    && |log| <= calls
    && (forall i :: 0 <= i < |log| ==> log[i].call == i)
    && (forall i :: 0 <= i < |log| - 1 ==> log[i].ok)
  }

  predicate AllThrough(log: seq<Tried>, n: nat) { |log| == n && forall i :: 0 <= i < n ==> log[i] == Tried(i, true) }

  predicate EndFits(ok: bool, log: seq<Tried>, calls: nat) {
    if ok then AllThrough(log, calls) else calls == 0 || !AllThrough(log, calls)
  }

  predicate StageFits(stage: Stage, log: seq<Tried>, calls: nat) {
    match stage
    case Checking => log == []
    case Replaying(done) => done <= calls && AllThrough(log, done)
    case Reporting(ok) => Orderly(log, calls) && EndFits(ok, log, calls)
    case Over(ok) => Orderly(log, calls) && EndFits(ok, log, calls)
  }

  /** The status that what happened calls for. */
  function Due(s: System): Status
    requires s.settled != [] && s.settled[0].Took? ==> s.grants != []
  {
    if s.settled == [] then Pending
    else
      match s.settled[0]
      case Took(_, _) =>
        if !s.grants[0].stage.Over? then Approved else if s.grants[0].stage.ok then Executed else Failed
      case DeniedBy(_) => Denied
      case Withdrawn => Cancelled
      case RanOut => Expired
  }

  predicate TakenFits(s: System, req: Request)
    requires s.settled != [] && s.settled[0].Took?
  {
    var press := s.settled[0].press;
    && MayApprove(press, req) && s.settled[0].at < req.expires
    && s.row.decidedBy == Some(press.who) && s.row.selfApproved == (press.who == req.requester)
    && |s.grants| == 1 && s.grants[0].who == press.who
    && StageFits(s.grants[0].stage, s.log, req.calls)
  }

  predicate Sound(s: System, req: Request) {
    && |s.settled| <= 1
    && (s.settled != [] && s.settled[0].Took? ==> TakenFits(s, req))
    && (s.settled == [] || !s.settled[0].Took? ==> s.grants == [] && s.log == [] && !s.row.selfApproved)
    && (s.settled != [] && s.settled[0].DeniedBy? ==> s.row.decidedBy == Some(s.settled[0].who))
    && (s.settled != [] && s.settled[0].RanOut? ==> req.expires <= s.now)
    && (s.row.status == Due(s) || (s.lost && s.row.status == Failed))
  }

  lemma {:induction false} CallSound(s: System, req: Request, end: End)
    requires Sound(s, req) && s.grants != [] && s.grants[0].stage.Replaying?
    ensures Sound(RunSystem(s, req, 0, end), req)
  {
    var next := RunSystem(s, req, 0, end);
    var done := s.grants[0].stage.done;
    if |next.log| > done {
      assert next.log[done] == Tried(done, end == Went);
    }
    assert StageFits(next.grants[0].stage, next.log, req.calls);
  }

  lemma {:induction false} NextSound(s: System, req: Request, e: Event)
    requires Sound(s, req)
    ensures Sound(Next(s, req, e), req)
  {
    if e.RunCall? && e.grant < |s.grants| && s.grants[e.grant].stage.Replaying? {
      CallSound(s, req, e.end);
    }
  }

  lemma {:induction false} RunSound(s: System, req: Request, es: seq<Event>)
    requires Sound(s, req)
    ensures Sound(Run(s, req, es), req)
    decreases |es|
  {
    if es != [] {
      NextSound(s, req, es[0]);
      RunSound(Next(s, req, es[0]), req, es[1..]);
    }
  }

  /** However presses, denials, withdrawals, sweeps, undelivered cards and the grant's own steps interleave: at
      most one of them settles the request and at most one replay is started; calls run only for the approver
      who took it, who was let to and took it in time; they run in the plan's order with nothing after one that
      did not go through; whoever asked is the one who approved only if the row says so; and a request that
      reads executed ran its whole plan. */
  lemma {:induction false} EveryInterleavingIsSafe(req: Request, now: int, es: seq<Event>)
    ensures var s := Run(Start(now), req, es);
            && |s.settled| <= 1 && |s.grants| <= 1
            && Orderly(s.log, req.calls)
            && (s.grants != [] || s.log != [] ==>
                  && |s.settled| == 1 && s.settled[0].Took? && s.settled[0].at < req.expires
                  && MayApprove(s.settled[0].press, req) && s.row.decidedBy == Some(s.settled[0].press.who))
            && (s.row.decidedBy == Some(req.requester) && s.grants != [] ==> s.row.selfApproved)
            && (s.row.status == Executed ==> AllThrough(s.log, req.calls))
  {
    RunSound(Start(now), req, es);
  }

  /** A settlement stands, and what has been attempted is never taken back: both only grow. */
  lemma {:induction false} HistoryGrows(s: System, req: Request, es: seq<Event>)
    ensures s.settled <= Run(s, req, es).settled && s.log <= Run(s, req, es).log
    decreases |es|
  {
    if es != [] {
      var next := Next(s, req, es[0]);
      assert s.settled <= next.settled && s.log <= next.log;
      HistoryGrows(next, req, es[1..]);
    }
  }

  /** Once a call has not gone through, nothing is attempted any more; once a request has been denied,
      withdrawn or has run out, nothing ever is. */
  lemma {:induction false} NothingAfter(s: System, req: Request, es: seq<Event>)
    requires Sound(s, req)
    requires (s.log != [] && !s.log[|s.log| - 1].ok) || (s.settled != [] && !s.settled[0].Took?)
    ensures Run(s, req, es).log == s.log
  {
    RunSound(s, req, es);
    HistoryGrows(s, req, es);
    var end := Run(s, req, es);
    if s.log != [] && !s.log[|s.log| - 1].ok {
      assert end.log[|s.log| - 1] == s.log[|s.log| - 1];
    } else {
      assert end.settled[0] == s.settled[0];
    }
  }

  /** A request that was answered without being taken keeps that answer exactly when it is not given up
      later as undeliverable: that write asks for no status. */
  lemma {:induction false} AnswerStandsExactly(s: System, req: Request, es: seq<Event>)
    requires Sound(s, req) && s.settled != [] && !s.settled[0].Took? && s.row.status == Due(s)
    ensures Run(s, req, es).row.status == s.row.status <==> forall i :: 0 <= i < |es| ==> !es[i].CardsUndelivered?
    decreases |es|
  {
    if es != [] {
      var next := Next(s, req, es[0]);
      NextSound(s, req, es[0]);
      if es[0].CardsUndelivered? {
        StaysFailed(next, req, es[1..]);
      } else {
        assert next.row == s.row && next.settled == s.settled;
        AnswerStandsExactly(next, req, es[1..]);
        assert forall i :: 0 <= i < |es[1..]| ==> es[1..][i] == es[i + 1];
      }
    }
  }

  lemma {:induction false} StaysFailed(s: System, req: Request, es: seq<Event>)
    requires s.grants == [] && s.row.status == Failed
    ensures Run(s, req, es).row.status == Failed
    decreases |es|
  {
    if es != [] {
      StaysFailed(Next(s, req, es[0]), req, es[1..]);
    }
  }

  // ---- the replay inside the protocol ----

  /** The events of a grant replaying its calls from the k-th on, and noticing the end. */
  function Drive(w: World, calls: seq<GrantStep>, k: nat): seq<Event>
    requires k <= |calls|
    decreases |calls| - k
  {
    if k == |calls| then [RunCall(0, Went)] else [RunCall(0, StepEnd(w, k, calls[k]))] + Drive(w, calls, k + 1)
  }

  lemma {:induction false} DriveStops(s: System, req: Request, w: World, calls: seq<GrantStep>, k: nat)
    requires k <= |calls| && s.grants != [] && !s.grants[0].stage.Replaying?
    ensures Run(s, req, Drive(w, calls, k)) == s
    decreases |calls| - k
  {
    if k < |calls| {
      var es := Drive(w, calls, k);
      assert es[1..] == Drive(w, calls, k + 1);
      DriveStops(s, req, w, calls, k + 1);
    }
  }

  /** A replay run as the protocol's events ends as the replay does: well exactly when every call went. */
  lemma {:induction false} DriveIsReplay(s: System, req: Request, w: World, calls: seq<GrantStep>, k: nat)
    requires k <= |calls| == req.calls && s.grants != [] && s.grants[0].stage == Replaying(k) && AllWent(w, calls, k)
    ensures var end := Run(s, req, Drive(w, calls, k));
            end.grants != [] && end.grants[0].stage == Reporting(AllWent(w, calls, |calls|))
    decreases |calls| - k
  {
    var es := Drive(w, calls, k);
    var next := Next(s, req, es[0]);
    if k == |calls| {
      assert Run(s, req, es) == next;
    } else {
      var end := StepEnd(w, k, calls[k]);
      assert es[0] == RunCall(0, end) && es[1..] == Drive(w, calls, k + 1);
      DriveNext(s, req, end, k);
      WentOn(w, calls, k);
      if end == Went {
        DriveIsReplay(next, req, w, calls, k + 1);
      } else {
        DriveStops(next, req, w, calls, k + 1);
      }
    }
  }

  lemma DriveNext(s: System, req: Request, end: End, k: nat)
    requires k < req.calls && s.grants != [] && s.grants[0].stage == Replaying(k)
    ensures var next := Next(s, req, RunCall(0, end));
            next.grants != [] && next.grants[0].stage == if end == Went then Replaying(k + 1) else Reporting(false)
  {
  }

  lemma WentOn(w: World, calls: seq<GrantStep>, k: nat)
    requires k < |calls| && AllWent(w, calls, k)
    ensures StepEnd(w, k, calls[k]) == Went ==> AllWent(w, calls, k + 1)
    ensures StepEnd(w, k, calls[k]) != Went ==> !AllWent(w, calls, |calls|)
  {
  }
}
