/** The sign-in lockout: failures counted per key, a lock once there are too many, and a sweep that keeps
    the table small. */
module LoginFails {
  import opened Lists
  import opened Times

  const LOGIN_MAX_FAILS := 8
  const SECOND := 1_000_000_000
  const LOGIN_WINDOW := 15 * 60 * SECOND
  const LOGIN_LOCKOUT := 15 * 60 * SECOND
  const SWEEP_OVER := 10000

  /** A run of failures: how many since first, and until when the key is locked out, if it was. */
  datatype FailRun = FailRun(n: nat, first: int, until: Option<int>)

  predicate LockedAt(f: Option<FailRun>, now: int) { f.Some? && f.value.until.Some? && f.value.until.value > now }

  /** The run a failure at now adds to: the one there is, or a new one. */
  function RunAt(f: Option<FailRun>, now: int): FailRun {
    if f.None? || now - f.value.first > LOGIN_WINDOW then FailRun(0, now, None) else f.value
  }

  function Failed(f: Option<FailRun>, now: int): FailRun {
    var run := RunAt(f, now);
    if run.n + 1 >= LOGIN_MAX_FAILS then FailRun(0, now, Some(now + LOGIN_LOCKOUT)) else run.(n := run.n + 1)
  }

  /** A run the sweep may drop: its window is over and it locks nothing. */
  predicate Dead(f: FailRun, now: int) { now - f.first > LOGIN_WINDOW && (f.until.None? || f.until.value <= now) }

  type Table = map<string, FailRun>

  function Find(at: Table, key: string): Option<FailRun> { if key in at then Some(at[key]) else None }

  function Swept(at: Table, now: int): Table { map k | k in at && !Dead(at[k], now) :: at[k] }

  /** The table after a failure, with the sweep and without it. */
  function AfterFail(at: Table, key: string, now: int): Table {
    var kept := if |at| > SWEEP_OVER then Swept(at, now) else at;
    kept[key := Failed(Find(kept, key), now)]
  }

  function AfterFailUnswept(at: Table, key: string, now: int): Table { at[key := Failed(Find(at, key), now)] }

  function Without(at: Table, keys: seq<string>): Table { map k | k in at && k !in keys :: at[k] }

  class Fails {
    var at: Table

    constructor ()
      ensures at == map[]
    {
      at := map[];
    }

    method Locked(key: string, now: int) returns (left: int, locked: bool)
      ensures locked <==> LockedAt(Find(at, key), now)
      ensures locked ==> left > 0 && at[key].until == Some(now + left)
      ensures !locked ==> left == 0
    {
      if key !in at {
        return 0, false;
      }
      var f := at[key];
      if f.until.Some? {
        var d := f.until.value - now;
        if d > 0 {
          return d, true;
        }
      }
      return 0, false;
    }

    method Sweep(now: int)
      modifies this
      ensures at == Swept(old(at), now)
    {
      ghost var was := at;
      var keys := at.Keys;
      while keys != {}
        invariant keys <= at.Keys <= was.Keys
        invariant forall k :: k in was && k !in keys ==> (k in at <==> !Dead(was[k], now))
        invariant forall k :: k in at ==> at[k] == was[k]
        decreases keys
      {
        var k :| k in keys;
        keys := keys - {k};
        if Dead(at[k], now) {
          at := at - {k};
        }
      }
    }

    method Fail(key: string, now: int)
      modifies this
      ensures at == AfterFail(old(at), key, now)
    {
      if |at| > SWEEP_OVER {
        Sweep(now);
      }
      var f := if key in at && now - at[key].first <= LOGIN_WINDOW then at[key] else FailRun(0, now, None);
      f := f.(n := f.n + 1);
      if f.n >= LOGIN_MAX_FAILS {
        f := FailRun(0, now, Some(now + LOGIN_LOCKOUT));
      }
      at := at[key := f];
    }

    method Reset(keys: seq<string>)
      modifies this
      ensures at == Without(old(at), keys)
    {
      ghost var was := at;
      for i := 0 to |keys|
        invariant at == Without(was, keys[..i])
      {
        at := at - {keys[i]};
        assert keys[..i + 1] == keys[..i] + [keys[i]];
      }
      assert keys[..|keys|] == keys;
    }
  }

  // ---- the lockout bound ----

  /** One key's record and the moments its failures got through. */
  datatype Watch = Watch(run: Option<FailRun>, through: seq<int>)

  /** An attempt made as every caller makes one: refused if the key is locked, a failure otherwise. */
  function Attempt(w: Watch, now: int): Watch {
    if LockedAt(w.run, now) then w else Watch(Some(Failed(w.run, now)), w.through + [now])
  }

  function Attempts(times: seq<int>): Watch {
    if times == [] then Watch(None, []) else Attempt(Attempts(times[..|times| - 1]), times[|times| - 1])
  }

  /** Failures later than this and before the run's next are of this run or of the one before it. */
  function Reach(f: FailRun): int { if f.until.None? then f.first - LOGIN_WINDOW else f.first }

  ghost predicate Recent(h: seq<int>, f: FailRun) {
    && (forall x :: x > f.first ==> AtLeast(h, x) <= f.n)
    && (forall x :: x > Reach(f) ==> AtLeast(h, x) <= f.n + LOGIN_MAX_FAILS - 1)
  }

  ghost predicate Bounded(w: Watch, now: int) {
    && (forall i :: 0 <= i < |w.through| ==> w.through[i] <= now)
    && (forall t :: During(w.through, t, LOGIN_WINDOW) <= 2 * LOGIN_MAX_FAILS - 1)
    && (w.run.None? ==> w.through == [])
    && (w.run.Some? ==> w.run.value.first <= now && Set(w.run.value) && Recent(w.through, w.run.value))
  }

  lemma {:induction false} FirstRecent(t: int)
    ensures Recent([t], Failed(None, t))
    ensures forall x :: During([t], x, LOGIN_WINDOW) <= 1
  {
    forall x
      ensures AtLeast([t], x) == if t >= x then 1 else 0
      ensures During([t], x, LOGIN_WINDOW) <= 1
    {
      Snoc([], t, x, LOGIN_WINDOW);
      assert [] + [t] == [t];
    }
  }

  lemma {:induction false} FailedRecent(h: seq<int>, f: FailRun, t: int)
    requires (forall i :: 0 <= i < |h| ==> h[i] <= t) && f.first <= t
    requires Set(f) && Recent(h, f)
    ensures Recent(h + [t], Failed(Some(f), t))
  {
    var next := Failed(Some(f), t);
    forall x
      ensures x > next.first ==> AtLeast(h + [t], x) <= next.n
      ensures x > Reach(next) ==> AtLeast(h + [t], x) <= next.n + LOGIN_MAX_FAILS - 1
    {
      Snoc(h, t, x, 0);
      if x > t {
        NoneAtLeast(h, x);
      }
    }
  }

  /** A failure that gets through lands where the run and the one before it leave it room. */
  lemma {:induction false} FailedSpaced(h: seq<int>, f: FailRun, t: int, from: int)
    requires f.first <= t && Set(f) && Recent(h, f) && !LockedAt(Some(f), t)
    requires During(h, from, LOGIN_WINDOW) <= 2 * LOGIN_MAX_FAILS - 1
    ensures During(h + [t], from, LOGIN_WINDOW) <= 2 * LOGIN_MAX_FAILS - 1
  {
    DuringSnoc(h, t, from, LOGIN_WINDOW);
    Snoc(h, t, from, LOGIN_WINDOW);
    if from <= t < from + LOGIN_WINDOW {
      assert AtLeast(h, from) <= f.n + LOGIN_MAX_FAILS - 1;
    }
  }

  lemma {:induction false} ThroughBounded(h: seq<int>, f: FailRun, now: int, t: int)
    requires Bounded(Watch(Some(f), h), now) && now <= t && !LockedAt(Some(f), t)
    ensures Bounded(Watch(Some(Failed(Some(f), t)), h + [t]), t)
  {
    FailedRecent(h, f, t);
    forall s
      ensures During(h + [t], s, LOGIN_WINDOW) <= 2 * LOGIN_MAX_FAILS - 1
    {
      FailedSpaced(h, f, t, s);
    }
  }

  lemma {:induction false} AttemptBounded(w: Watch, now: int, t: int)
    requires Bounded(w, now) && now <= t
    ensures Bounded(Attempt(w, t), t)
  {
    match w.run {
      case None =>
        FirstRecent(t);
        assert Attempt(w, t) == Watch(Some(Failed(None, t)), [t]);
      case Some(f) =>
        if !LockedAt(Some(f), t) {
          ThroughBounded(w.through, f, now, t);
        }
    }
  }

  lemma {:induction false} AttemptsBounded(times: seq<int>, now: int)
    requires Rising(times) && (times == [] || times[|times| - 1] <= now)
    ensures Bounded(Attempts(times), now)
  {
    if times != [] {
      var last := times[|times| - 1];
      AttemptsBounded(times[..|times| - 1], last);
      AttemptBounded(Attempts(times[..|times| - 1]), last, last);
    }
  }

  lemma {:induction false} OneKeyBound(times: seq<int>, from: int)
    requires Rising(times)
    ensures During(Attempts(times).through, from, LOGIN_WINDOW) <= 15
  {
    if times == [] {
      AttemptsBounded(times, 0);
    } else {
      AttemptsBounded(times, times[|times| - 1]);
    }
  }

  lemma AttemptStep(times: seq<int>, t: int)
    ensures Attempts(times + [t]) == Attempt(Attempts(times), t)
  {
    assert (times + [t])[..|times|] == times;
  }

  /** A burst on a key that is open, up to the lock, all gets through. */
  lemma {:induction false} BurstThrough(times: seq<int>, t: int, k: nat)
    requires k > 0 && RunAt(Attempts(times).run, t).n + k <= LOGIN_MAX_FAILS
    requires !LockedAt(Attempts(times).run, t) && !LockedAt(Some(RunAt(Attempts(times).run, t)), t)
    ensures Attempts(times + Burst(t, k)).through == Attempts(times).through + Burst(t, k)
    ensures var f := RunAt(Attempts(times).run, t);
            Attempts(times + Burst(t, k)).run ==
              Some(if f.n + k == LOGIN_MAX_FAILS then FailRun(0, t, Some(t + LOGIN_LOCKOUT)) else f.(n := f.n + k))
  {
    AttemptStep(times + Burst(t, k - 1), t);
    assert times + Burst(t, k) == (times + Burst(t, k - 1)) + [t];
    if k == 1 {
      assert times + Burst(t, 0) == times;
      assert Burst(t, 1) == [t];
    } else {
      BurstThrough(times, t, k - 1);
      assert Attempts(times).through + Burst(t, k) == Attempts(times).through + Burst(t, k - 1) + [t];
    }
  }

  lemma {:induction false} FifteenBetween(w: int)
    requires w > 1
    ensures During([] + Burst(0, 8) + Burst(w, 7) + Burst(w + 1, 8), w, w) == 15
  {
    DuringBurst([], 0, 8, w, w);
    DuringBurst([] + Burst(0, 8), w, 7, w, w);
    DuringBurst([] + Burst(0, 8) + Burst(w, 7), w + 1, 8, w, w);
  }

  lemma {:induction false} OneKeyBoundIsMet() returns (times: seq<int>)
    ensures Rising(times) && During(Attempts(times).through, LOGIN_WINDOW, LOGIN_WINDOW) == 15
  {
    var w := LOGIN_WINDOW;
    var a := [] + Burst(0, 8);
    var b := a + Burst(w, 7);
    times := b + Burst(w + 1, 8);
    BurstThrough([], 0, 8);
    BurstThrough(a, w, 7);
    BurstThrough(b, w + 1, 8);
    assert Attempts(times).through == times;
    FifteenBetween(w);
  }

  // ---- the bound over the table ----

  /** What happens to the table: an attempt on a key, which fails if it is let through, or keys forgotten. */
  datatype Deed = Try(key: string, now: int) | Forget(keys: seq<string>)

  function After(at: Table, d: Deed): Table {
    match d
    case Try(key, now) => if LockedAt(Find(at, key), now) then at else AfterFail(at, key, now)
    case Forget(keys) => Without(at, keys)
  }

  function TableAfter(at: Table, ds: seq<Deed>): Table {
    if ds == [] then at else After(TableAfter(at, ds[..|ds| - 1]), ds[|ds| - 1])
  }

  /** When the attempts on a key were made, and when those that got through were. */
  function TriesAt(ds: seq<Deed>, key: string): seq<int> {
    if ds == [] then []
    else
      var n := |ds| - 1;
      TriesAt(ds[..n], key) + if ds[n].Try? && ds[n].key == key then [ds[n].now] else []
  }

  function ThroughAt(at: Table, ds: seq<Deed>, key: string): seq<int> {
    if ds == [] then []
    else
      var n := |ds| - 1;
      var was := ThroughAt(at, ds[..n], key);
      if ds[n].Try? && ds[n].key == key && !LockedAt(Find(TableAfter(at, ds[..n]), key), ds[n].now)
        then was + [ds[n].now] else was
  }

  /** The attempts are in the order of their times, and key is not forgotten. */
  ghost predicate Ordered(ds: seq<Deed>, key: string) {
    && (forall i, j :: 0 <= i < j < |ds| && ds[i].Try? && ds[j].Try? ==> ds[i].now <= ds[j].now)
    && forall i :: 0 <= i < |ds| && ds[i].Forget? ==> key !in ds[i].keys
  }

  /** The run a table holds of a key, but that the sweep may have dropped one that is dead by now. */
  predicate Holding(at: Table, key: string, run: Option<FailRun>, now: int) {
    Find(at, key) == run || (key !in at && run.Some? && Dead(run.value, now))
  }

  lemma {:induction false} DeedHolds(at: Table, d: Deed, key: string, run: Option<FailRun>, now: int)
    requires Holding(at, key, run, now) && (if d.Try? then now == d.now else key !in d.keys)
    ensures d.Try? && d.key == key ==> (LockedAt(Find(at, key), d.now) <==> LockedAt(run, d.now))
    ensures Holding(After(at, d), key, if d.Try? && d.key == key then Attempt(Watch(run, []), now).run else run, now)
  {
    if d.Try? {
      var kept := if |at| > SWEEP_OVER then Swept(at, d.now) else at;
      assert Holding(kept, key, run, d.now);
    }
  }

  /** By now: no attempt is later. */
  ghost predicate By(ds: seq<Deed>, now: int) { forall i :: 0 <= i < |ds| && ds[i].Try? ==> ds[i].now <= now }

  function Before(d: Deed, now: int): int { if d.Try? then d.now else now }

  lemma {:induction false} FrontOrdered(ds: seq<Deed>, key: string, now: int)
    requires ds != [] && Ordered(ds, key) && By(ds, now)
    ensures var n := |ds| - 1;
            && Ordered(ds[..n], key) && By(ds[..n], Before(ds[n], now)) && Before(ds[n], now) <= now
            && (ds[n].Forget? ==> key !in ds[n].keys)
  {
  }

  lemma HoldingOn(at: Table, key: string, run: Option<FailRun>, was: int, now: int)
    requires Holding(at, key, run, was) && was <= now
    ensures Holding(at, key, run, now)
  {
  }

  /** Whatever else is tried, swept and forgotten, a key's attempts fare in the table as they do alone. */
  lemma {:induction false} AsAlone(at: Table, ds: seq<Deed>, key: string, now: int)
    requires key !in at && Ordered(ds, key) && By(ds, now)
    ensures ThroughAt(at, ds, key) == Attempts(TriesAt(ds, key)).through
    ensures Holding(TableAfter(at, ds), key, Attempts(TriesAt(ds, key)).run, now)
  {
    if ds != [] {
      var n := |ds| - 1;
      var d, front, before := ds[n], ds[..n], Before(ds[n], now);
      FrontOrdered(ds, key, now);
      AsAlone(at, front, key, before);
      var w := Attempts(TriesAt(front, key));
      DeedHolds(TableAfter(at, front), d, key, w.run, before);
      if d.Try? && d.key == key {
        AttemptStep(TriesAt(front, key), d.now);
        assert Attempt(Watch(w.run, []), d.now).run == Attempt(w, d.now).run;
      } else {
        assert TriesAt(front, key) + [] == TriesAt(front, key);
      }
      HoldingOn(TableAfter(at, ds), key, Attempts(TriesAt(ds, key)).run, before, now);
    }
  }

  lemma {:induction false} TriesRise(ds: seq<Deed>, key: string, now: int)
    requires Ordered(ds, key) && By(ds, now)
    ensures var ts := TriesAt(ds, key); Rising(ts) && forall i :: 0 <= i < |ts| ==> ts[i] <= now
  {
    if ds != [] {
      FrontOrdered(ds, key, now);
      var front := TriesAt(ds[..|ds| - 1], key);
      TriesRise(ds[..|ds| - 1], key, Before(ds[|ds| - 1], now));
      assert front + [] == front;
    }
  }

  /** However attempts on a key and on any others are timed, at most fifteen failures on it get through in any
      fifteen minutes, from when it is first tried or is forgotten. */
  lemma {:induction false} LockoutBound(at: Table, ds: seq<Deed>, key: string, now: int, from: int)
    requires key !in at && Ordered(ds, key) && By(ds, now)
    ensures During(ThroughAt(at, ds, key), from, LOGIN_WINDOW) <= 15
  {
    AsAlone(at, ds, key, now);
    TriesRise(ds, key, now);
    OneKeyBound(TriesAt(ds, key), from);
  }

  function Tries(key: string, times: seq<int>): seq<Deed> {
    if times == [] then [] else Tries(key, times[..|times| - 1]) + [Try(key, times[|times| - 1])]
  }

  lemma {:induction false} TriesAre(key: string, times: seq<int>)
    requires Rising(times)
    ensures var ds := Tries(key, times);
            && |ds| == |times| && (forall i :: 0 <= i < |ds| ==> ds[i] == Try(key, times[i])) &&
                 TriesAt(ds, key) == times
  {
    if times != [] {
      TriesAre(key, times[..|times| - 1]);
      var ds := Tries(key, times);
      assert ds[..|ds| - 1] == Tries(key, times[..|times| - 1]);
    }
  }

  /** The bound is met: eight failures, seven as the lock ends and eight just after get fifteen through. */
  lemma {:induction false} LockoutBoundIsMet(key: string)
    ensures exists ds: seq<Deed>, from: int ::
      Ordered(ds, key) && During(ThroughAt(map[], ds, key), from, LOGIN_WINDOW) == 15
  {
    var times := OneKeyBoundIsMet();
    var ds := Tries(key, times);
    TriesAre(key, times);
    assert By(ds, times[|times| - 1]);
    AsAlone(map[], ds, key, times[|times| - 1]);
    assert During(ThroughAt(map[], ds, key), LOGIN_WINDOW, LOGIN_WINDOW) == 15;
  }

  // ---- a deadline in force ----

  /** A lock is always set lockout past the start of the run it leaves. */
  predicate Set(f: FailRun) { f.n < LOGIN_MAX_FAILS && (f.until.Some? ==> f.until.value == f.first + LOGIN_LOCKOUT) }

  function Deadline(f: FailRun, none: int): int { match f.until case None => none case Some(u) => u }

  /** A failure moves a lock's deadline earlier exactly when the deadline has already passed: the record
      then starts over with none. A deadline in force stays or moves later. */
  lemma DeadlineExactly(f: FailRun, now: int)
    requires Set(f) && f.first <= now
    ensures Set(Failed(Some(f), now))
    ensures Deadline(f, f.first) <= Deadline(Failed(Some(f), now), f.first) <==> f.until.None? || now <= f.until.value
  {
  }

  // ---- the sweep cannot be seen ----

  datatype Event = Ask(key: string, now: int) | Fail(key: string, now: int) | Reset(keys: seq<string>)

  /** What a table answers over a run of calls. */
  function Answers(at: Table, es: seq<Event>, sweeping: bool): seq<Option<int>>
    decreases |es|
  {
    if es == [] then []
    else
      match es[0]
      case Ask(key, now) =>
        [if LockedAt(Find(at, key), now) then at[key].until else None] + Answers(at, es[1..], sweeping)
      case Fail(key, now) =>
        Answers(if sweeping then AfterFail(at, key, now) else AfterFailUnswept(at, key, now), es[1..], sweeping)
      case Reset(keys) => Answers(Without(at, keys), es[1..], sweeping)
  }

  /** The swept table holds what the other does, but for runs that are dead by now. */
  ghost predicate Alike(swept: Table, full: Table, now: int) {
    forall k :: (k in swept ==> k in full && full[k] == swept[k]) && (k in full && k !in swept ==> Dead(full[k], now))
  }

  ghost predicate Timed(es: seq<Event>, now: int) {
    forall i :: 0 <= i < |es| && !es[i].Reset? ==>
      now <= es[i].now && forall j :: i < j < |es| && !es[j].Reset? ==> es[i].now <= es[j].now
  }

  lemma {:induction false} SweepUnseen(swept: Table, full: Table, es: seq<Event>, now: int)
    requires Alike(swept, full, now) && Timed(es, now)
    ensures Answers(swept, es, true) == Answers(full, es, false)
    decreases |es|
  {
    if es != [] {
      match es[0] {
        case Ask(key, t) =>
          SweepUnseen(swept, full, es[1..], t);
        case Fail(key, t) =>
          FailAlike(swept, full, key, now, t);
          SweepUnseen(AfterFail(swept, key, t), AfterFailUnswept(full, key, t), es[1..], t);
        case Reset(keys) =>
          SweepUnseen(Without(swept, keys), Without(full, keys), es[1..], now);
      }
    }
  }

  lemma {:induction false} FailAlike(swept: Table, full: Table, key: string, now: int, t: int)
    requires Alike(swept, full, now) && now <= t
    ensures Alike(AfterFail(swept, key, t), AfterFailUnswept(full, key, t), t)
  {
    var kept := if |swept| > SWEEP_OVER then Swept(swept, t) else swept;
    assert Alike(kept, full, t);
  }

  // ---- a lock holds ----

  function Played(at: Table, es: seq<Event>): Table
    decreases |es|
  {
    if es == [] then at
    else
      match es[0]
      case Ask(_, _) => Played(at, es[1..])
      case Fail(key, now) => Played(AfterFail(at, key, now), es[1..])
      case Reset(keys) => Played(Without(at, keys), es[1..])
  }

  predicate Holds(at: Table, key: string, u: int, now: int) {
    key in at && Set(at[key]) && at[key].first <= now && at[key].until.Some? && at[key].until.value >= u
  }

  /** Until its deadline nothing but a reset of the key itself ends a lock or brings its deadline forward:
      no failure on it or on any other key, and no sweep they set off. */
  lemma {:induction false} LockHolds(at: Table, es: seq<Event>, key: string, u: int, now: int)
    requires Holds(at, key, u, now) && now < u && Timed(es, now)
    requires forall i :: 0 <= i < |es| ==> if es[i].Reset? then key !in es[i].keys else es[i].now < u
    ensures LockedAt(Find(Played(at, es), key), u - 1) && Played(at, es)[key].until.value >= u
    decreases |es|
  {
    if es != [] {
      match es[0] {
        case Ask(_, t) =>
          LockHolds(at, es[1..], key, u, t);
        case Fail(k, t) =>
          FailHolds(at, k, key, u, now, t);
          LockHolds(AfterFail(at, k, t), es[1..], key, u, t);
        case Reset(keys) =>
          LockHolds(Without(at, keys), es[1..], key, u, now);
      }
    }
  }

  lemma {:induction false} FailHolds(at: Table, k: string, key: string, u: int, now: int, t: int)
    requires Holds(at, key, u, now) && now <= t < u
    ensures Holds(AfterFail(at, k, t), key, u, t)
  {
    var kept := if |at| > SWEEP_OVER then Swept(at, t) else at;
    assert Find(kept, key) == Find(at, key);
  }
}
