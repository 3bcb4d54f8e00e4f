/** The per-minute ceiling on a key's requests: one fixed window a key, replaced when it is over. */
module RateWindow {
  import opened Lists
  import opened Times

  const API_KEY_RATE_LIMIT := 240
  const SECOND := 1_000_000_000
  const MINUTE := 60 * SECOND
  const SWEEP_OVER := 1000

  datatype Window = Window(start: int, n: nat)

  newtype KeyId = x: int | -0x8000_0000_0000_0000 <= x < 0x8000_0000_0000_0000

  type Table = map<KeyId, Window>

  predicate Over(w: Window, now: int) { now - w.start >= MINUTE }

  /** The window a request at now counts in. */
  function WindowAt(w: Option<Window>, now: int): Window {
    if w.None? || Over(w.value, now) then Window(now, 1) else w.value.(n := w.value.n + 1)
  }

  predicate Fits(w: Window) { w.n <= API_KEY_RATE_LIMIT }

  function Find(m: Table, id: KeyId): Option<Window> { if id in m then Some(m[id]) else None }

  function Swept(m: Table, now: int): Table { map k | k in m && !Over(m[k], now) :: m[k] }

  function After(m: Table, id: KeyId, now: int): Table {
    var w := Find(m, id);
    var kept := if (w.None? || Over(w.value, now)) && |m| > SWEEP_OVER then Swept(m, now) else m;
    kept[id := WindowAt(w, now)]
  }

  function AfterUnswept(m: Table, id: KeyId, now: int): Table { m[id := WindowAt(Find(m, id), now)] }

  /** How many whole seconds a refused caller is told to wait. */
  function RetryAfter(w: Window, now: int): int { (MINUTE - (now - w.start) + SECOND) / SECOND }

  class PerMinute {
    var m: Table

    constructor ()
      ensures m == map[]
    {
      m := map[];
    }

    method Sweep(now: int)
      modifies this
      ensures m == Swept(old(m), now)
    {
      ghost var was := m;
      var keys: set<KeyId> := m.Keys;
      while keys != {}
        invariant keys <= m.Keys <= was.Keys
        invariant forall k :: k in was && k !in keys ==> (k in m <==> !Over(was[k], now))
        invariant forall k :: k in m ==> m[k] == was[k]
        decreases keys
      {
        var k :| k in keys;
        keys := keys - {k};
        if Over(m[k], now) {
          m := m - {k};
        }
      }
    }

    method AllowPerMinute(id: KeyId, now: int) returns (ok: bool, retry: int)
      modifies this
      ensures m == After(old(m), id, now)
      ensures ok == Fits(m[id])
      ensures retry == if ok then 0 else RetryAfter(m[id], now)
    {
      var w := Find(m, id);
      if w.None? || Over(w.value, now) {
        if |m| > SWEEP_OVER {
          Sweep(now);
        }
        w := Some(Window(now, 0));
      }
      var next := w.value.(n := w.value.n + 1);
      m := m[id := next];
      if next.n > API_KEY_RATE_LIMIT {
        return false, RetryAfter(next, now);
      }
      return true, 0;
    }
  }

  // ---- the sliding bound ----

  /** One key's window and the moments its requests were admitted. */
  datatype Watch = Watch(window: Option<Window>, admitted: seq<int>)

  function Request(w: Watch, now: int): Watch {
    var next := WindowAt(w.window, now);
    Watch(Some(next), if Fits(next) then w.admitted + [now] else w.admitted)
  }

  function Requests(times: seq<int>): Watch {
    if times == [] then Watch(None, []) else Request(Requests(times[..|times| - 1]), times[|times| - 1])
  }

  function Used(w: Window): nat { Min(w.n, API_KEY_RATE_LIMIT) }

  /** Nothing was admitted past the window; what was admitted in it is counted, the first of it at its very
      start; and less than a minute before it, at most all but the first of the window before. */
  ghost predicate Recent(h: seq<int>, w: Window) {
    && w.n >= 1
    && (forall i :: 0 <= i < |h| ==> h[i] < w.start + MINUTE)
    && AtLeast(h, w.start) <= Used(w)
    && (forall x :: x > w.start ==> AtLeast(h, x) <= Used(w) - 1)
    && (forall x :: x > w.start - MINUTE ==> AtLeast(h, x) <= Used(w) + API_KEY_RATE_LIMIT - 1)
  }

  ghost predicate Bounded(w: Watch, now: int) {
    && (forall t :: During(w.admitted, t, MINUTE) <= 2 * API_KEY_RATE_LIMIT - 1)
    && (forall i :: 0 <= i < |w.admitted| ==> w.admitted[i] <= now)
    && (w.window.None? ==> w.admitted == [])
    && (w.window.Some? ==> w.window.value.start <= now && Recent(w.admitted, w.window.value))
  }

  lemma {:induction false} FirstRecent(t: int)
    ensures Recent([t], Window(t, 1))
    ensures forall x :: During([t], x, MINUTE) <= 1
  {
    forall x
      ensures AtLeast([t], x) == if t >= x then 1 else 0
      ensures During([t], x, MINUTE) <= 1
    {
      Snoc([], t, x, MINUTE);
      assert [] + [t] == [t];
    }
  }

  /** An admitted request keeps the account of what is recent, in the window it falls in or in a new one. */
  lemma {:induction false} AdmittedRecent(h: seq<int>, w: Window, t: int)
    requires (forall i :: 0 <= i < |h| ==> h[i] <= t) && w.start <= t
    requires Recent(h, w) && Fits(WindowAt(Some(w), t))
    ensures Recent(h + [t], WindowAt(Some(w), t))
  {
    var next := WindowAt(Some(w), t);
    if Over(w, t) {
      NoneAtLeast(h, t);
    }
    Snoc(h, t, next.start, 0);
    forall x
      ensures x > next.start ==> AtLeast(h + [t], x) <= Used(next) - 1
      ensures x > next.start - MINUTE ==> AtLeast(h + [t], x) <= Used(next) + API_KEY_RATE_LIMIT - 1
    {
      Snoc(h, t, x, 0);
      if x > t {
        NoneAtLeast(h, x);
      }
    }
  }

  lemma {:induction false} AdmittedSpaced(h: seq<int>, w: Window, t: int, from: int)
    requires w.start <= t && (forall i :: 0 <= i < |h| ==> h[i] <= t)
    requires Recent(h, w) && Fits(WindowAt(Some(w), t))
    requires During(h, from, MINUTE) <= 2 * API_KEY_RATE_LIMIT - 1
    ensures During(h + [t], from, MINUTE) <= 2 * API_KEY_RATE_LIMIT - 1
  {
    AdmittedRecent(h, w, t);
    DuringSnoc(h, t, from, MINUTE);
  }

  lemma {:induction false} RequestBounded(w: Watch, now: int, t: int)
    requires Bounded(w, now) && now <= t
    ensures Bounded(Request(w, t), t)
  {
    if w.window.None? {
      FirstRecent(t);
      assert w.admitted + [t] == [t];
    } else if Fits(WindowAt(w.window, t)) {
      AdmittedRecent(w.admitted, w.window.value, t);
      forall s
        ensures During(w.admitted + [t], s, MINUTE) <= 2 * API_KEY_RATE_LIMIT - 1
      {
        AdmittedSpaced(w.admitted, w.window.value, t, s);
      }
    }
  }

  lemma {:induction false} RequestsBounded(times: seq<int>, now: int)
    requires Rising(times) && (times == [] || times[|times| - 1] <= now)
    ensures Bounded(Requests(times), now)
  {
    if times != [] {
      var last := times[|times| - 1];
      RequestsBounded(times[..|times| - 1], last);
      RequestBounded(Requests(times[..|times| - 1]), last, last);
    }
  }

  /** Two windows can share a minute, but never with the request that opened the first. */
  lemma {:induction false} OneKeyBound(times: seq<int>, from: int)
    requires Rising(times)
    ensures During(Requests(times).admitted, from, MINUTE) <= 479
  {
    if times == [] {
      RequestsBounded(times, 0);
    } else {
      RequestsBounded(times, times[|times| - 1]);
    }
  }

  lemma RequestStep(times: seq<int>, t: int)
    ensures Requests(times + [t]) == Request(Requests(times), t)
  {
    assert (times + [t])[..|times|] == times;
  }

  /** A burst that the window has room for is all admitted. */
  lemma {:induction false} BurstAdmitted(times: seq<int>, t: int, k: nat)
    requires k > 0 && WindowAt(Requests(times).window, t).n + k - 1 <= API_KEY_RATE_LIMIT
    requires WindowAt(Requests(times).window, t).start <= t
    ensures Requests(times + Burst(t, k)).admitted == Requests(times).admitted + Burst(t, k)
    ensures var w := WindowAt(Requests(times).window, t);
            Requests(times + Burst(t, k)).window == Some(w.(n := w.n + k - 1))
  {
    RequestStep(times + Burst(t, k - 1), t);
    assert times + Burst(t, k) == (times + Burst(t, k - 1)) + [t];
    if k == 1 {
      assert times + Burst(t, 0) == times;
      assert Burst(t, 1) == [t];
    } else {
      BurstAdmitted(times, t, k - 1);
      assert Requests(times).admitted + Burst(t, k) == Requests(times).admitted + Burst(t, k - 1) + [t];
    }
  }

  lemma {:induction false} OneKeyBoundIsMet() returns (times: seq<int>)
    ensures Rising(times) && During(Requests(times).admitted, 1, MINUTE) == 479
  {
    var a := [] + Burst(0, 1);
    var b := a + Burst(MINUTE - 1, 239);
    times := b + Burst(MINUTE, 240);
    BurstAdmitted([], 0, 1);
    BurstAdmitted(a, MINUTE - 1, 239);
    BurstAdmitted(b, MINUTE, 240);
    DuringBurst([], 0, 1, 1, MINUTE);
    DuringBurst(a, MINUTE - 1, 239, 1, MINUTE);
    DuringBurst(b, MINUTE, 240, 1, MINUTE);
    assert Requests(times).admitted == times;
  }

  // ---- the bound over the table ----

  datatype Ask = Ask(id: KeyId, now: int)

  function TableAfter(m: Table, asks: seq<Ask>): Table {
    if asks == [] then m
    else
      var n := |asks| - 1;
      After(TableAfter(m, asks[..n]), asks[n].id, asks[n].now)
  }

  /** When a key's requests were made, and when those that were admitted were. */
  function AskedAt(asks: seq<Ask>, id: KeyId): seq<int> {
    if asks == [] then []
    else
      var n := |asks| - 1;
      AskedAt(asks[..n], id) + if asks[n].id == id then [asks[n].now] else []
  }

  function AdmittedAt(m: Table, asks: seq<Ask>, id: KeyId): seq<int> {
    if asks == [] then []
    else
      var n := |asks| - 1;
      AdmittedAt(m, asks[..n], id) +
      if asks[n].id == id && Fits(TableAfter(m, asks)[id]) then [asks[n].now] else []
  }

  ghost predicate InOrder(asks: seq<Ask>) { forall i, j :: 0 <= i < j < |asks| ==> asks[i].now <= asks[j].now }

  /** The window a table holds of a key, but that the sweep may have dropped one that is over by now. */
  predicate Holding(m: Table, id: KeyId, w: Option<Window>, now: int) {
    Find(m, id) == w || (id !in m && w.Some? && Over(w.value, now))
  }

  lemma {:induction false} AskHolds(m: Table, a: Ask, id: KeyId, w: Option<Window>)
    requires Holding(m, id, w, a.now)
    ensures Holding(After(m, a.id, a.now), id, if a.id == id then Some(WindowAt(w, a.now)) else w, a.now)
    ensures a.id == id ==> After(m, a.id, a.now)[id] == WindowAt(w, a.now)
  {
    assert Holding(Swept(m, a.now), id, w, a.now);
  }

  ghost predicate By(asks: seq<Ask>, now: int) { forall i :: 0 <= i < |asks| ==> asks[i].now <= now }

  lemma {:induction false} FrontInOrder(asks: seq<Ask>)
    requires asks != [] && InOrder(asks)
    ensures InOrder(asks[..|asks| - 1]) && By(asks[..|asks| - 1], asks[|asks| - 1].now)
  {
  }

  lemma HoldingOn(m: Table, id: KeyId, w: Option<Window>, was: int, now: int)
    requires Holding(m, id, w, was) && was <= now
    ensures Holding(m, id, w, now)
  {
  }

  /** Whatever other keys ask and the sweep drops, a key's requests fare in the table as they do alone. */
  lemma {:induction false} AsAlone(m: Table, asks: seq<Ask>, id: KeyId, now: int)
    requires id !in m && InOrder(asks) && By(asks, now)
    ensures AdmittedAt(m, asks, id) == Requests(AskedAt(asks, id)).admitted
    ensures Holding(TableAfter(m, asks), id, Requests(AskedAt(asks, id)).window, now)
  {
    if asks != [] {
      var n := |asks| - 1;
      var a, front := asks[n], asks[..n];
      FrontInOrder(asks);
      AsAlone(m, front, id, a.now);
      AskHolds(TableAfter(m, front), a, id, Requests(AskedAt(front, id)).window);
      if a.id == id {
        RequestStep(AskedAt(front, id), a.now);
      } else {
        assert AskedAt(front, id) + [] == AskedAt(front, id);
      }
      HoldingOn(TableAfter(m, asks), id, Requests(AskedAt(asks, id)).window, a.now, now);
    }
  }

  lemma {:induction false} AskedRise(asks: seq<Ask>, id: KeyId, now: int)
    requires InOrder(asks) && By(asks, now)
    ensures var ts := AskedAt(asks, id); Rising(ts) && forall i :: 0 <= i < |ts| ==> ts[i] <= now
  {
    if asks != [] {
      FrontInOrder(asks);
      var front := AskedAt(asks[..|asks| - 1], id);
      AskedRise(asks[..|asks| - 1], id, asks[|asks| - 1].now);
      assert front + [] == front;
    }
  }

  /** However requests on a key and on any others are timed, any minute, wherever it starts, admits at most 479
      of that key's. */
  lemma {:induction false} MinuteBound(m: Table, asks: seq<Ask>, id: KeyId, from: int)
    requires id !in m && InOrder(asks)
    ensures During(AdmittedAt(m, asks, id), from, MINUTE) <= 479
  {
    var now := if asks == [] then 0 else asks[|asks| - 1].now;
    AsAlone(m, asks, id, now);
    AskedRise(asks, id, now);
    OneKeyBound(AskedAt(asks, id), from);
  }

  function Asks(id: KeyId, times: seq<int>): seq<Ask> {
    if times == [] then [] else Asks(id, times[..|times| - 1]) + [Ask(id, times[|times| - 1])]
  }

  lemma {:induction false} AsksAre(id: KeyId, times: seq<int>)
    ensures var asks := Asks(id, times);
            && |asks| == |times| && (forall i :: 0 <= i < |asks| ==> asks[i] == Ask(id, times[i])) &&
                 AskedAt(asks, id) == times
  {
    if times != [] {
      AsksAre(id, times[..|times| - 1]);
      var asks := Asks(id, times);
      assert asks[..|asks| - 1] == Asks(id, times[..|times| - 1]);
    }
  }

  /** The bound is met: one request, 239 as its minute ends, and 240 in the minute after. */
  lemma {:induction false} MinuteBoundIsMet(id: KeyId)
    ensures exists asks: seq<Ask>, from: int ::
      InOrder(asks) && During(AdmittedAt(map[], asks, id), from, MINUTE) == 479
  {
    var times := OneKeyBoundIsMet();
    var asks := Asks(id, times);
    AsksAre(id, times);
    AsAlone(map[], asks, id, times[|times| - 1]);
    assert During(AdmittedAt(map[], asks, id), 1, MINUTE) == 479;
  }

  /** A refused caller is told to wait at least until its window is over and at most a second longer; with no
      other request meanwhile, waiting that long is enough, and waiting short of the window's end is not. */
  lemma RetryIsEnough(w: Option<Window>, now: int, wait: nat)
    requires w.Some? ==> w.value.start <= now
    requires !Fits(WindowAt(w, now))
    ensures var next := WindowAt(w, now);
            var left := next.start + MINUTE - now;
            && left < RetryAfter(next, now) * SECOND <= left + SECOND
            && (Fits(WindowAt(Some(next), now + wait)) <==> wait >= left)
  {
  }

  // ---- the sweep cannot be seen ----

  /** What a table answers over a run of requests. */
  function Answers(m: Table, es: seq<(KeyId, int)>, sweeping: bool): seq<bool>
    decreases |es|
  {
    if es == [] then []
    else
      var next := if sweeping then After(m, es[0].0, es[0].1) else AfterUnswept(m, es[0].0, es[0].1);
      [Fits(next[es[0].0])] + Answers(next, es[1..], sweeping)
  }

  ghost predicate Alike(swept: Table, full: Table, now: int) {
    forall k :: (k in swept ==> k in full && full[k] == swept[k]) && (k in full && k !in swept ==> Over(full[k], now))
  }

  ghost predicate Timed(es: seq<(KeyId, int)>, now: int) {
    forall i :: 0 <= i < |es| ==> now <= es[i].1 && forall j :: i < j < |es| ==> es[i].1 <= es[j].1
  }

  lemma {:induction false} SweepUnseen(swept: Table, full: Table, es: seq<(KeyId, int)>, now: int)
    requires Alike(swept, full, now) && Timed(es, now)
    ensures Answers(swept, es, true) == Answers(full, es, false)
    decreases |es|
  {
    if es != [] {
      var id, t := es[0].0, es[0].1;
      var a, b := After(swept, id, t), AfterUnswept(full, id, t);
      assert WindowAt(Find(swept, id), t) == WindowAt(Find(full, id), t);
      assert Alike(a, b, t);
      SweepUnseen(a, b, es[1..], t);
    }
  }
}
