/** Counting the moments of a history that fall in an interval. */
module Times {
  /** How many moments are x or later. */
  function AtLeast(h: seq<int>, x: int): nat {
    if h == [] then 0 else AtLeast(h[..|h| - 1], x) + if h[|h| - 1] >= x then 1 else 0
  }

  /** How many moments fall in the half-open interval of the given length that starts at from. */
  function During(h: seq<int>, from: int, length: int): nat {
    if h == [] then 0 else During(h[..|h| - 1], from, length) + if from <= h[|h| - 1] < from + length then 1 else 0
  }

  lemma {:induction false} Snoc(h: seq<int>, t: int, x: int, length: int)
    ensures AtLeast(h + [t], x) == AtLeast(h, x) + if t >= x then 1 else 0
    ensures During(h + [t], x, length) == During(h, x, length) + if x <= t < x + length then 1 else 0
  {
    assert (h + [t])[..|h|] == h;
  }

  lemma {:induction false} DuringAtLeast(h: seq<int>, from: int, length: int)
    ensures During(h, from, length) <= AtLeast(h, from)
  {
    if h != [] {
      DuringAtLeast(h[..|h| - 1], from, length);
    }
  }

  /** A moment added leaves every interval it misses alone, and one it falls in with no more moments than
      there are from the start of that interval on. */
  lemma {:induction false} DuringSnoc(h: seq<int>, t: int, from: int, length: int)
    ensures !(from <= t < from + length) ==> During(h + [t], from, length) == During(h, from, length)
    ensures During(h + [t], from, length) <= AtLeast(h + [t], from)
  {
    Snoc(h, t, from, length);
    DuringAtLeast(h + [t], from, length);
  }

  lemma {:induction false} NoneAtLeast(h: seq<int>, x: int)
    requires forall i :: 0 <= i < |h| ==> h[i] < x
    ensures AtLeast(h, x) == 0
  {
    if h != [] {
      NoneAtLeast(h[..|h| - 1], x);
    }
  }

  /** k moments, all of them t. */
  function Burst(t: int, k: nat): (h: seq<int>)
    ensures |h| == k && forall i :: 0 <= i < k ==> h[i] == t
  {
    if k == 0 then [] else Burst(t, k - 1) + [t]
  }

  lemma {:induction false} DuringBurst(h: seq<int>, t: int, k: nat, from: int, length: int)
    ensures During(h + Burst(t, k), from, length) ==
      During(h, from, length) + if from <= t < from + length then k else 0
  {
    if k == 0 {
      assert h + Burst(t, k) == h;
    } else {
      DuringBurst(h, t, k - 1, from, length);
      assert h + Burst(t, k) == (h + Burst(t, k - 1)) + [t];
      Snoc(h + Burst(t, k - 1), t, from, length);
    }
  }

  predicate Rising(times: seq<int>) { forall i, j :: 0 <= i < j < |times| ==> times[i] <= times[j] }
}
