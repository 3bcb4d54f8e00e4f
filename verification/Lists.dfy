/** Sequence operations shared by the models: the slice edits the editors make, filters, and the
    weaving of removed rows back into a list that both card renderers perform. */
module Lists {
  datatype Option<+T> = None | Some(value: T)

  datatype Result<+T, +E> = Ok(value: T) | Err(error: E)

  function RemoveAt<T>(s: seq<T>, i: nat): (r: seq<T>)
    requires i < |s|
    ensures |r| == |s| - 1
  {
    s[..i] + s[i + 1..]
  }

  function InsertAt<T>(s: seq<T>, i: nat, x: T): (r: seq<T>)
    requires i <= |s|
    ensures |r| == |s| + 1
  {
    s[..i] + [x] + s[i..]
  }

  function Min(a: int, b: int): int { if a < b then a else b }

  function Max(a: int, b: int): int { if a < b then b else a }

  function Filter<T>(s: seq<T>, p: T -> bool): (r: seq<T>)
    ensures |r| <= |s|
  {
    if s == [] then [] else if p(s[0]) then [s[0]] + Filter(s[1..], p) else Filter(s[1..], p)
  }

  function Map<S, T>(s: seq<S>, f: S -> T): (r: seq<T>)
    ensures |r| == |s|
    ensures forall i :: 0 <= i < |s| ==> r[i] == f(s[i])
  {
    seq(|s|, i requires 0 <= i < |s| => f(s[i]))
  }

  lemma FilterMember<T>(s: seq<T>, p: T -> bool, x: T)
    ensures x in Filter(s, p) <==> x in s && p(x)
  {
    if s != [] {
      FilterMember(s[1..], p, x);
    }
  }

  lemma {:induction false} FilterConcat<T>(a: seq<T>, b: seq<T>, p: T -> bool)
    ensures Filter(a + b, p) == Filter(a, p) + Filter(b, p)
  {
    if a == [] {
      assert a + b == b;
    } else {
      var c := a + b;
      assert c[0] == a[0];
      assert c[1..] == a[1..] + b;
      FilterConcat(a[1..], b, p);
      if p(a[0]) {
        assert Filter(c, p) == [a[0]] + (Filter(a[1..], p) + Filter(b, p));
      }
    }
  }

  lemma {:induction false} FilterRemoveAt<T>(s: seq<T>, i: nat, p: T -> bool)
    requires i < |s| && !p(s[i])
    ensures Filter(RemoveAt(s, i), p) == Filter(s, p)
  {
    var tail := s[i..];
    assert tail[1..] == s[i + 1..];
    assert s[..i] + tail == s;
    FilterConcat(s[..i], tail, p);
    FilterConcat(s[..i], s[i + 1..], p);
  }

  lemma {:induction false} FilterInsertAt<T>(s: seq<T>, i: nat, x: T, p: T -> bool)
    requires i <= |s| && !p(x)
    ensures Filter(InsertAt(s, i, x), p) == Filter(s, p)
  {
    var t := InsertAt(s, i, x);
    assert RemoveAt(t, i) == s;
    FilterRemoveAt(t, i, p);
  }

  lemma FilterAll<T>(s: seq<T>, p: T -> bool)
    requires forall x :: x in s ==> p(x)
    ensures Filter(s, p) == s
  {
  }

  lemma MapRemoveAt<S, T>(s: seq<S>, i: nat, f: S -> T)
    requires i < |s|
    ensures Map(RemoveAt(s, i), f) == RemoveAt(Map(s, f), i)
  {
  }

  lemma MapInsertAt<S, T>(s: seq<S>, i: nat, x: S, f: S -> T)
    requires i <= |s|
    ensures Map(InsertAt(s, i, x), f) == InsertAt(Map(s, f), i, f(x))
  {
  }

  lemma MultisetRemoveAt<T>(s: seq<T>, i: nat)
    requires i < |s|
    ensures multiset(s) == multiset(RemoveAt(s, i)) + multiset{s[i]}
  {
    assert s == s[..i] + [s[i]] + s[i + 1..];
  }

  /** Rearranging a list rearranges what it maps to. */
  lemma {:induction false} MapRearranged<S, T>(a: seq<S>, b: seq<S>, f: S -> T)
    requires multiset(a) == multiset(b)
    ensures multiset(Map(a, f)) == multiset(Map(b, f))
  {
    if a == [] {
      assert |multiset(b)| == 0;
    } else {
      assert a[0] in multiset(b);
      var i :| 0 <= i < |b| && b[i] == a[0];
      MultisetRemoveAt(b, i);
      MultisetRemoveAt(a, 0);
      assert RemoveAt(a, 0) == a[1..];
      var x := multiset{a[0]};
      assert multiset(a[1..]) == multiset(a) - x == multiset(b) - x == multiset(RemoveAt(b, i));
      MapRearranged(a[1..], RemoveAt(b, i), f);
      MapRemoveAt(b, i, f);
      MapRemoveAt(a, 0, f);
      MultisetRemoveAt(Map(b, f), i);
      MultisetRemoveAt(Map(a, f), 0);
    }
  }

  /** The numbers 0 .. n-1. */
  function Upto(n: nat): (r: seq<int>)
    ensures |r| == n
    ensures forall i :: 0 <= i < n ==> r[i] == i
  {
    seq(n, i => i)
  }

  lemma UptoMembers(n: nat, x: int)
    ensures x in multiset(Upto(n)) <==> 0 <= x < n
    ensures multiset(Upto(n))[x] <= 1
  {
    if n > 0 {
      UptoMembers(n - 1, x);
      assert Upto(n) == Upto(n - 1) + [n - 1];
    }
  }

  /** A set that lists the members of a sequence is no larger than it. */
  lemma ElementsBound<T>(s: seq<T>, e: set<T>)
    requires forall x :: x in e ==> x in s
    ensures |e| <= |s|
  {
    if s == [] {
      assert e == {};
    } else {
      ElementsBound(s[1..], e - {s[0]});
    }
  }

  /** The set of the numbers below f, which has f members. */
  function Below(f: nat): (r: set<int>)
    ensures |r| == f
    ensures forall x :: x in r <==> 0 <= x < f
  {
    if f == 0 then {} else Below(f - 1) + {f - 1}
  }
}
