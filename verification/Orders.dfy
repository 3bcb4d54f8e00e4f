/** Sorting by a total order, and the order of strings. */
module Orders {
  import opened Lists

  /** Any two compare, and comparisons chain; some may tie. */
  ghost predicate Ranking<T(!new)>(leq: (T, T) -> bool) {
    && (forall a, b :: leq(a, b) || leq(b, a))
    && (forall a, b, c :: leq(a, b) && leq(b, c) ==> leq(a, c))
  }

  /** A ranking without ties. */
  ghost predicate TotalOrder<T(!new)>(leq: (T, T) -> bool) {
    Ranking(leq) && forall a, b :: leq(a, b) && leq(b, a) ==> a == b
  }

  predicate Ordered<T>(s: seq<T>, leq: (T, T) -> bool) { forall i, j :: 0 <= i < j < |s| ==> leq(s[i], s[j]) }

  function InsertInto<T>(s: seq<T>, x: T, leq: (T, T) -> bool): seq<T> {
    if s == [] || leq(x, s[0]) then [x] + s else [s[0]] + InsertInto(s[1..], x, leq)
  }

  /** Sorted, with ties in the order they came. */
  function Sort<T>(s: seq<T>, leq: (T, T) -> bool): seq<T> {
    if s == [] then [] else InsertInto(Sort(s[1..], leq), s[0], leq)
  }

  lemma {:induction false} InsertKeeps<T>(s: seq<T>, x: T, leq: (T, T) -> bool)
    ensures multiset(InsertInto(s, x, leq)) == multiset(s) + multiset{x}
  {
    if s != [] && !leq(x, s[0]) {
      InsertKeeps(s[1..], x, leq);
      assert s == [s[0]] + s[1..];
    }
  }

  lemma {:induction false} InsertOrders<T(!new)>(s: seq<T>, x: T, leq: (T, T) -> bool)
    requires Ranking(leq) && Ordered(s, leq)
    ensures Ordered(InsertInto(s, x, leq), leq)
  {
    if s != [] && !leq(x, s[0]) {
      var rest := InsertInto(s[1..], x, leq);
      InsertOrders(s[1..], x, leq);
      InsertKeeps(s[1..], x, leq);
      forall i | 0 <= i < |rest|
        ensures leq(s[0], rest[i])
      {
        assert rest[i] in multiset(rest);
        assert rest[i] == x || rest[i] in s[1..];
      }
    }
  }

  predicate Ties<T>(a: T, b: T, leq: (T, T) -> bool) { leq(a, b) && leq(b, a) }

  lemma {:induction false} InsertStable<T(!new)>(s: seq<T>, x: T, leq: (T, T) -> bool, a: T)
    requires Ranking(leq)
    ensures Filter(InsertInto(s, x, leq), y => Ties(y, a, leq)) == Filter([x] + s, y => Ties(y, a, leq))
  {
    if s != [] && !leq(x, s[0]) {
      InsertStable(s[1..], x, leq, a);
      assert ([x] + s)[1..] == s && ([x] + s[1..])[1..] == s[1..];
      assert !(Ties(x, a, leq) && Ties(s[0], a, leq));
    }
  }

  /** What ties with any one element stands in the order it came in. */
  lemma {:induction false} SortStable<T(!new)>(s: seq<T>, leq: (T, T) -> bool, a: T)
    requires Ranking(leq)
    ensures Filter(Sort(s, leq), y => Ties(y, a, leq)) == Filter(s, y => Ties(y, a, leq))
  {
    if s != [] {
      SortStable(s[1..], leq, a);
      InsertStable(Sort(s[1..], leq), s[0], leq, a);
      assert ([s[0]] + Sort(s[1..], leq))[1..] == Sort(s[1..], leq);
    }
  }

  lemma {:induction false} SortSorts<T(!new)>(s: seq<T>, leq: (T, T) -> bool)
    requires Ranking(leq)
    ensures Ordered(Sort(s, leq), leq) && multiset(Sort(s, leq)) == multiset(s)
  {
    if s != [] {
      SortSorts(s[1..], leq);
      InsertOrders(Sort(s[1..], leq), s[0], leq);
      InsertKeeps(Sort(s[1..], leq), s[0], leq);
      assert s == [s[0]] + s[1..];
    }
  }

  /** There is one ordered arrangement of some elements. */
  lemma {:induction false} OrderedUnique<T(!new)>(a: seq<T>, b: seq<T>, leq: (T, T) -> bool)
    requires TotalOrder(leq) && Ordered(a, leq) && Ordered(b, leq)
    requires multiset(a) == multiset(b)
    ensures a == b
  {
    assert |a| == |multiset(a)| && |b| == |multiset(b)|;
    if a != [] {
      assert a[0] in multiset(b) && b[0] in multiset(a);
      assert leq(a[0], b[0]) && leq(b[0], a[0]);
      assert a == [a[0]] + a[1..] && b == [b[0]] + b[1..];
      assert multiset(a[1..]) == multiset(a) - multiset{a[0]};
      assert multiset(b[1..]) == multiset(b) - multiset{b[0]};
      OrderedUnique(a[1..], b[1..], leq);
    }
  }

  // ---- strings ----

  predicate StringLeq(a: string, b: string) {
    a == [] || (b != [] && (a[0] < b[0] || (a[0] == b[0] && StringLeq(a[1..], b[1..]))))
  }

  lemma {:induction false} StringTotal(a: string, b: string)
    ensures StringLeq(a, b) || StringLeq(b, a)
  {
    if a != [] && b != [] && a[0] == b[0] {
      StringTotal(a[1..], b[1..]);
    }
  }

  lemma {:induction false} StringAntisymmetric(a: string, b: string)
    requires StringLeq(a, b) && StringLeq(b, a)
    ensures a == b
  {
    if a != [] {
      StringAntisymmetric(a[1..], b[1..]);
      assert a == [a[0]] + a[1..] && b == [b[0]] + b[1..];
    }
  }

  lemma {:induction false} StringTransitive(a: string, b: string, c: string)
    requires StringLeq(a, b) && StringLeq(b, c)
    ensures StringLeq(a, c)
  {
    if a != [] && a[0] == b[0] == c[0] {
      StringTransitive(a[1..], b[1..], c[1..]);
    }
  }

  lemma {:induction false} StringOrder()
    ensures TotalOrder(StringLeq)
  {
    forall a, b
      ensures StringLeq(a, b) || StringLeq(b, a)
      ensures StringLeq(a, b) && StringLeq(b, a) ==> a == b
    {
      StringTotal(a, b);
      if StringLeq(a, b) && StringLeq(b, a) {
        StringAntisymmetric(a, b);
      }
    }
    forall a, b, c | StringLeq(a, b) && StringLeq(b, c)
      ensures StringLeq(a, c)
    {
      StringTransitive(a, b, c);
    }
  }
}
