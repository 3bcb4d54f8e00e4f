/** The canonical form of a query: sorted by name and then by value, escaped, joined. */
module AwsQuery {
  import opened Joining
  import opened Orders
  import opened AwsEscape

  datatype Pair = Pair(name: Bytes, value: Bytes)

  predicate PairLeq(a: Pair, b: Pair) {
    if a.name == b.name then StringLeq(a.value, b.value) else StringLeq(a.name, b.name)
  }

  lemma {:induction false} PairOrder()
    ensures TotalOrder(PairLeq)
  {
    StringOrder();
    forall a: Pair, b: Pair, c: Pair | PairLeq(a, b) && PairLeq(b, c)
      ensures PairLeq(a, c)
    {
      assert StringLeq(a.name, b.name) || a.name == b.name;
      assert StringLeq(b.name, c.name) || b.name == c.name;
    }
  }

  function PrintPair(p: Pair): string { Escape(p.name) + "=" + Escape(p.value) }

  function Printed(ps: seq<Pair>): (r: seq<string>)
    ensures |r| == |ps| && forall i :: 0 <= i < |ps| ==> r[i] == PrintPair(ps[i])
  {
    seq(|ps|, i requires 0 <= i < |ps| => PrintPair(ps[i]))
  }

  /** A query's pairs in order, each printed, joined. */
  function CanonicalQuery(ps: seq<Pair>): string { Join(Printed(Sort(ps, PairLeq)), "&") }

  lemma {:induction false} PrintPairPlain(p: Pair)
    ensures PrintPair(p) != "" && Free(PrintPair(p), '&') && Free(PrintPair(p), '\n') && Free(Escape(p.name), '=')
  {
    EscapePlain(p.name);
    EscapePlain(p.value);
  }

  lemma {:induction false} PrintPairInjective(p: Pair, q: Pair)
    requires PrintPair(p) == PrintPair(q)
    ensures p == q
  {
    PrintPairPlain(p);
    PrintPairPlain(q);
    SplitUnique(Escape(p.name), Escape(q.name), Escape(p.value), Escape(q.value), '=');
    EscapeInjective(p.name, q.name);
    EscapeInjective(p.value, q.value);
  }

  lemma {:induction false} PrintedInjective(a: seq<Pair>, b: seq<Pair>)
    requires Join(Printed(a), "&") == Join(Printed(b), "&")
    ensures a == b
  {
    forall p: Pair
      ensures PrintPair(p) != "" && Free(PrintPair(p), '&')
    {
      PrintPairPlain(p);
    }
    JoinEmpty(Printed(a), "&");
    JoinEmpty(Printed(b), "&");
    if a != [] && b != [] {
      JoinInjective(Printed(a), Printed(b), '&');
      forall i | 0 <= i < |a|
        ensures a[i] == b[i]
      {
        assert Printed(a)[i] == Printed(b)[i];
        PrintPairInjective(a[i], b[i]);
      }
    }
  }

  /** Two queries have one canonical form exactly when they hold the same pairs, each as often: their order
      never matters and nothing else is lost. */
  lemma {:induction false} QueryExactly(a: seq<Pair>, b: seq<Pair>)
    ensures CanonicalQuery(a) == CanonicalQuery(b) <==> multiset(a) == multiset(b)
  {
    PairOrder();
    SortSorts(a, PairLeq);
    SortSorts(b, PairLeq);
    if CanonicalQuery(a) == CanonicalQuery(b) {
      PrintedInjective(Sort(a, PairLeq), Sort(b, PairLeq));
    }
    if multiset(a) == multiset(b) {
      OrderedUnique(Sort(a, PairLeq), Sort(b, PairLeq), PairLeq);
    }
  }

  predicate BytesLeq(a: Bytes, b: Bytes) { StringLeq(a, b) }

  lemma {:induction false} BytesOrder()
    ensures TotalOrder(BytesLeq)
  {
    StringOrder();
  }

  /** The values a query gives a name, in order. */
  function Values(ps: seq<Pair>, name: Bytes): seq<Bytes> {
    if ps == [] then []
    else Values(ps[..|ps| - 1], name) + if ps[|ps| - 1].name == name then [ps[|ps| - 1].value] else []
  }

  function Named(name: Bytes, values: seq<Bytes>): (r: seq<Pair>)
    ensures |r| == |values| && forall i :: 0 <= i < |r| ==> r[i] == Pair(name, values[i])
  {
    seq(|values|, i requires 0 <= i < |values| => Pair(name, values[i]))
  }

  lemma {:induction false} ValuesCount(ps: seq<Pair>, name: Bytes, v: Bytes)
    ensures multiset(Values(ps, name))[v] == multiset(ps)[Pair(name, v)]
  {
    if ps != [] {
      ValuesCount(ps[..|ps| - 1], name, v);
      assert ps == ps[..|ps| - 1] + [ps[|ps| - 1]];
    }
  }

  lemma {:induction false} NamedCount(name: Bytes, values: seq<Bytes>, p: Pair)
    ensures multiset(Named(name, values))[p] == if p.name == name then multiset(values)[p.value] else 0
  {
    if values != [] {
      var front, last := values[..|values| - 1], values[|values| - 1];
      NamedCount(name, front, p);
      assert values == front + [last];
      assert Named(name, values) == Named(name, front) + [Pair(name, last)];
    }
  }

  ghost predicate Grouped(q: map<Bytes, seq<Bytes>>, ps: seq<Pair>) {
    forall n :: (n in q <==> Values(ps, n) != []) && (n in q ==> q[n] == Values(ps, n))
  }

  lemma {:induction false} GroupedNext(q: map<Bytes, seq<Bytes>>, ps: seq<Pair>, p: Pair)
    requires Grouped(q, ps)
    ensures Grouped(q[p.name := (if p.name in q then q[p.name] else []) + [p.value]], ps + [p])
  {
    assert (ps + [p])[..|ps|] == ps;
  }

  /** url.ParseQuery's grouping. */
  method Query(ps: seq<Pair>) returns (q: map<Bytes, seq<Bytes>>)
    ensures Grouped(q, ps)
  {
    q := map[];
    for i := 0 to |ps|
      invariant Grouped(q, ps[..i])
    {
      var p := ps[i];
      GroupedNext(q, ps[..i], p);
      assert ps[..i + 1] == ps[..i] + [p];
      q := q[p.name := (if p.name in q then q[p.name] else []) + [p.value]];
    }
    assert ps[..|ps|] == ps;
  }

  method SortedNames(q: map<Bytes, seq<Bytes>>) returns (names: seq<Bytes>)
    ensures Ordered(names, BytesLeq) && multiset(names) == multiset(q.Keys)
  {
    var keys: seq<Bytes> := [];
    var left := q.Keys;
    while left != {}
      invariant left <= q.Keys && multiset(keys) == multiset(q.Keys - left)
      decreases left
    {
      var n :| n in left;
      assert q.Keys - (left - {n}) == (q.Keys - left) + {n};
      left := left - {n};
      keys := keys + [n];
    }
    assert q.Keys - left == q.Keys;
    BytesOrder();
    SortSorts(keys, BytesLeq);
    names := Sort(keys, BytesLeq);
  }

  /** What of a query has been printed once the first names are done. */
  ghost predicate PrintedUpTo(flat: seq<Pair>, ps: seq<Pair>, names: seq<Bytes>) {
    && Ordered(flat, PairLeq)
    && (forall p :: p in flat ==> p.name in names)
    && forall p: Pair :: multiset(flat)[p] == if p.name in names then multiset(ps)[p] else 0
  }

  lemma {:induction false} NextCounts(flat: seq<Pair>, ps: seq<Pair>, names: seq<Bytes>, name: Bytes,
                                      values: seq<Bytes>, p: Pair)
    requires name !in names && PrintedUpTo(flat, ps, names) && multiset(values) == multiset(Values(ps, name))
    ensures multiset(flat + Named(name, values))[p] == if p.name in names + [name] then multiset(ps)[p] else 0
  {
    NamedCount(name, values, p);
    ValuesCount(ps, name, p.value);
  }

  lemma {:induction false} NextAfter(flat: seq<Pair>, ps: seq<Pair>, names: seq<Bytes>, name: Bytes, values: seq<Bytes>,
                                     j: nat, k: nat)
    requires PrintedUpTo(flat, ps, names) && (forall m :: 0 <= m < |names| ==> BytesLeq(names[m], name))
    requires name !in names && j < |flat| && k < |values|
    ensures PairLeq(flat[j], Named(name, values)[k])
  {
    assert flat[j].name in names;
    var m :| 0 <= m < |names| && names[m] == flat[j].name;
    assert BytesLeq(names[m], name);
  }

  lemma {:induction false} NextName(flat: seq<Pair>, ps: seq<Pair>, names: seq<Bytes>, i: nat)
    requires i < |names| && Ordered(names, BytesLeq) && names[i] !in names[..i]
    requires PrintedUpTo(flat, ps, names[..i])
    ensures PrintedUpTo(flat + Named(names[i], Sort(Values(ps, names[i]), BytesLeq)), ps, names[..i + 1])
  {
    BytesOrder();
    var name := names[i];
    var values := Sort(Values(ps, name), BytesLeq);
    SortSorts(Values(ps, name), BytesLeq);
    assert names[..i + 1] == names[..i] + [name];
    forall p: Pair
      ensures multiset(flat + Named(name, values))[p] == if p.name in names[..i + 1] then multiset(ps)[p] else 0
    {
      NextCounts(flat, ps, names[..i], name, values, p);
    }
    forall j, k | 0 <= j < |flat| && 0 <= k < |values|
      ensures PairLeq(flat[j], Named(name, values)[k])
    {
      NextAfter(flat, ps, names[..i], name, values, j, k);
    }
    OrderedOnto(flat, Named(name, values));
  }

  lemma OrderedOnto(a: seq<Pair>, b: seq<Pair>)
    requires Ordered(a, PairLeq) && Ordered(b, PairLeq)
    requires forall j, k :: 0 <= j < |a| && 0 <= k < |b| ==> PairLeq(a[j], b[k])
    ensures Ordered(a + b, PairLeq)
  {
  }

  method PrintName(name: Bytes, values: seq<Bytes>) returns (parts: seq<string>)
    ensures parts == Printed(Named(name, values))
  {
    parts := [];
    for j := 0 to |values|
      invariant parts == Printed(Named(name, values[..j]))
    {
      parts := parts + [Escape(name) + "=" + Escape(values[j])];
    }
    assert values[..|values|] == values;
  }

  lemma {:induction false} NotBefore(names: seq<Bytes>, keys: set<Bytes>, i: nat)
    requires i < |names| && multiset(names) == multiset(keys)
    ensures names[i] in keys && names[i] !in names[..i]
  {
    assert names[i] in multiset(names);
    assert names == names[..i] + [names[i]] + names[i + 1..];
    assert multiset(names)[names[i]] == multiset(names[..i])[names[i]] + 1 + multiset(names[i + 1..])[names[i]];
  }

  lemma {:induction false} NamesCover(q: map<Bytes, seq<Bytes>>, ps: seq<Pair>, names: seq<Bytes>)
    requires Grouped(q, ps) && multiset(names) == multiset(q.Keys)
    ensures forall p :: p in ps ==> p.name in names
  {
    forall p | p in ps
      ensures p.name in names
    {
      ValuesCount(ps, p.name, p.value);
      assert p in multiset(ps);
      assert p.name in multiset(names);
    }
  }

  /** The pairs of the first names, as they are printed. */
  ghost function Flat(ps: seq<Pair>, names: seq<Bytes>): seq<Pair> {
    if names == [] then []
    else
      var n := |names| - 1;
      Flat(ps, names[..n]) + Named(names[n], Sort(Values(ps, names[n]), BytesLeq))
  }

  lemma {:induction false} FlatPrinted(ps: seq<Pair>, names: seq<Bytes>, keys: set<Bytes>, i: nat)
    requires i <= |names| && Ordered(names, BytesLeq) && multiset(names) == multiset(keys)
    ensures PrintedUpTo(Flat(ps, names[..i]), ps, names[..i])
  {
    if i > 0 {
      FlatPrinted(ps, names, keys, i - 1);
      NotBefore(names, keys, i - 1);
      NextName(Flat(ps, names[..i - 1]), ps, names, i - 1);
      FlatGrows(ps, names, i - 1);
    }
  }

  lemma {:induction false} FlatGrows(ps: seq<Pair>, names: seq<Bytes>, i: nat)
    requires i < |names|
    ensures Flat(ps, names[..i + 1]) == Flat(ps, names[..i]) + Named(names[i], Sort(Values(ps, names[i]), BytesLeq))
  {
    assert names[..i + 1][..i] == names[..i];
  }

  lemma {:induction false} FlatNext(ps: seq<Pair>, names: seq<Bytes>, i: nat)
    requires i < |names|
    ensures Printed(Flat(ps, names[..i + 1])) ==
      Printed(Flat(ps, names[..i])) + Printed(Named(names[i], Sort(Values(ps, names[i]), BytesLeq)))
  {
    assert names[..i + 1][..i] == names[..i];
  }

  /** Names sorted, the values of each sorted, each pair printed: the canonical form of the pairs, however
      they came. */
  method AwsCanonicalQuery(ps: seq<Pair>) returns (s: string)
    ensures s == CanonicalQuery(ps)
  {
    var q := Query(ps);
    var names := SortedNames(q);
    var parts: seq<string> := [];
    for i := 0 to |names|
      invariant parts == Printed(Flat(ps, names[..i]))
    {
      NotBefore(names, q.Keys, i);
      var vals := Sort(q[names[i]], BytesLeq);
      var more := PrintName(names[i], vals);
      FlatNext(ps, names, i);
      parts := parts + more;
    }
    assert names[..|names|] == names;
    FlatPrinted(ps, names, q.Keys, |names|);
    NamesCover(q, ps, names);
    WholeQuery(Flat(ps, names), ps, names);
    s := Join(parts, "&");
  }

  lemma {:induction false} WholeQuery(flat: seq<Pair>, ps: seq<Pair>, names: seq<Bytes>)
    requires PrintedUpTo(flat, ps, names) && forall p :: p in ps ==> p.name in names
    ensures Join(Printed(flat), "&") == CanonicalQuery(ps)
  {
    PairOrder();
    SortSorts(ps, PairLeq);
    forall p: Pair
      ensures multiset(flat)[p] == multiset(ps)[p]
    {
      assert p in ps <==> p in multiset(ps);
    }
    assert multiset(flat) == multiset(ps);
    OrderedUnique(flat, Sort(ps, PairLeq), PairLeq);
  }
}
