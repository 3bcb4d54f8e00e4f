/** Which of a channel's connections cover a URL, and in what order: whose credential a request would carry. */
module ProxyMatch {
  import opened Lists
  import opened Text
  import opened Joining
  import opened Orders
  import opened Urls

  /** A connection as it is saved. A personal one spends the asker's own account; serves is the paths its
      preset names as its own service. */
  datatype Conn = Conn(id: int, personal: bool, hosts: seq<string>, prefixes: seq<string>, methods: seq<string>,
                       serves: seq<string>)

  /** What a channel or a tier may reach: connections by rank, and hosts that take no credential. */
  datatype Access = Access(rules: seq<Conn>, domains: seq<string>)

  /** A connection that covers a URL, and the length of the path it claims. */
  datatype Covered = Covered(conn: Conn, spec: nat)

  // ---- one connection ----

  /** A leftmost "*." stands for any subdomain. */
  predicate HostMatch(pattern: string, host: string) {
    var p, h := Lower(pattern), Lower(host);
    if "*." <= p then Ends(h, p[1..]) && h != p[2..] else p == h
  }

  function TrimSlashes(s: string): string {
    if s != "" && s[|s| - 1] == '/' then TrimSlashes(s[..|s| - 1]) else s
  }

  predicate Starts(prefixes: seq<string>, path: string) { exists i :: 0 <= i < |prefixes| && prefixes[i] <= path }

  /** The length of the longest of the prefixes that the path starts with, but for slashes at its end. */
  function Spec(prefixes: seq<string>, path: string): nat {
    if prefixes == [] then 0
    else
      var n := |prefixes| - 1;
      Max(Spec(prefixes[..n], path), if prefixes[n] <= path then |TrimSlashes(prefixes[n])| else 0)
  }

  predicate Covers(c: Conn, verb: string, u: Url) {
    && (exists i :: 0 <= i < |c.hosts| && HostMatch(c.hosts[i], u.host))
    && (c.prefixes == [] || Starts(c.prefixes, u.path))
    && (c.methods == [] || exists i :: 0 <= i < |c.methods| && Upper(c.methods[i]) == Upper(verb))
  }

  // ---- dot segments ----

  predicate DotSegment(segment: string) { ReplaceAll(Lower(segment), "%2e", ".") in [".", ".."] }

  /** A "." or ".." among the path's segments. */
  predicate Dots(path: string)
    decreases |path|
  {
    var k := Cut(path, '/');
    DotSegment(path[..k]) || (k < |path| && Dots(path[k + 1..]))
  }

  // ---- all of them, in order ----

  function Candidates(rules: seq<Conn>, verb: string, u: Url): seq<Covered> {
    if rules == [] then []
    else
      var n := |rules| - 1;
      var c := rules[n];
      Candidates(rules[..n], verb, u) + if Covers(c, verb, u) then [Covered(c, Spec(c.prefixes, u.path))] else []
  }

  /** The longer claim first, and of two alike the asker's own account. */
  predicate Precedes(a: Covered, b: Covered) {
    a.spec > b.spec || (a.spec == b.spec && (a.conn.personal || !b.conn.personal))
  }

  function Cover(acc: Access, verb: string, u: Url): seq<Covered> {
    if Dots(u.path) then [] else Sort(Candidates(acc.rules, verb, u), Precedes)
  }

  /** Nothing covers the URL, not even a host that takes no credential. */
  predicate Blocked(acc: Access, verb: string, u: Url) {
    Cover(acc, verb, u) == [] &&
      (Dots(u.path) || forall i :: 0 <= i < |acc.domains| ==> !HostMatch(acc.domains[i], u.host))
  }

  method HasDots(path: string) returns (dots: bool)
    ensures dots == Dots(path)
  {
    var rest := path;
    while true
      invariant Dots(path) == Dots(rest)
      decreases |rest|
    {
      var k := Cut(rest, '/');
      if DotSegment(rest[..k]) {
        return true;
      }
      if k == |rest| {
        return false;
      }
      rest := rest[k + 1..];
    }
  }

  /** Whether a connection's prefixes let a path through, and the longest that does. */
  method Claim(prefixes: seq<string>, path: string) returns (ok: bool, spec: nat)
    ensures ok == Starts(prefixes, path) && spec == Spec(prefixes, path)
  {
    ok, spec := false, 0;
    for i := 0 to |prefixes|
      invariant ok == Starts(prefixes[..i], path) && spec == Spec(prefixes[..i], path)
    {
      assert prefixes[..i + 1][..i] == prefixes[..i] && prefixes[..i + 1][i] == prefixes[i];
      if prefixes[i] <= path {
        ok, spec := true, Max(spec, |TrimSlashes(prefixes[i])|);
      }
    }
    assert prefixes[..|prefixes|] == prefixes;
  }

  method MethodOk(methods: seq<string>, verb: string) returns (ok: bool)
    ensures ok <==> exists i :: 0 <= i < |methods| && Upper(methods[i]) == Upper(verb)
  {
    ok := false;
    for i := 0 to |methods|
      invariant ok <==> exists k :: 0 <= k < i && Upper(methods[k]) == Upper(verb)
    {
      if Upper(methods[i]) == Upper(verb) {
        ok := true;
      }
    }
  }

  /** One connection against a URL. */
  method CoverOne(c: Conn, verb: string, u: Url) returns (hit: bool, spec: nat)
    ensures hit == Covers(c, verb, u) && (hit ==> spec == Spec(c.prefixes, u.path))
  {
    for i := 0 to |c.hosts|
      invariant forall k :: 0 <= k < i ==> HostMatch(c.hosts[k], u.host) ==> !Covers(c, verb, u)
    {
      if !HostMatch(c.hosts[i], u.host) {
        continue;
      }
      spec := 0;
      var ok;
      if |c.prefixes| > 0 {
        ok, spec := Claim(c.prefixes, u.path);
        if !ok {
          continue;
        }
      }
      if |c.methods| > 0 {
        ok := MethodOk(c.methods, verb);
        if !ok {
          continue;
        }
      }
      return true, spec;
    }
    return false, 0;
  }

  method Collect(rules: seq<Conn>, verb: string, u: Url) returns (cands: seq<Covered>)
    ensures cands == Candidates(rules, verb, u)
  {
    cands := [];
    for i := 0 to |rules|
      invariant cands == Candidates(rules[..i], verb, u)
    {
      assert rules[..i + 1][..i] == rules[..i];
      var hit, spec := CoverOne(rules[i], verb, u);
      if hit {
        cands := cands + [Covered(rules[i], spec)];
      }
    }
    assert rules[..|rules|] == rules;
  }

  /** coveringConns: the connections in the order they are to be tried, and whether the URL is refused. */
  method CoveringConns(acc: Access, verb: string, u: Url) returns (cov: seq<Covered>, blocked: bool)
    ensures cov == Cover(acc, verb, u) && blocked == Blocked(acc, verb, u)
  {
    var dots := HasDots(u.path);
    if dots {
      return [], true;
    }
    var cands := Collect(acc.rules, verb, u);
    CoverIs(acc, verb, u);
    if cands != [] {
      return Sort(cands, Precedes), false;
    }
    for i := 0 to |acc.domains|
      invariant forall k :: 0 <= k < i ==> !HostMatch(acc.domains[k], u.host)
    {
      if HostMatch(acc.domains[i], u.host) {
        return [], false;
      }
    }
    return [], true;
  }

  // ---- what the order is ----

  lemma {:induction false} CandidatesAre(rules: seq<Conn>, verb: string, u: Url, x: Covered)
    ensures x in Candidates(rules, verb, u) <==>
      x.conn in rules && Covers(x.conn, verb, u) && x.spec == Spec(x.conn.prefixes, u.path)
  {
    if rules != [] {
      var n := |rules| - 1;
      CandidatesAre(rules[..n], verb, u, x);
      assert rules == rules[..n] + [rules[n]];
    }
  }

  lemma {:induction false} CoverIs(acc: Access, verb: string, u: Url)
    ensures var cov, cands := Cover(acc, verb, u), Candidates(acc.rules, verb, u);
            Ordered(cov, Precedes) && (!Dots(u.path) ==> multiset(cov) == multiset(cands) && |cov| == |cands|)
  {
    SortSorts(Candidates(acc.rules, verb, u), Precedes);
    if !Dots(u.path) {
      var cov, cands := Cover(acc, verb, u), Candidates(acc.rules, verb, u);
      assert |cov| == |multiset(cov)| == |multiset(cands)| == |cands|;
    }
  }

  /** What the list of a URL without dot segments holds, and in what order: exactly the connections that cover
      it, the longest claim first and of two alike the asker's own account. */
  lemma {:induction false} CoverExactly(acc: Access, verb: string, u: Url, c: Conn)
    requires !Dots(u.path)
    ensures (exists i :: 0 <= i < |Cover(acc, verb, u)| && Cover(acc, verb, u)[i].conn == c) <==>
      c in acc.rules && Covers(c, verb, u)
    ensures forall i, j :: 0 <= i < j < |Cover(acc, verb, u)| ==>
      Precedes(Cover(acc, verb, u)[i], Cover(acc, verb, u)[j])
  {
    var cov, cands := Cover(acc, verb, u), Candidates(acc.rules, verb, u);
    CoverIs(acc, verb, u);
    var x := Covered(c, Spec(c.prefixes, u.path));
    CandidatesAre(acc.rules, verb, u, x);
    assert x in cov <==> x in multiset(cov);
    assert x in cands <==> x in multiset(cands);
    if i :| 0 <= i < |cov| && cov[i].conn == c {
      assert cov[i] in multiset(cov) && cov[i] in multiset(cands);
      CandidatesAre(acc.rules, verb, u, cov[i]);
    }
  }

  // ---- spaces around a URL ----

  /** No host or prefix ends in a space, or is empty: so prefixes are saved, and hosts but for one typed with a
      space before a slash. */
  predicate Spaceless(acc: Access) {
    forall i :: 0 <= i < |acc.rules| ==> Ink(acc.rules[i].hosts) && Ink(acc.rules[i].prefixes)
  }

  predicate Ink(texts: seq<string>) { forall i :: 0 <= i < |texts| ==> texts[i] != "" && !EndsSpaced(texts[i]) }

  lemma LowerSpaced(s: string)
    ensures EndsSpaced(Lower(s)) <==> EndsSpaced(s)
  {
  }

  lemma {:induction false} NoHostMatch(pattern: string, host: string)
    requires pattern != "" && !EndsSpaced(pattern) && (host == "" || EndsSpaced(host))
    ensures !HostMatch(pattern, host)
  {
    LowerSpaced(pattern);
    LowerSpaced(host);
  }

  lemma {:induction false} NoneCovers(rules: seq<Conn>, verb: string, u: Url)
    requires forall i :: 0 <= i < |rules| ==> Ink(rules[i].hosts)
    requires u.host == "" || EndsSpaced(u.host)
    ensures Candidates(rules, verb, u) == []
  {
    if rules != [] {
      var n := |rules| - 1;
      NoneCovers(rules[..n], verb, u);
      forall i | 0 <= i < |rules[n].hosts|
        ensures !HostMatch(rules[n].hosts[i], u.host)
      {
        NoHostMatch(rules[n].hosts[i], u.host);
      }
    }
  }

  lemma {:induction false} SpecPadded(prefixes: seq<string>, path: string, pad: string)
    requires Ink(prefixes) && Spaces(pad)
    ensures Spec(prefixes, path + pad) == Spec(prefixes, path) &&
      (Starts(prefixes, path + pad) <==> Starts(prefixes, path))
  {
    if prefixes != [] {
      var n := |prefixes| - 1;
      SpecPadded(prefixes[..n], path, pad);
      PrefixPadded(prefixes[n], path, pad);
      StartsSnoc(prefixes, path);
      StartsSnoc(prefixes, path + pad);
    }
  }

  lemma {:induction false} StartsSnoc(prefixes: seq<string>, path: string)
    requires prefixes != []
    ensures Starts(prefixes, path) <==> Starts(prefixes[..|prefixes| - 1], path) || prefixes[|prefixes| - 1] <= path
  {
    var n := |prefixes| - 1;
    if Starts(prefixes[..n], path) {
      var i :| 0 <= i < n && prefixes[..n][i] <= path;
      assert prefixes[i] <= path;
    }
    if i :| 0 <= i < |prefixes| && prefixes[i] <= path {
      assert i < n ==> prefixes[..n][i] <= path;
    }
  }

  lemma {:induction false} CandidatesPadded(rules: seq<Conn>, verb: string, host: string, path: string, pad: string)
    requires (forall i :: 0 <= i < |rules| ==> Ink(rules[i].prefixes)) && Spaces(pad)
    ensures Candidates(rules, verb, Url(host, path + pad)) == Candidates(rules, verb, Url(host, path))
  {
    if rules != [] {
      var n := |rules| - 1;
      CandidatesPadded(rules[..n], verb, host, path, pad);
      SpecPadded(rules[n].prefixes, path, pad);
    }
  }

  /** Spaces around a URL are never what a connection covers it by: the list for it as it is written, if there is
      one at all, is the list for it trimmed, if neither path has a dot segment. */
  lemma {:induction false} PaddingUnseen(net: Net, acc: Access, verb: string, raw: string)
    requires Spaceless(acc) && Read(net, raw).Some? && Read(net, Trim(raw)).Some?
    requires Cover(acc, verb, Read(net, raw).value) != [] && !Dots(Read(net, Trim(raw)).value.path)
    ensures Cover(acc, verb, Read(net, raw).value) == Cover(acc, verb, Read(net, Trim(raw)).value)
  {
    var u, v := Read(net, raw).value, Read(net, Trim(raw)).value;
    ReadPadded(net, raw);
    if u.host == "" || EndsSpaced(u.host) {
      NoneCovers(acc.rules, verb, u);
      assert false;
    }
    var pad := u.path[|v.path|..];
    assert u == Url(v.host, v.path + pad);
    CandidatesPadded(acc.rules, verb, v.host, v.path, pad);
  }
}
