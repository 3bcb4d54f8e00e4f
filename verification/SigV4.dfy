/** The canonical request of AWS Signature Version 4: the text whose digest is signed, and exactly which
    requests share it. */
module SigV4 {
  import opened Lists
  import opened Text
  import opened Joining
  import opened Orders
  import opened AwsQuery

  // ---- header values ----

  /** Where the word at the start of v ends. */
  function WordEnd(v: string): (n: nat)
    ensures n <= |v| && (v != [] && Inked(v[0]) ==> n > 0)
    ensures forall i :: 0 <= i < n ==> Inked(v[i])
  {
    if v == [] || IsSpace(v[0]) then 0 else 1 + WordEnd(v[1..])
  }

  /** strings.Fields. */
  function Fields(v: string): seq<string>
    decreases |v|
  {
    if v == [] then []
    else if IsSpace(v[0]) then Fields(v[1..])
    else [v[..WordEnd(v)]] + Fields(v[WordEnd(v)..])
  }

  function TrimValue(v: string): string { Join(Fields(v), " ") }

  predicate IsWord(w: string) { w != "" && forall i :: 0 <= i < |w| ==> Inked(w[i]) }

  lemma {:induction false} FieldsAreWords(v: string)
    ensures forall i :: 0 <= i < |Fields(v)| ==> IsWord(Fields(v)[i])
    decreases |v|
  {
    if v != [] {
      FieldsAreWords(if IsSpace(v[0]) then v[1..] else v[WordEnd(v)..]);
    }
  }

  lemma {:induction false} WordEndIs(w: string, rest: string)
    requires IsWord(w) && (rest == "" || IsSpace(rest[0]))
    ensures WordEnd(w + rest) == |w|
  {
    var v := w + rest;
    if |w| == 1 {
      assert v[1..] == rest;
    } else {
      assert v[1..] == w[1..] + rest;
      WordEndIs(w[1..], rest);
    }
  }

  /** The first word comes off. */
  lemma {:induction false} FieldsStep(w: string, rest: string)
    requires IsWord(w) && (rest == "" || IsSpace(rest[0]))
    ensures Fields(w + rest) == [w] + if rest == "" then [] else Fields(rest[1..])
  {
    var v := w + rest;
    WordEndIs(w, rest);
    assert v[0] == w[0] && v[..|w|] == w && v[|w|..] == rest;
    assert Fields(rest) == if rest == "" then [] else Fields(rest[1..]);
  }

  lemma {:induction false} FieldsOfJoin(words: seq<string>)
    requires forall i :: 0 <= i < |words| ==> IsWord(words[i])
    ensures Fields(Join(words, " ")) == words
  {
    if words != [] {
      var w, more := words[0], words[1..];
      assert words == [w] + more;
      if more == [] {
        FieldsStep(w, "");
        assert w + "" == w;
      } else {
        var rest := " " + Join(more, " ");
        assert rest[1..] == Join(more, " ");
        assert w + " " + Join(more, " ") == w + rest;
        FieldsStep(w, rest);
        FieldsOfJoin(more);
      }
    }
  }

  /** Trimming keeps a value's words, in order, and nothing else: two values trim alike exactly when they have
      the same words, and trimming again changes nothing. */
  lemma {:induction false} TrimExactly(v: string, w: string)
    ensures TrimValue(v) == TrimValue(w) <==> Fields(v) == Fields(w)
    ensures Fields(TrimValue(v)) == Fields(v) && TrimValue(TrimValue(v)) == TrimValue(v)
  {
    FieldsAreWords(v);
    FieldsAreWords(w);
    FieldsOfJoin(Fields(v));
    FieldsOfJoin(Fields(w));
  }

  lemma {:induction false} TrimPlain(v: string)
    ensures Free(TrimValue(v), '\n')
  {
    FieldsAreWords(v);
    forall i | 0 <= i < |Fields(v)|
      ensures Free(Fields(v)[i], '\n')
    {
      assert IsWord(Fields(v)[i]);
    }
    JoinFree(Fields(v), " ", '\n');
  }

  // ---- signed headers ----

  type Headers = map<string, string>

  /** The elements of a set, in some order. */
  ghost function Enumerated(s: set<string>): (r: seq<string>)
    ensures multiset(r) == multiset(s)
  {
    if s == {} then []
    else
      var x :| x in s;
      assert s == (s - {x}) + {x};
      Enumerated(s - {x}) + [x]
  }

  /** The names of a set in order. */
  ghost function InOrder(s: set<string>): (names: seq<string>)
    ensures forall n :: n in names <==> n in s
  {
    InOrderIs(s);
    Sort(Enumerated(s), StringLeq)
  }

  lemma {:induction false} InOrderIs(s: set<string>)
    ensures var names := Sort(Enumerated(s), StringLeq);
            Ordered(names, StringLeq) && multiset(names) == multiset(s) && forall n :: n in names <==> n in s
  {
    StringOrder();
    SortSorts(Enumerated(s), StringLeq);
    var names := Sort(Enumerated(s), StringLeq);
    assert forall n :: n in names <==> n in multiset(names);
  }

  function HeaderLine(name: string, value: string): string { name + ":" + TrimValue(value) }

  function HeaderLines(names: seq<string>, values: Headers): (lines: seq<string>)
    requires forall i :: 0 <= i < |names| ==> names[i] in values
    ensures |lines| == |names| && forall i :: 0 <= i < |names| ==> lines[i] == HeaderLine(names[i], values[names[i]])
  {
    seq(|names|, i requires 0 <= i < |names| => HeaderLine(names[i], values[names[i]]))
  }

  ghost function Lines(values: Headers): seq<string> { HeaderLines(InOrder(values.Keys), values) }

  method SortedKeys(values: Headers) returns (names: seq<string>)
    ensures names == InOrder(values.Keys)
  {
    var keys: seq<string> := [];
    var left := values.Keys;
    while left != {}
      invariant left <= values.Keys && multiset(keys) == multiset(values.Keys - left)
      decreases left
    {
      var n :| n in left;
      assert values.Keys - (left - {n}) == (values.Keys - left) + {n};
      left := left - {n};
      keys := keys + [n];
    }
    assert values.Keys - left == values.Keys;
    StringOrder();
    SortSorts(keys, StringLeq);
    names := Sort(keys, StringLeq);
    InOrderIs(values.Keys);
    OrderedUnique(names, InOrder(values.Keys), StringLeq);
  }

  method CanonicalHeaders(names: seq<string>, values: Headers) returns (s: string)
    requires forall i :: 0 <= i < |names| ==> names[i] in values
    ensures s == Block(HeaderLines(names, values), "\n")
  {
    s := "";
    for i := 0 to |names|
      invariant s == Block(HeaderLines(names[..i], values), "\n")
    {
      var line := names[i] + ":" + TrimValue(values[names[i]]);
      BlockSnoc(HeaderLines(names[..i], values), line, "\n");
      assert HeaderLines(names[..i + 1], values) == HeaderLines(names[..i], values) + [line];
      s := s + line + "\n";
    }
    assert names[..|names|] == names;
  }

  /** The same names, with the same words in the value of each. */
  ghost predicate SameHeaders(a: Headers, b: Headers) {
    a.Keys == b.Keys && forall n :: n in a ==> Fields(a[n]) == Fields(b[n])
  }

  lemma {:induction false} SameHeadersAlike(a: Headers, b: Headers)
    requires SameHeaders(a, b)
    ensures Lines(a) == Lines(b)
  {
    forall n | n in a
      ensures TrimValue(a[n]) == TrimValue(b[n])
    {
      TrimExactly(a[n], b[n]);
    }
  }

  lemma {:induction false} LineTells(n: string, v: string, m: string, w: string)
    requires Free(n, ':') && Free(m, ':') && HeaderLine(n, v) == HeaderLine(m, w)
    ensures n == m && Fields(v) == Fields(w)
  {
    SplitUnique(n, m, TrimValue(v), TrimValue(w), ':');
    TrimExactly(v, w);
  }

  lemma {:induction false} HeaderLinesTell(x: seq<string>, a: Headers, y: seq<string>, b: Headers)
    requires (forall n :: n in x <==> n in a) && (forall n :: n in y <==> n in b)
    requires (forall n :: n in a ==> Free(n, ':')) && (forall n :: n in b ==> Free(n, ':'))
    requires HeaderLines(x, a) == HeaderLines(y, b)
    ensures SameHeaders(a, b)
  {
    assert |x| == |HeaderLines(x, a)| == |y|;
    forall i | 0 <= i < |x|
      ensures x[i] == y[i] && Fields(a[x[i]]) == Fields(b[x[i]])
    {
      assert x[i] in a && y[i] in b;
      assert HeaderLines(x, a)[i] == HeaderLines(y, b)[i];
      LineTells(x[i], a[x[i]], y[i], b[y[i]]);
    }
    assert x == y;
  }

  lemma {:induction false} LinesTell(a: Headers, b: Headers)
    requires (forall n :: n in a ==> Free(n, ':')) && (forall n :: n in b ==> Free(n, ':'))
    requires Lines(a) == Lines(b)
    ensures SameHeaders(a, b)
  {
    HeaderLinesTell(InOrder(a.Keys), a, InOrder(b.Keys), b);
  }

  // ---- the text ----

  /** The parts of a canonical request; the headers by line. */
  datatype Parts = Parts(verb: string, path: string, query: string, lines: seq<string>, names: string, digest: string)

  function Written(p: Parts): string { Join([p.verb, p.path, p.query, Block(p.lines, "\n"), p.names, p.digest], "\n") }

  ghost predicate OneLine(p: Parts) {
    && Free(p.verb, '\n') && Free(p.path, '\n') && Free(p.query, '\n') && Free(p.names, '\n') && Free(p.digest, '\n')
    && forall i :: 0 <= i < |p.lines| ==> Free(p.lines[i], '\n')
  }

  function ByLine(p: Parts): seq<string> { [p.verb, p.path, p.query] + (p.lines + ["", p.names, p.digest]) }

  lemma {:induction false} BlockInJoin(top: seq<string>, lines: seq<string>, rest: seq<string>, sep: string)
    requires rest != []
    ensures Join(top + ([Block(lines, sep)] + rest), sep) == Join(top + (lines + ([""] + rest)), sep)
  {
    var block, tail := Block(lines, sep), Join(rest, sep);
    JoinBlock(top, [block] + rest, sep);
    JoinBlock(top, lines + ([""] + rest), sep);
    JoinBlock(lines, [""] + rest, sep);
    JoinCons(block, rest, sep);
    JoinCons("", rest, sep);
    assert block + sep + tail == block + ("" + sep + tail);
  }

  lemma {:induction false} WrittenByLine(p: Parts)
    ensures Written(p) == Join(ByLine(p), "\n")
  {
    var top, rest, block := [p.verb, p.path, p.query], [p.names, p.digest], Block(p.lines, "\n");
    BlockInJoin(top, p.lines, rest, "\n");
    assert top + ([block] + rest) == [p.verb, p.path, p.query, block, p.names, p.digest];
    assert [""] + rest == ["", p.names, p.digest];
  }

  lemma {:induction false} WrittenInjective(p: Parts, q: Parts)
    requires OneLine(p) && OneLine(q) && Written(p) == Written(q)
    ensures p == q
  {
    WrittenByLine(p);
    WrittenByLine(q);
    JoinInjective(ByLine(p), ByLine(q), '\n');
    var n := |p.lines|;
    assert |ByLine(p)| == n + 6 && |ByLine(q)| == |q.lines| + 6;
    assert ByLine(p)[0] == ByLine(q)[0] && ByLine(p)[1] == ByLine(q)[1] && ByLine(p)[2] == ByLine(q)[2];
    assert p.lines == ByLine(p)[3..n + 3] && q.lines == ByLine(q)[3..n + 3];
    assert ByLine(p)[n + 4] == ByLine(q)[n + 4] && ByLine(p)[n + 5] == ByLine(q)[n + 5];
  }

  // ---- the request ----

  /** A request about to be signed: its headers by lower-case name, and its payload's digest in hexadecimal. */
  datatype Request = Request(verb: string, host: string, path: string, query: seq<Pair>,
                             headers: map<string, seq<string>>, digest: string)

  function ContentType(r: Request): string {
    if "content-type" in r.headers && r.headers["content-type"] != [] then r.headers["content-type"][0] else ""
  }

  predicate IsAmz(name: string) { "x-amz-" <= name }

  predicate IsSigned(r: Request, name: string) {
    name == "host" || (name == "content-type" && ContentType(r) != "") || (name in r.headers && IsAmz(name))
  }

  /** The host, the content type if there is one, and every x-amz- header, its values joined. */
  function Signed(r: Request): Headers {
    map n | n in {"host", "content-type"} + r.headers.Keys && IsSigned(r, n) ::
      if n == "host" then r.host else if n == "content-type" then ContentType(r) else Join(r.headers[n], ",")
  }

  function CanonicalPath(r: Request): string { if r.path != "" then r.path else "/" }

  ghost function PartsOf(r: Request): Parts {
    Parts(r.verb, CanonicalPath(r), CanonicalQuery(r.query), Lines(Signed(r)), Join(InOrder(Signed(r).Keys), ";"),
      r.digest)
  }

  ghost function CanonicalRequest(r: Request): string { Written(PartsOf(r)) }

  method SignedValues(r: Request) returns (values: Headers)
    ensures values == Signed(r)
  {
    values := map["host" := r.host];
    if ContentType(r) != "" {
      values := values["content-type" := ContentType(r)];
    }
    var left := r.headers.Keys;
    while left != {}
      invariant left <= r.headers.Keys
      invariant forall n :: n in values ==> n in Signed(r) && values[n] == Signed(r)[n]
      invariant forall n :: n in Signed(r) && n !in values ==> n in left && IsAmz(n)
      decreases left
    {
      var n :| n in left;
      left := left - {n};
      if IsAmz(n) {
        assert n[0] == 'x' && "host"[0] == 'h' && "content-type"[0] == 'c';
        values := values[n := Join(r.headers[n], ",")];
      }
    }
  }

  /** What signAWSv4 builds before it takes any digest. */
  method Canonicalize(r: Request) returns (s: string)
    ensures s == CanonicalRequest(r)
  {
    var values := SignedValues(r);
    var names := SortedKeys(values);
    var headers := CanonicalHeaders(names, values);
    var query := AwsCanonicalQuery(r.query);
    s := Join([r.verb, CanonicalPath(r), query, headers, Join(names, ";"), r.digest], "\n");
  }

  // ---- which requests share a text ----

  /** No line break in a method, a path or a digest, and no colon or line break in a header's name. */
  ghost predicate Transportable(r: Request) {
    && Free(r.verb, '\n') && Free(r.path, '\n') && Free(r.digest, '\n')
    && forall n :: n in Signed(r) ==> Free(n, ':') && Free(n, '\n')
  }

  ghost predicate SameSigned(a: Request, b: Request) {
    && a.verb == b.verb && CanonicalPath(a) == CanonicalPath(b) && multiset(a.query) == multiset(b.query)
    && SameHeaders(Signed(a), Signed(b)) && a.digest == b.digest
  }

  lemma {:induction false} QueryPlain(ps: seq<Pair>)
    ensures Free(CanonicalQuery(ps), '\n')
  {
    var parts := Printed(Sort(ps, PairLeq));
    forall i | 0 <= i < |parts|
      ensures Free(parts[i], '\n')
    {
      PrintPairPlain(Sort(ps, PairLeq)[i]);
    }
    JoinFree(parts, "&", '\n');
  }

  lemma {:induction false} LinesPlain(values: Headers)
    requires forall n :: n in values ==> Free(n, '\n')
    ensures forall i :: 0 <= i < |Lines(values)| ==> Free(Lines(values)[i], '\n')
    ensures Free(Join(InOrder(values.Keys), ";"), '\n')
  {
    var names := InOrder(values.Keys);
    forall i | 0 <= i < |names|
      ensures Free(names[i], '\n') && Free(Lines(values)[i], '\n')
    {
      assert names[i] in values;
      TrimPlain(values[names[i]]);
    }
    JoinFree(names, ";", '\n');
  }

  lemma {:induction false} PartsPlain(r: Request)
    requires Transportable(r)
    ensures OneLine(PartsOf(r))
  {
    QueryPlain(r.query);
    LinesPlain(Signed(r));
  }

  /** Two requests have one canonical request exactly when they agree on the method, the path, the pairs of
      the query each as often, the headers signed and the words of each, and the payload's digest. */
  lemma {:induction false} CanonicalExactly(a: Request, b: Request)
    requires Transportable(a) && Transportable(b)
    ensures CanonicalRequest(a) == CanonicalRequest(b) <==> SameSigned(a, b)
  {
    QueryExactly(a.query, b.query);
    if CanonicalRequest(a) == CanonicalRequest(b) {
      PartsPlain(a);
      PartsPlain(b);
      WrittenInjective(PartsOf(a), PartsOf(b));
      LinesTell(Signed(a), Signed(b));
    }
    if SameSigned(a, b) {
      SameHeadersAlike(Signed(a), Signed(b));
    }
  }
}
