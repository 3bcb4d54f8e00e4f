/** Replaying an approved plan: the recorded calls in order, each pinned to the connection it was matched to
    when it was recorded, stopping at the first that does not succeed. */
module GrantReplay {
  import opened Lists
  import opened Text
  import opened Joining
  import opened Orders
  import opened Urls
  import opened ProxyMatch

  /** A recorded call. conn is the connection it was matched to, 0 for none; mcp the connection of an MCP
      tool call, 0 for none; job whether it dispatches a fix job. */
  datatype GrantStep = GrantStep(conn: int, mcp: int, job: bool, verb: string, url: string)

  /** The access of the tier that answers, and what lies outside a replay. At step i: connected is whether the
      requester has signed in to a personal connection, refuses whether the request is turned down for what it
      says of itself or for its credential, status what the service returned to it (None for no answer), and
      ran whether a tool call or a job went through. */
  datatype World = World(
    net: Net,
    acc: Access,
    connected: (nat, Conn) -> bool,
    refuses: nat -> bool,
    status: nat -> Option<int>,
    ran: nat -> bool
  )

  predicate IsWrite(verb: string) { Upper(verb) !in ["GET", "HEAD", "OPTIONS"] }

  // ---- which connection a request goes out on ----

  /** The shared connections that may answer for a personal one nobody signed in to. */
  predicate StandsIn(c: Covered, spec: nat, path: string) {
    !c.conn.personal && (c.spec == spec || (c.spec == 0 && Starts(c.conn.serves, path)))
  }

  function StandIn(cov: seq<Covered>, spec: nat, path: string): (r: Option<Conn>)
    ensures r.None? <==> forall i :: 0 <= i < |cov| ==> !StandsIn(cov[i], spec, path)
    ensures r.Some? ==> exists i :: 0 <= i < |cov| && StandsIn(cov[i], spec, path) && cov[i].conn == r.value
  {
    if cov == [] then None
    else if StandsIn(cov[0], spec, path) then Some(cov[0].conn)
    else StandIn(cov[1..], spec, path)
  }

  /** The method a request is sent under: GET where none was written. */
  function SentVerb(s: GrantStep): string { if s.verb == "" then "GET" else Upper(s.verb) }

  datatype Going = Refused | Out(conn: Option<Conn>)

  /** What Proxy.Do makes of a confirmed call with no connection named: refused, or out on a connection or none. */
  function Goes(w: World, i: nat, s: GrantStep): Going {
    var read := Read(w.net, Trim(s.url));
    if read.None? || w.refuses(i) then Refused
    else
      var u := read.value;
      var cov := Cover(w.acc, SentVerb(s), u);
      if cov == [] then
        if Blocked(w.acc, SentVerb(s), u) then Refused else Out(None)
      else if cov[0].conn.personal && !w.connected(i, cov[0].conn) then
        var other := if IsWrite(SentVerb(s)) then None else StandIn(cov, cov[0].spec, u.path);
        if other.None? then Refused else Out(other)
      else Out(Some(cov[0].conn))
  }

  // ---- one step ----

  datatype End =
    | Unreadable
    | NotCovered
    | OtherConnection
    | Errored
    | BadStatus(status: int)
    | Went

  predicate Pinned(s: GrantStep) { s.conn != 0 && s.mcp == 0 }

  /** The check made before a pinned step: the tier still matches its URL to the connection recorded. */
  function PinCheck(w: World, s: GrantStep): Option<End> {
    if !Pinned(s) then None
    else
      var u := Read(w.net, s.url);
      if u.None? then Some(Unreadable)
      else
        var cov := Cover(w.acc, Upper(s.verb), u.value);
        if Blocked(w.acc, Upper(s.verb), u.value) then Some(NotCovered)
        else if cov == [] || cov[0].conn.id != s.conn then Some(OtherConnection)
        else None
  }

  /** How the call itself ends: a job or a tool call by its error alone, a request by its status too. */
  function CallEnd(w: World, i: nat, s: GrantStep): End {
    if s.job || s.mcp != 0 then
      if w.ran(i) then Went else Errored
    else if Goes(w, i, s).Refused? || w.status(i).None? then Errored
    else
      var status := w.status(i).value;
      if status != 0 && (status < 200 || status > 299) then BadStatus(status) else Went
  }

  function StepEnd(w: World, i: nat, s: GrantStep): End {
    if PinCheck(w, s).Some? then PinCheck(w, s).value else CallEnd(w, i, s)
  }

  /** What an attempted step sent, and on which connection. */
  datatype Attempt = Attempt(step: nat, going: Going)

  function AttemptOf(w: World, i: nat, s: GrantStep): Attempt {
    Attempt(i, if s.job || s.mcp != 0 then Out(None) else Goes(w, i, s))
  }

  // ---- the replay ----

  ghost predicate AllWent(w: World, calls: seq<GrantStep>, done: nat)
    requires done <= |calls|
  {
    forall k :: 0 <= k < done ==> StepEnd(w, k, calls[k]) == Went
  }

  /** Each of these steps passed its check, and was attempted. */
  ghost predicate AllMade(w: World, calls: seq<GrantStep>, attempts: seq<Attempt>) {
    |attempts| <= |calls|
    && forall k :: 0 <= k < |attempts| ==> attempts[k] == AttemptOf(w, k, calls[k]) && PinCheck(w, calls[k]).None?
  }

  method CheckPin(w: World, s: GrantStep) returns (stop: Option<End>)
    ensures stop == PinCheck(w, s)
  {
    if s.conn != 0 && s.mcp == 0 {
      var u := Read(w.net, s.url);
      if u.None? {
        return Some(Unreadable);
      }
      var cov, blocked := CoveringConns(w.acc, Upper(s.verb), u.value);
      if blocked {
        return Some(NotCovered);
      }
      if cov == [] || cov[0].conn.id != s.conn {
        return Some(OtherConnection);
      }
    }
    return None;
  }

  /** Runs the calls in order. What succeeded is a prefix of the plan; the replay is clean exactly when that
      is all of it; the step it stopped at is the first that did not succeed, and no later one is attempted. */
  method Replay(w: World, calls: seq<GrantStep>) returns (done: nat, err: Option<End>, attempts: seq<Attempt>)
    ensures done <= |calls| && AllWent(w, calls, done)
    ensures err.None? <==> done == |calls|
    ensures err.Some? ==> err.value != Went && err.value == StepEnd(w, done, calls[done])
    ensures |attempts| == if err.Some? && PinCheck(w, calls[done]).None? then done + 1 else done
    ensures AllMade(w, calls, attempts)
  {
    done, attempts := 0, [];
    for i := 0 to |calls|
      invariant done == i == |attempts| && AllWent(w, calls, i) && AllMade(w, calls, attempts)
    {
      var s := calls[i];
      var stop := CheckPin(w, s);
      if stop.Some? {
        return i, stop, attempts;
      }
      attempts := attempts + [AttemptOf(w, i, s)];
      var end := CallEnd(w, i, s);
      if end != Went {
        return i, Some(end), attempts;
      }
      done := done + 1;
    }
    err := None;
  }

  // ---- the pin ----

  function CoverOf(w: World, verb: string, url: string): seq<Covered> {
    match Read(w.net, url) case None => [] case Some(u) => Cover(w.acc, verb, u)
  }

  /** What the check before a pinned step looks at, and what the request itself is matched against: its method
      defaulted and its URL trimmed. */
  function CheckedCover(w: World, s: GrantStep): seq<Covered> { CoverOf(w, Upper(s.verb), s.url) }

  function SentCover(w: World, s: GrantStep): seq<Covered> { CoverOf(w, SentVerb(s), Trim(s.url)) }

  function SentPath(w: World, s: GrantStep): string {
    match Read(w.net, Trim(s.url)) case None => "" case Some(u) => u.path
  }

  predicate OnPin(g: Going, s: GrantStep) { g.Out? && g.conn.Some? && g.conn.value.id == s.conn }

  /** A connection the requester can use: a shared one, or their own once they signed in to it. */
  predicate Usable(w: World, i: nat, c: Conn) { !c.personal || w.connected(i, c) }

  /** The first connection that may answer for the first one is at k. */
  predicate StandsFirst(cov: seq<Covered>, spec: nat, path: string, k: nat) {
    k < |cov| && StandsIn(cov[k], spec, path) && forall j :: 0 <= j < k ==> !StandsIn(cov[j], spec, path)
  }

  lemma {:induction false} StandInIsFirst(cov: seq<Covered>, spec: nat, path: string, k: nat)
    requires StandsFirst(cov, spec, path, k)
    ensures StandIn(cov, spec, path) == Some(cov[k].conn)
  {
    if k > 0 {
      assert forall j :: 0 <= j < k - 1 ==> cov[1..][j] == cov[j + 1];
      StandInIsFirst(cov[1..], spec, path, k - 1);
    }
  }

  lemma {:induction false} SomeStandsFirst(cov: seq<Covered>, spec: nat, path: string) returns (k: nat)
    requires StandIn(cov, spec, path).Some?
    ensures StandsFirst(cov, spec, path, k)
  {
    if StandsIn(cov[0], spec, path) {
      k := 0;
    } else {
      var n := SomeStandsFirst(cov[1..], spec, path);
      k := n + 1;
      assert forall j :: 0 < j < k ==> cov[j] == cov[1..][j - 1];
    }
  }

  /** Which requests that go out go out on the connection recorded for them: those for which it is the first
      of the connections that cover the request as it is sent, if the requester can use that one, and the
      first that may stand in for it if not. */
  ghost predicate Holds(w: World, i: nat, s: GrantStep) {
    var cov := SentCover(w, s);
    cov != [] &&
    if Usable(w, i, cov[0].conn) then cov[0].conn.id == s.conn
    else exists k :: 0 <= k < |cov| && StandsFirst(cov, cov[0].spec, SentPath(w, s), k) && cov[k].conn.id == s.conn
  }

  lemma {:induction false} PinHeldExactly(w: World, i: nat, s: GrantStep)
    requires Goes(w, i, s).Out?
    ensures OnPin(Goes(w, i, s), s) <==> Holds(w, i, s)
  {
    var cov, path := SentCover(w, s), SentPath(w, s);
    if cov != [] && !Usable(w, i, cov[0].conn) {
      var k := SomeStandsFirst(cov, cov[0].spec, path);
      StandInIsFirst(cov, cov[0].spec, path, k);
      forall j | 0 <= j < |cov| && StandsFirst(cov, cov[0].spec, path, j)
        ensures cov[j].conn == cov[k].conn
      {
        StandInIsFirst(cov, cov[0].spec, path, j);
      }
    }
  }

  // ---- a step with a method ----

  /** Connection ids tell connections apart. */
  predicate Distinct(acc: Access) {
    forall i, j :: 0 <= i < |acc.rules| && 0 <= j < |acc.rules| && acc.rules[i].id == acc.rules[j].id ==>
      acc.rules[i] == acc.rules[j]
  }

  /** What a pinned step with a method was checked against is what its request is matched against, if it
      passes and goes out: spaces around its URL make no difference. */
  lemma {:induction false} CheckedIsSent(w: World, i: nat, s: GrantStep)
    requires Spaceless(w.acc) && Pinned(s) && s.verb != "" && PinCheck(w, s).None? && Goes(w, i, s).Out?
    ensures CheckedCover(w, s) == SentCover(w, s) != []
  {
    PaddingUnseen(w.net, w.acc, Upper(s.verb), s.url);
  }

  lemma {:induction false} CoverInRules(acc: Access, verb: string, u: Url, k: nat)
    requires k < |Cover(acc, verb, u)|
    ensures Cover(acc, verb, u)[k].conn in acc.rules
  {
    CoverExactly(acc, verb, u, Cover(acc, verb, u)[k].conn);
  }

  /** A pinned step with a method that passed its check: its request goes out on the connection recorded for it
      exactly when the requester can use that one. */
  lemma {:induction false} PinHeldWhenUsable(w: World, i: nat, s: GrantStep)
    requires Spaceless(w.acc) && Distinct(w.acc)
    requires Pinned(s) && s.verb != "" && PinCheck(w, s).None? && Goes(w, i, s).Out?
    ensures SentCover(w, s) != [] && (OnPin(Goes(w, i, s), s) <==> Usable(w, i, SentCover(w, s)[0].conn))
  {
    CheckedIsSent(w, i, s);
    PinHeldExactly(w, i, s);
    var cov, u := SentCover(w, s), Read(w.net, Trim(s.url)).value;
    if !Usable(w, i, cov[0].conn) {
      forall k | 0 <= k < |cov| && StandsFirst(cov, cov[0].spec, u.path, k)
        ensures cov[k].conn.id != s.conn
      {
        CoverInRules(w.acc, SentVerb(s), u, k);
        CoverInRules(w.acc, SentVerb(s), u, 0);
        assert cov[k].conn != cov[0].conn;
      }
    }
  }

  lemma WriteHasMethod(s: GrantStep)
    requires IsWrite(SentVerb(s))
    ensures s.verb != ""
  {
    assert Upper("GET") == "GET";
  }

  lemma {:induction false} CheckedFirst(w: World, s: GrantStep)
    requires Pinned(s) && PinCheck(w, s).None?
    ensures CheckedCover(w, s) != [] && CheckedCover(w, s)[0].conn.id == s.conn
  {
  }

  lemma {:induction false} WriteTakesFirst(w: World, i: nat, s: GrantStep)
    requires IsWrite(SentVerb(s)) && Goes(w, i, s).Out?
    ensures Goes(w, i, s) == Out(if SentCover(w, s) == [] then None else Some(SentCover(w, s)[0].conn))
  {
  }

  /** A write has no stand-in: it goes out on the first connection that covers it, and a pinned one that passed
      its check on the one recorded. */
  lemma {:induction false} PinnedWriteHeld(w: World, i: nat, s: GrantStep)
    requires IsWrite(SentVerb(s)) && Goes(w, i, s).Out?
    ensures OnPin(Goes(w, i, s), s) <==> SentCover(w, s) != [] && SentCover(w, s)[0].conn.id == s.conn
    ensures Spaceless(w.acc) && Pinned(s) && PinCheck(w, s).None? ==> OnPin(Goes(w, i, s), s)
  {
    WriteTakesFirst(w, i, s);
    if Spaceless(w.acc) && Pinned(s) && PinCheck(w, s).None? {
      WriteHasMethod(s);
      CheckedIsSent(w, i, s);
      CheckedFirst(w, s);
    }
  }

  /** Over a whole replay: which of the pinned requests that went out used the connection recorded for them,
      and that every write did, and every request with a method but for those pinned to a connection the
      requester cannot use. */
  lemma {:induction false} ReplayKeepsPins(w: World, calls: seq<GrantStep>, attempts: seq<Attempt>, k: nat)
    requires k < |attempts| <= |calls|
    requires forall i :: 0 <= i < |attempts| ==> attempts[i] == AttemptOf(w, i, calls[i]) && PinCheck(w, calls[i]).None?
    requires Pinned(calls[k]) && !calls[k].job && attempts[k].going.Out?
    ensures OnPin(attempts[k].going, calls[k]) <==> Holds(w, k, calls[k])
    ensures Spaceless(w.acc) && IsWrite(SentVerb(calls[k])) ==> OnPin(attempts[k].going, calls[k])
    ensures Spaceless(w.acc) && Distinct(w.acc) && calls[k].verb != "" ==>
              SentCover(w, calls[k]) != [] &&
              (OnPin(attempts[k].going, calls[k]) <==> Usable(w, k, SentCover(w, calls[k])[0].conn))
  {
    var s := calls[k];
    PinHeldExactly(w, k, s);
    if Spaceless(w.acc) && IsWrite(SentVerb(s)) {
      PinnedWriteHeld(w, k, s);
    }
    if Spaceless(w.acc) && Distinct(w.acc) && s.verb != "" {
      PinHeldWhenUsable(w, k, s);
    }
  }

  // ---- steps that stray ----

  /** A pinned step that passes its check, succeeds, and went out on another connection. */
  predicate Strays(w: World, s: GrantStep) {
    && Distinct(w.acc) && Pinned(s) && StepEnd(w, 0, s) == Went && Goes(w, 0, s).Out? && !OnPin(Goes(w, 0, s), s)
  }

  /** Two connections on one host, the requester signed in to neither, and a service that answers. */
  function Two(a: Conn, b: Conn): World {
    World(Net(authority => false, run => ""), Access([a, b], []), (i, c) => false, i => false, i => Some(200),
      i => true)
  }

  function As(c: Conn, path: string): Covered { Covered(c, Spec(c.prefixes, path)) }

  lemma CandidatesOfTwo(a: Conn, b: Conn, verb: string, u: Url)
    ensures Candidates([a, b], verb, u) == (if Covers(a, verb, u) then [As(a, u.path)] else []) +
                                           (if Covers(b, verb, u) then [As(b, u.path)] else [])
  {
    var none: seq<Covered> := [];
    assert [a, b][..1] == [a] && [a, b][1] == b && [a][..0] == [] && [a][0] == a;
    assert Candidates([a], verb, u) == none + if Covers(a, verb, u) then [As(a, u.path)] else [];
  }

  lemma SortOfTwo(x: Covered, y: Covered)
    ensures Sort([x], Precedes) == [x]
    ensures Sort([x, y], Precedes) == if Precedes(x, y) then [x, y] else [y, x]
  {
    assert [x, y][1..] == [y] && [y][1..] == [] && [x][1..] == [];
    assert Sort([y], Precedes) == [y];
  }

  lemma {:induction false} BothCover(a: Conn, b: Conn, verb: string, u: Url)
    requires !Dots(u.path) && Covers(a, verb, u) && Covers(b, verb, u)
    ensures var x, y := As(a, u.path), As(b, u.path);
            Cover(Access([a, b], []), verb, u) == if Precedes(x, y) then [x, y] else [y, x]
  {
    CandidatesOfTwo(a, b, verb, u);
    assert Candidates([a, b], verb, u) == [As(a, u.path), As(b, u.path)];
    SortOfTwo(As(a, u.path), As(b, u.path));
  }

  lemma {:induction false} OneCovers(a: Conn, b: Conn, verb: string, u: Url)
    requires !Dots(u.path) && Covers(a, verb, u) != Covers(b, verb, u)
    ensures Cover(Access([a, b], []), verb, u) == [As(if Covers(a, verb, u) then a else b, u.path)]
  {
    var x := As(if Covers(a, verb, u) then a else b, u.path);
    CandidatesOfTwo(a, b, verb, u);
    assert Candidates([a, b], verb, u) == [x];
    SortOfTwo(x, x);
  }

  lemma {:induction false} GoesToFirst(w: World, s: GrantStep, v: Url)
    requires Read(w.net, Trim(s.url)) == Some(v) && !w.refuses(0)
    requires Cover(w.acc, SentVerb(s), v) != [] && !Cover(w.acc, SentVerb(s), v)[0].conn.personal
    ensures Goes(w, 0, s) == Out(Some(Cover(w.acc, SentVerb(s), v)[0].conn))
  {
  }

  lemma {:induction false} GoesToStandIn(w: World, s: GrantStep, v: Url, x: Covered, y: Covered)
    requires Read(w.net, Trim(s.url)) == Some(v) && !w.refuses(0) && !IsWrite(SentVerb(s))
    requires Cover(w.acc, SentVerb(s), v) == [x, y] && x.conn.personal && !w.connected(0, x.conn)
    requires !y.conn.personal && y.spec == x.spec
    ensures Goes(w, 0, s) == Out(Some(y.conn))
  {
    StandInIsFirst([x, y], x.spec, v.path, 1);
  }

  /** Checked against c and sent to d. */
  lemma {:induction false} StraysTo(a: Conn, b: Conn, s: GrantStep, u: Url, c: Conn, d: Conn)
    requires a.id != b.id && Pinned(s) && !s.job && c.id == s.conn && d.id != s.conn
    requires Read(Two(a, b).net, s.url) == Some(u)
    requires Cover(Access([a, b], []), Upper(s.verb), u) != [] &&
      Cover(Access([a, b], []), Upper(s.verb), u)[0].conn == c
    requires Goes(Two(a, b), 0, s) == Out(Some(d))
    ensures Strays(Two(a, b), s)
  {
    var w := Two(a, b);
    assert w.acc.rules[0] == a && w.acc.rules[1] == b && |w.acc.rules| == 2;
    assert Distinct(w.acc);
    assert PinCheck(w, s) == None;
    assert w.status(0) == Some(200);
    assert StepEnd(w, 0, s) == Went;
  }

  /** A host and a path that a URL can be written from as they are. */
  predicate Site(host: string, path: string) {
    && host != "" && PlainIn(host, "#?/@:[") && !EndsSpaced(host)
    && path != "" && path[0] == '/' && PlainIn(path, "#?") && !EndsSpaced(path) && TrimSlashes(path) != "" &&
         !Dots(path)
  }

  lemma {:induction false} SiteReads(net: Net, host: string, path: string)
    requires Site(host, path) && !net.refused(host)
    ensures Read(net, HTTPS + host + path) == Some(Url(host, path)) && Trim(HTTPS + host + path) == HTTPS + host + path
  {
    ReadsPlain(net, host, path);
    TrimmedAlready(HTTPS + host + path);
  }

  lemma SpecOfOne(path: string)
    ensures Spec([path], path) == |TrimSlashes(path)| && Starts([path], path) && Spec([], path) == 0
  {
    assert [path][..0] == [] && [path][0] == path;
  }

  lemma SiteCovers(c: Conn, verb: string, host: string, path: string)
    requires host in c.hosts && (c.prefixes == [] || c.prefixes == [path])
    requires c.methods == [] || c.methods == [verb]
    ensures Covers(c, verb, Url(host, path))
  {
    SpecOfOne(path);
    assert HostMatch(host, host);
    assert c.methods != [] ==> c.methods[0] == verb;
  }

  lemma {:induction false} PersonalCover(a: Conn, b: Conn, host: string, path: string)
    requires Site(host, path) && a.hosts == b.hosts == [host] && a.prefixes == b.prefixes == [path]
    requires a.methods == b.methods == [] && a.personal
    ensures Cover(Access([a, b], []), "GET", Url(host, path)) == [As(a, path), As(b, path)]
    ensures As(a, path).spec == As(b, path).spec && Spaceless(Access([a, b], []))
  {
    SiteCovers(a, "GET", host, path);
    SiteCovers(b, "GET", host, path);
    BothCover(a, b, "GET", Url(host, path));
  }

  lemma {:induction false} PickyCover(a: Conn, b: Conn, host: string, path: string)
    requires Site(host, path) && a.hosts == b.hosts == [host] && a.prefixes == [] && b.prefixes == [path]
    requires a.methods == [] && b.methods == ["GET"] && !a.personal && !b.personal
    ensures Cover(Access([a, b], []), "GET", Url(host, path)) == [As(b, path), As(a, path)]
    ensures Cover(Access([a, b], []), "", Url(host, path)) == [As(a, path)] && Spaceless(Access([a, b], []))
  {
    var u := Url(host, path);
    SpecOfOne(path);
    SiteCovers(a, "GET", host, path);
    SiteCovers(a, "", host, path);
    SiteCovers(b, "GET", host, path);
    BothCover(a, b, "GET", u);
    assert Upper("GET") == "GET" && Upper("") == "";
    assert !Covers(b, "", u);
    OneCovers(a, b, "", u);
  }

  /** A read pinned to the asker's own account, not signed in to, is answered on a shared connection. */
  lemma {:induction false} PinnedReadStrays(host: string, path: string)
    requires Site(host, path)
    ensures var a, b := Conn(1, true, [host], [path], [], []), Conn(2, false, [host], [path], [], []);
            Spaceless(Access([a, b], [])) && Strays(Two(a, b), GrantStep(1, 0, false, "GET", HTTPS + host + path))
  {
    var a, b := Conn(1, true, [host], [path], [], []), Conn(2, false, [host], [path], [], []);
    var w, s, u := Two(a, b), GrantStep(1, 0, false, "GET", HTTPS + host + path), Url(host, path);
    SiteReads(w.net, host, path);
    PersonalCover(a, b, host, path);
    assert Upper("GET") == "GET";
    GoesToStandIn(w, s, u, As(a, path), As(b, path));
    StraysTo(a, b, s, u, a, b);
  }

  /** A step without a method is checked under no method and sent as GET. */
  lemma {:induction false} NoMethodStrays(host: string, path: string)
    requires Site(host, path)
    ensures var a, b := Conn(1, false, [host], [], [], []), Conn(2, false, [host], [path], ["GET"], []);
            Spaceless(Access([a, b], [])) && Strays(Two(a, b), GrantStep(1, 0, false, "", HTTPS + host + path))
  {
    var a, b := Conn(1, false, [host], [], [], []), Conn(2, false, [host], [path], ["GET"], []);
    var w, s, u := Two(a, b), GrantStep(1, 0, false, "", HTTPS + host + path), Url(host, path);
    SiteReads(w.net, host, path);
    PickyCover(a, b, host, path);
    assert Upper("") == "";
    GoesToFirst(w, s, u);
    StraysTo(a, b, s, u, a, b);
  }

  lemma {:induction false} TrimsOne(s: string, c: char)
    requires s != "" && Inked(s[0]) && Inked(s[|s| - 1]) && IsSpace(c)
    ensures Trim(s + [c]) == s
  {
    assert TrimLeft(s + [c]) == s + [c];
    TrimRightOnto(s, [c]);
    assert [c][..0] == "" && TrimRight([c]) == TrimRight("");
  }

  lemma {:induction false} ReadsHost(net: Net, host: string)
    requires PlainIn(host, "#?/@:[") && !net.refused(host)
    ensures Read(net, HTTPS + host) == Some(Url(host, ""))
  {
    ReadsPlain(net, host, "");
    assert HTTPS + host + "" == HTTPS + host;
  }

  lemma {:induction false} SpacedReads(net: Net, host: string, c: char)
    requires host != "" && PlainIn(host, "#?/@:[") && Inked(host[|host| - 1]) && !IsControl(c) && IsSpace(c)
    requires !net.refused(host) && !net.refused(host + [c])
    ensures Read(net, HTTPS + (host + [c])) == Some(Url(host + [c], ""))
    ensures Read(net, Trim(HTTPS + (host + [c]))) == Some(Url(host, ""))
  {
    ReadsHost(net, host);
    ReadsHost(net, host + [c]);
    assert HTTPS + (host + [c]) == HTTPS + host + [c];
    TrimsOne(HTTPS + host, c);
  }

  lemma {:induction false} SpacedHosts(host: string, c: char)
    requires host != "" && IsSpace(c) && Inked(host[|host| - 1])
    ensures HostMatch(host, host) && HostMatch(host + [c], host + [c]) && !HostMatch(host, host + [c])
  {
    NoHostMatch(host, host + [c]);
  }

  lemma {:induction false} SpacedCover(a: Conn, b: Conn, host: string, c: char)
    requires host != "" && IsSpace(c) && Inked(host[|host| - 1])
    requires a.hosts == [host] && b.hosts == [host, host + [c]] && a.prefixes == b.prefixes == []
    requires a.methods == b.methods == [] && !a.personal && !b.personal
    ensures Cover(Access([a, b], []), "PUT", Url(host + [c], "")) == [As(b, "")]
    ensures Cover(Access([a, b], []), "PUT", Url(host, "")) == [As(a, ""), As(b, "")]
  {
    SpacedHosts(host, c);
    NoDots();
    SiteCovers(b, "PUT", host + [c], "");
    SiteCovers(b, "PUT", host, "");
    SiteCovers(a, "PUT", host, "");
    OneCovers(a, b, "PUT", Url(host + [c], ""));
    BothCover(a, b, "PUT", Url(host, ""));
  }

  /** A host may be saved with a space at its end that a URL can end in too, past ASCII: a write whose URL does
      is checked with it and sent without. */
  lemma {:induction false} SpacedHostStrays(host: string)
    requires host != "" && PlainIn(host, "#?/@:[*") && Inked(host[|host| - 1])
    ensures var spaced := host + "\U{00A0}";
            var a, b := Conn(2, false, [host], [], [], []), Conn(1, false, [host, spaced], [], [], []);
            Strays(Two(a, b), GrantStep(1, 0, false, "PUT", HTTPS + spaced))
  {
    var spaced := host + ['\U{00A0}'];
    var a, b := Conn(2, false, [host], [], [], []), Conn(1, false, [host, spaced], [], [], []);
    var w, s, u, v := Two(a, b), GrantStep(1, 0, false, "PUT", HTTPS + spaced), Url(spaced, ""), Url(host, "");
    SpacedReads(w.net, host, '\U{00A0}');
    SpacedCover(a, b, host, '\U{00A0}');
    assert Upper("PUT") == "PUT";
    GoesToFirst(w, s, v);
    StraysTo(a, b, s, u, b, a);
  }

  lemma NoDots()
    ensures !Dots("")
  {
    assert Cut("", '/') == 0 && ""[..0] == "" && Lower("") == "";
  }
}
