/** Reading a URL as net/url reads one, as far as its host and its path go, and what spaces around one do. */
module Urls {
  import opened Lists
  import opened Text
  import opened Joining
  import AwsEscape

  /** The name of the host and the unescaped path. */
  datatype Url = Url(host: string, path: string)

  /** What is left open: which authorities are refused for their characters, and what a run of escaped bytes
      says as text. */
  datatype Net = Net(refused: string -> bool, text: seq<int> -> string)

  // ---- escapes ----

  function Said(net: Net, run: seq<int>): string { if run == [] then "" else net.text(run) }

  function HexAt(s: string): Option<int> {
    if |s| < 3 || AwsEscape.HexValue(s[1]).None? || AwsEscape.HexValue(s[2]).None? then None
    else Some(AwsEscape.HexValue(s[1]).value * 16 + AwsEscape.HexValue(s[2]).value)
  }

  /** s unescaped, after a run of escapes just read. */
  function Unescaped(net: Net, s: string, run: seq<int>): Option<string>
    decreases |s|
  {
    if s == "" then Some(Said(net, run))
    else if s[0] == '%' then
      if HexAt(s).None? then None else Unescaped(net, s[3..], run + [HexAt(s).value])
    else
      match Unescaped(net, s[1..], [])
      case None => None
      case Some(rest) => Some(Said(net, run) + [s[0]] + rest)
  }

  // ---- the parts of a URL ----

  predicate IsLetter(c: char) { 'a' <= c <= 'z' || 'A' <= c <= 'Z' }

  predicate IsDigit(c: char) { '0' <= c <= '9' }

  predicate IsControl(c: char) { c < ' ' || c == '\U{007F}' }

  datatype Scheme = NoScheme | BadScheme | Upto(colon: nat)

  /** Where the scheme of u ends, looked for from i on. */
  function SchemeOf(u: string, i: nat): (r: Scheme)
    requires i <= |u|
    ensures r.Upto? ==> i <= r.colon < |u|
    decreases |u| - i
  {
    if i == |u| then NoScheme
    else if IsLetter(u[i]) then SchemeOf(u, i + 1)
    else if IsDigit(u[i]) || u[i] in "+-." then (if i == 0 then NoScheme else SchemeOf(u, i + 1))
    else if u[i] == ':' then (if i == 0 then BadScheme else Upto(i))
    else NoScheme
  }

  /** Where c last is in s. */
  function Last(s: string, c: char): (k: Option<nat>)
    ensures k.Some? ==> k.value < |s| && s[k.value] == c && forall i :: k.value < i < |s| ==> s[i] != c
    ensures k.None? ==> c !in s
  {
    if s == "" then None else if s[|s| - 1] == c then Some(|s| - 1) else Last(s[..|s| - 1], c)
  }

  predicate PortOk(p: string) { p == "" || (p[0] == ':' && forall i :: 1 <= i < |p| ==> IsDigit(p[i])) }

  /** The name of the host in what is left of an authority without its user. */
  function HostName(net: Net, h: string): Option<string> {
    if h != "" && h[0] == '[' then
      match Last(h, ']')
      case None => None
      case Some(k) => if k > 0 && PortOk(h[k + 1..]) then Unescaped(net, h[1..k], []) else None
    else
      match Last(h, ':')
      case None => Unescaped(net, h, [])
      case Some(k) => if PortOk(h[k..]) then Unescaped(net, h[..k], []) else None
  }

  function HostOf(net: Net, authority: string): Option<string> {
    if net.refused(authority) then None
    else
      match Last(authority, '@')
      case None => HostName(net, authority)
      case Some(k) => HostName(net, authority[k + 1..])
  }

  function Placed(net: Net, host: string, path: string): Option<Url> {
    match Unescaped(net, path, []) case None => None case Some(p) => Some(Url(host, p))
  }

  function Before(s: string, c: char): string { s[..Cut(s, c)] }

  predicate HasAuthority(rest: string, schemed: bool) { "//" <= rest && (schemed || !("///" <= rest)) }

  /** An authority and the path after it. */
  function Hosted(net: Net, a: string): Option<Url> {
    match HostOf(net, Before(a, '/'))
    case None => None
    case Some(host) => Placed(net, host, a[Cut(a, '/')..])
  }

  /** What follows a scheme, or stands without one. */
  function AfterScheme(net: Net, s: string, schemed: bool): Option<Url> { Unqueried(net, Before(s, '?'), schemed) }

  function Unqueried(net: Net, rest: string, schemed: bool): Option<Url> {
    if HasAuthority(rest, schemed) then Hosted(net, rest[2..])
    else if schemed && !("/" <= rest) then Some(Url("", ""))
    else if !("/" <= rest) && ':' in Before(rest, '/') then None
    else Placed(net, "", rest)
  }

  function ReadBare(net: Net, u: string): Option<Url> {
    if exists i :: 0 <= i < |u| && IsControl(u[i]) then None
    else if u == "*" then Some(Url("", "*"))
    else
      match SchemeOf(u, 0)
      case BadScheme => None
      case NoScheme => AfterScheme(net, u, false)
      case Upto(k) => AfterScheme(net, u[k + 1..], true)
  }

  /** url.Parse. */
  function Read(net: Net, raw: string): Option<Url> {
    var k := Cut(raw, '#');
    if k < |raw| && Unescaped(net, raw[k + 1..], []).None? then None else ReadBare(net, raw[..k])
  }

  // ---- spaces around a URL ----

  lemma {:induction false} UnescapedSpaces(net: Net, pad: string, run: seq<int>)
    requires Spaces(pad)
    ensures Unescaped(net, pad, run) == Some(Said(net, run) + pad)
  {
    if pad == "" {
      assert Said(net, run) + pad == Said(net, run);
    } else {
      UnescapedSpaces(net, pad[1..], []);
      assert Said(net, []) + pad[1..] == pad[1..];
      assert Said(net, run) + [pad[0]] + pad[1..] == Said(net, run) + pad;
    }
  }

  lemma HexAtPadded(s: string, pad: string)
    requires Spaces(pad) && s != ""
    ensures HexAt(s + pad) == HexAt(s)
  {
  }

  /** Spaces after a text stay after what it unescapes to. */
  lemma {:induction false} UnescapedPadded(net: Net, s: string, run: seq<int>, pad: string)
    requires Spaces(pad)
    ensures Unescaped(net, s + pad, run) == match Unescaped(net, s, run) case None => None case Some(t) => Some(t + pad)
    decreases |s|
  {
    if s == "" {
      assert s + pad == pad;
      UnescapedSpaces(net, pad, run);
    } else if s[0] == '%' {
      HexAtPadded(s, pad);
      if HexAt(s).Some? {
        assert (s + pad)[3..] == s[3..] + pad;
        UnescapedPadded(net, s[3..], run + [HexAt(s).value], pad);
      }
    } else {
      assert (s + pad)[1..] == s[1..] + pad;
      UnescapedPadded(net, s[1..], [], pad);
      if Unescaped(net, s[1..], []).Some? {
        var rest := Unescaped(net, s[1..], []).value;
        assert Said(net, run) + [s[0]] + (rest + pad) == Said(net, run) + [s[0]] + rest + pad;
      }
    }
  }

  lemma {:induction false} UnescapedEndsSpaced(net: Net, s: string)
    requires EndsSpaced(s) && Unescaped(net, s, []).Some?
    ensures EndsSpaced(Unescaped(net, s, []).value)
  {
    var n := |s| - 1;
    assert s == s[..n] + [s[n]];
    UnescapedPadded(net, s[..n], [], [s[n]]);
  }

  lemma PortSpaced(p: string)
    requires EndsSpaced(p)
    ensures !PortOk(p)
  {
  }

  lemma {:induction false} HostNameSpaced(net: Net, h: string)
    requires EndsSpaced(h) && HostName(net, h).Some?
    ensures EndsSpaced(HostName(net, h).value)
  {
    if h[0] == '[' {
      var k := Last(h, ']').value;
      assert h[k] == ']' && EndsSpaced(h[k + 1..]);
      PortSpaced(h[k + 1..]);
    } else if Last(h, ':').Some? {
      var k := Last(h, ':').value;
      assert EndsSpaced(h[k..]);
      PortSpaced(h[k..]);
    } else {
      UnescapedEndsSpaced(net, h);
    }
  }

  lemma {:induction false} HostSpaced(net: Net, authority: string)
    requires EndsSpaced(authority) && HostOf(net, authority).Some?
    ensures EndsSpaced(HostOf(net, authority).value)
  {
    match Last(authority, '@') {
      case None =>
        HostNameSpaced(net, authority);
      case Some(k) =>
        assert authority[k] == '@' && EndsSpaced(authority[k + 1..]);
        HostNameSpaced(net, authority[k + 1..]);
    }
  }

  /** The URL u, read with spaces around it, and v, without: no host, a host that ends in a space, or v with
      spaces after its path. */
  predicate Padded(u: Url, v: Url) {
    || u.host == "" || EndsSpaced(u.host)
    || (u.host == v.host && v.path <= u.path && Spaces(u.path[|v.path|..]))
  }

  lemma {:induction false} PlacedPadded(net: Net, host: string, path: string, pad: string)
    requires Spaces(pad) && Placed(net, host, path + pad).Some? && Placed(net, host, path).Some?
    ensures Padded(Placed(net, host, path + pad).value, Placed(net, host, path).value)
  {
    UnescapedPadded(net, path, [], pad);
  }

  lemma {:induction false} CutPadded(s: string, pad: string, c: char)
    requires Spaces(pad) && Inked(c)
    ensures Before(s + pad, c) == if c in s then Before(s, c) else s + pad
    ensures c !in s ==> Before(s, c) == s
    ensures c in s ==> Cut(s + pad, c) == Cut(s, c) < |s|
    ensures c !in s ==> Cut(s + pad, c) == |s + pad| && Cut(s, c) == |s|
  {
    if s == "" {
      assert s + pad == pad;
      CutNowhere(pad, c);
    } else {
      assert (s + pad)[1..] == s[1..] + pad;
      CutPadded(s[1..], pad, c);
    }
  }

  lemma {:induction false} CutNowhere(s: string, c: char)
    requires c !in s
    ensures Cut(s, c) == |s|
  {
    if s != "" {
      CutNowhere(s[1..], c);
    }
  }

  lemma {:induction false} HostedPadded(net: Net, a: string, pad: string)
    requires Spaces(pad) && Hosted(net, a + pad).Some? && Hosted(net, a).Some?
    ensures Padded(Hosted(net, a + pad).value, Hosted(net, a).value)
  {
    CutPadded(a, pad, '/');
    if '/' in a {
      var k := Cut(a, '/');
      assert (a + pad)[k..] == a[k..] + pad;
      PlacedPadded(net, HostOf(net, Before(a, '/')).value, a[k..], pad);
    } else if pad == "" {
      assert a + pad == a;
    } else {
      HostSpaced(net, a + pad);
    }
  }

  lemma {:induction false} AuthorityPadded(r: string, schemed: bool, pad: string)
    requires Spaces(pad)
    ensures HasAuthority(r + pad, schemed) <==> HasAuthority(r, schemed)
  {
    PrefixPadded("//", r, pad);
    PrefixPadded("///", r, pad);
  }

  /** A text that does not end in a space starts a text with spaces after it only where it starts the text. */
  lemma {:induction false} PrefixPadded(p: string, t: string, pad: string)
    requires Spaces(pad) && p != "" && !EndsSpaced(p)
    ensures p <= t + pad <==> p <= t
  {
    var n := |p| - 1;
    if p <= t + pad {
      assert (t + pad)[n] == p[n];
      assert p == (t + pad)[..|p|] == t[..|p|];
    }
  }

  lemma Hostless(net: Net, rest: string, schemed: bool)
    requires Unqueried(net, rest, schemed).Some? && !HasAuthority(rest, schemed)
    ensures Unqueried(net, rest, schemed).value.host == ""
  {
  }

  lemma {:induction false} UnqueriedPadded(net: Net, r: string, schemed: bool, pad: string)
    requires Spaces(pad) && Unqueried(net, r + pad, schemed).Some? && Unqueried(net, r, schemed).Some?
    ensures Padded(Unqueried(net, r + pad, schemed).value, Unqueried(net, r, schemed).value)
  {
    AuthorityPadded(r, schemed, pad);
    if HasAuthority(r, schemed) {
      assert (r + pad)[2..] == r[2..] + pad;
      HostedPadded(net, r[2..], pad);
    } else {
      Hostless(net, r + pad, schemed);
    }
  }

  lemma {:induction false} RestPadded(net: Net, r: string, schemed: bool, pad: string)
    requires Spaces(pad) && AfterScheme(net, r + pad, schemed).Some? && AfterScheme(net, r, schemed).Some?
    ensures Padded(AfterScheme(net, r + pad, schemed).value, AfterScheme(net, r, schemed).value)
  {
    CutPadded(r, pad, '?');
    if '?' !in r {
      UnqueriedPadded(net, r, schemed, pad);
    }
  }

  lemma {:induction false} SchemePadded(t: string, pad: string, i: nat)
    requires Spaces(pad) && i <= |t|
    ensures SchemeOf(t + pad, i) == SchemeOf(t, i)
    decreases |t| - i
  {
    if i < |t| && (IsLetter(t[i]) || ((IsDigit(t[i]) || t[i] in "+-.") && i > 0)) {
      SchemePadded(t, pad, i + 1);
    }
  }

  lemma StarPadded(net: Net, pad: string)
    requires Spaces(pad) && pad != "" && ReadBare(net, "*" + pad).Some?
    ensures ReadBare(net, "*" + pad).value.host == ""
  {
    assert SchemeOf("*" + pad, 0) == NoScheme;
    assert Cut("*" + pad, '?') > 0 && Before("*" + pad, '?')[0] == '*';
  }

  /** Spaces after a URL. */
  lemma {:induction false} BarePadded(net: Net, t: string, pad: string)
    requires Spaces(pad) && ReadBare(net, t + pad).Some? && ReadBare(net, t).Some?
    ensures Padded(ReadBare(net, t + pad).value, ReadBare(net, t).value)
  {
    SchemePadded(t, pad, 0);
    if pad == "" {
      assert t + pad == t;
    } else if t == "*" {
      StarPadded(net, pad);
    } else {
      assert t + pad != "*" by {
        assert IsSpace((t + pad)[|t + pad| - 1]);
      }
      match SchemeOf(t, 0) {
        case BadScheme =>
        case NoScheme =>
          RestPadded(net, t, false, pad);
        case Upto(k) =>
          assert (t + pad)[k + 1..] == t[k + 1..] + pad;
          RestPadded(net, t[k + 1..], true, pad);
      }
    }
  }

  /** Spaces before one: it has no scheme any more, and so no host. */
  lemma {:induction false} LeadUnhosts(net: Net, u: string)
    requires u != "" && IsSpace(u[0]) && ReadBare(net, u).Some?
    ensures ReadBare(net, u).value.host == ""
  {
    assert SchemeOf(u, 0) == NoScheme;
    assert Cut(u, '?') > 0 && Before(u, '?')[0] == u[0];
  }

  lemma {:induction false} ReadLed(net: Net, raw: string)
    requires raw != "" && IsSpace(raw[0]) && Read(net, raw).Some?
    ensures Read(net, raw).value.host == ""
  {
    assert Cut(raw, '#') > 0 && raw[..Cut(raw, '#')][0] == raw[0];
    LeadUnhosts(net, raw[..Cut(raw, '#')]);
  }

  lemma {:induction false} ReadTailed(net: Net, t: string, pad: string)
    requires Spaces(pad) && Read(net, t + pad).Some? && Read(net, t).Some?
    ensures Padded(Read(net, t + pad).value, Read(net, t).value)
  {
    CutPadded(t, pad, '#');
    assert (t + pad)[..Cut(t + pad, '#')] == Before(t + pad, '#') && t[..Cut(t, '#')] == Before(t, '#');
    if '#' in t {
      assert Read(net, t + pad) == ReadBare(net, Before(t, '#')) == Read(net, t);
    } else {
      BarePadded(net, t, pad);
    }
  }

  /** What reading a URL as it is written finds, against reading it trimmed. */
  lemma {:induction false} ReadPadded(net: Net, raw: string)
    requires Read(net, raw).Some? && Read(net, Trim(raw)).Some?
    ensures Padded(Read(net, raw).value, Read(net, Trim(raw)).value)
  {
    var lead, pad := TrimSplits(raw);
    if lead == "" {
      assert raw == Trim(raw) + pad;
      ReadTailed(net, Trim(raw), pad);
    } else {
      assert raw[0] == lead[0];
      ReadLed(net, raw);
    }
  }

  // ---- a URL read ----

  predicate PlainIn(s: string, special: string) {
    forall i :: 0 <= i < |s| ==> s[i] !in special && s[i] != '%' && !IsControl(s[i])
  }

  lemma {:induction false} UnescapedPlain(net: Net, s: string)
    requires '%' !in s
    ensures Unescaped(net, s, []) == Some(s)
  {
    if s != "" {
      UnescapedPlain(net, s[1..]);
      assert "" + [s[0]] + s[1..] == s;
    }
  }

  const HTTPS := "https://"

  lemma {:induction false} PlainAuthority(net: Net, host: string)
    requires PlainIn(host, "#?/@:[") && !net.refused(host)
    ensures HostOf(net, host) == Some(host)
  {
    UnescapedPlain(net, host);
  }

  lemma {:induction false} CutAt(a: string, b: string, c: char)
    requires c !in a && (b == "" || b[0] == c)
    ensures Cut(a + b, c) == |a|
  {
    if a == "" {
      assert a + b == b;
    } else {
      assert (a + b)[1..] == a[1..] + b;
      CutAt(a[1..], b, c);
    }
  }

  lemma SchemeIsHttps(rest: string)
    ensures SchemeOf("https:" + rest, 0) == Upto(5)
  {
    var u := "https:" + rest;
    assert SchemeOf(u, 5) == Upto(5);
    assert SchemeOf(u, 3) == SchemeOf(u, 4);
    assert SchemeOf(u, 1) == SchemeOf(u, 2);
  }

  lemma {:induction false} HostedPlain(net: Net, host: string, path: string)
    requires PlainIn(host, "#?/@:[") && PlainIn(path, "#?") && (path == "" || path[0] == '/') && !net.refused(host)
    ensures AfterScheme(net, "//" + host + path, true) == Some(Url(host, path))
  {
    var rest := "//" + host + path;
    CutNowhere(rest, '?');
    assert Before(rest, '?') == rest;
    assert rest[2..] == host + path;
    CutAt(host, path, '/');
    assert Before(host + path, '/') == host && (host + path)[|host|..] == path;
    PlainAuthority(net, host);
    UnescapedPlain(net, path);
  }

  lemma PlainUrl(host: string, path: string)
    requires PlainIn(host, "#?/@:[") && PlainIn(path, "#?")
    ensures var u := HTTPS + host + path; forall i :: 0 <= i < |u| ==> u[i] != '#' && !IsControl(u[i])
  {
    var u := HTTPS + host + path;
    assert forall i :: 0 <= i < |u| ==> u[i] in HTTPS || u[i] in host || u[i] in path;
  }

  lemma {:induction false} ReadsPlain(net: Net, host: string, path: string)
    requires PlainIn(host, "#?/@:[") && PlainIn(path, "#?") && (path == "" || path[0] == '/') && !net.refused(host)
    ensures Read(net, HTTPS + host + path) == Some(Url(host, path))
  {
    var u, rest := HTTPS + host + path, "//" + host + path;
    assert u == "https:" + rest;
    PlainUrl(host, path);
    CutNowhere(u, '#');
    assert u[..|u|] == u && u[6..] == rest;
    SchemeIsHttps(rest);
    HostedPlain(net, host, path);
  }
}
