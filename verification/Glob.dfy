/** Branch globs: the reading their documentation gives them, the two-row table the matcher fills,
    and which patterns match every name. */
module Glob {
  import opened Lists

  datatype Tok =
    | Lit(c: char)  // one literal character
    | One           // ?   one character other than '/'
    | Star          // *   any run without '/'
    | Any           // **  any run at all
    | Dirs          // **/ zero or more whole directories

  // ---- what a pattern means ----

  /** Whether the first k characters of s are what t may stand for. */
  ghost predicate Takes(t: Tok, s: string, k: nat)
    requires k <= |s|
  {
    match t
    case Lit(c) => k == 1 && s[0] == c
    case One => k == 1 && s[0] != '/'
    case Star => '/' !in s[..k]
    case Any => true
    case Dirs => k == 0 || s[k - 1] == '/'
  }

  /** s splits into one stretch per token, each a stretch the token may stand for. */
  ghost predicate Matches(toks: seq<Tok>, s: string) {
    if toks == [] then s == []
    else exists k: nat :: k <= |s| && Takes(toks[0], s, k) && Matches(toks[1..], s[k..])
  }

  // ---- the matcher ----

  /** The end of the run of '*' that starts at i. */
  function RunEnd(p: string, i: nat): (j: nat)
    requires i <= |p|
    ensures i <= j <= |p|
    ensures j < |p| ==> p[j] != '*'
    decreases |p| - i
  {
    if i < |p| && p[i] == '*' then RunEnd(p, i + 1) else i
  }

  /** The token that starts at i; a "**" before a '/' is whole directories only where a path segment starts. */
  function TokAt(p: string, i: nat): Tok
    requires i < |p|
  {
    if p[i] == '?' then One
    else if p[i] != '*' then Lit(p[i])
    else
      var j := RunEnd(p, i);
      if j == i + 1 then Star
      else if j < |p| && p[j] == '/' && (i == 0 || p[i - 1] == '/') then Dirs
      else Any
  }

  /** Where the token that starts at i ends. */
  function TokEnd(p: string, i: nat): (n: nat)
    requires i < |p|
    ensures i < n <= |p|
  {
    if p[i] != '*' then i + 1 else RunEnd(p, i + 1) + if TokAt(p, i).Dirs? then 1 else 0
  }

  function TokensFrom(p: string, i: nat): seq<Tok>
    requires i <= |p|
    decreases |p| - i
  {
    if i == |p| then [] else [TokAt(p, i)] + TokensFrom(p, TokEnd(p, i))
  }

  function Tokens(p: string): seq<Tok> { TokensFrom(p, 0) }

  method Tokenize(p: string) returns (toks: seq<Tok>)
    ensures toks == Tokens(p)
  {
    toks := [];
    var i := 0;
    while i < |p|
      invariant 0 <= i <= |p|
      invariant toks + TokensFrom(p, i) == Tokens(p)
    {
      var tok, next := Lit(p[i]), i + 1;
      if p[i] == '?' {
        tok := One;
      } else if p[i] == '*' {
        var j := i;
        while j < |p| && p[j] == '*'
          invariant i <= j <= |p| && RunEnd(p, j) == RunEnd(p, i)
        {
          j := j + 1;
        }
        if j - i == 1 {
          tok := Star;
        } else if j < |p| && p[j] == '/' && (i == 0 || p[i - 1] == '/') {
          tok, next := Dirs, j + 1;
        } else {
          tok, next := Any, j;
        }
      }
      Regroup(toks, tok, TokensFrom(p, next));
      toks, i := toks + [tok], next;
    }
  }

  lemma Regroup(a: seq<Tok>, t: Tok, b: seq<Tok>)
    ensures a + [t] + b == a + ([t] + b)
  {
  }

  /** The row of the table for toks over the suffixes of name. */
  ghost predicate IsRow(row: seq<bool>, toks: seq<Tok>, name: string) {
    |row| == |name| + 1 && forall j :: 0 <= j <= |name| ==> row[j] == Matches(toks, name[j..])
  }

  /** Fills one row right to left from the row below it. */
  method FillRow(toks: seq<Tok>, name: string, next: array<bool>, cur: array<bool>)
    requires toks != [] && next != cur && next.Length == cur.Length == |name| + 1
    requires IsRow(next[..], toks[1..], name)
    modifies cur
    ensures IsRow(cur[..], toks, name)
  {
    var t, n := toks[0], |name|;
    var dirs := false;
    var j := n;
    ghost var below := next[..];
    while j >= 0
      invariant -1 <= j <= n
      invariant next[..] == below
      invariant t.Dirs? ==> dirs == (j < n && SlashAhead(toks[1..], name[j + 1..]))
      invariant forall k :: j < k <= n ==> cur[k] == Matches(toks, name[k..])
      decreases j
    {
      var more := j < n;
      ghost var s := name[j..];
      assert more ==> s[1..] == name[j + 1..];
      assert below[j] == Matches(toks[1..], s);
      assert more ==> below[j + 1] == Matches(toks[1..], s[1..]);
      var m;
      match t {
        case Lit(c) => m := more && name[j] == c && next[j + 1]; UnfoldChar(toks, s);
        case One => m := more && name[j] != '/' && next[j + 1]; UnfoldChar(toks, s);
        case Star => m := next[j] || (more && name[j] != '/' && cur[j + 1]); UnfoldRun(toks, s);
        case Any => m := next[j] || (more && cur[j + 1]); UnfoldRun(toks, s);
        case Dirs =>
          if more && name[j] == '/' && next[j + 1] {
            dirs := true;
          }
          m := next[j] || dirs;
          UnfoldDirs(toks, s);
      }
      cur[j] := m;
      assert name[j - 1 + 1..] == s;
      j := j - 1;
    }
  }

  /** Match: whether name matches pattern, by filling one row of the table per token, from the last
      token to the first. */
  method Match(pattern: string, name: string) returns (ok: bool)
    ensures ok == GlobMatches(pattern, name)
  {
    if pattern == [] {
      return true;
    }
    var p := pattern;
    if |p| > 1 && p[0] == '/' {
      p := p[1..];
    }
    var toks := Tokenize(p);
    var n := |name|;
    var next := new bool[n + 1](j => j == n);
    var cur := new bool[n + 1](_ => false);
    var i := |toks|;
    assert toks[i..] == [];
    while i > 0
      invariant 0 <= i <= |toks|
      invariant fresh(next) && fresh(cur) && next != cur && next.Length == cur.Length == n + 1
      invariant IsRow(next[..], toks[i..], name)
    {
      i := i - 1;
      assert toks[i..][1..] == toks[i + 1..];
      FillRow(toks[i..], name, next, cur);
      cur, next := next, cur;
    }
    assert toks[0..] == toks && name[0..] == name;
    ok := next[..][0];
  }

  lemma UnfoldChar(toks: seq<Tok>, s: string)
    requires toks != [] && (toks[0].Lit? || toks[0].One?)
    ensures Matches(toks, s) <==> (s != [] && Takes(toks[0], s, 1) && Matches(toks[1..], s[1..]))
  {
  }

  lemma {:induction false} RunShrinks(toks: seq<Tok>, s: string, k: nat)
    requires toks != [] && (toks[0].Star? || toks[0].Any?) && k < |s|
    ensures Takes(toks[0], s, k + 1) <==> (toks[0].Star? ==> s[0] != '/') && Takes(toks[0], s[1..], k)
    ensures s[1..][k..] == s[k + 1..]
  {
    assert s[..k + 1] == [s[0]] + s[1..][..k];
  }

  lemma {:induction false} UnfoldRun(toks: seq<Tok>, s: string)
    requires toks != [] && (toks[0].Star? || toks[0].Any?)
    ensures Matches(toks, s) <==>
      (Matches(toks[1..], s) || (s != [] && (toks[0].Star? ==> s[0] != '/') && Matches(toks, s[1..])))
  {
    var rest := toks[1..];
    assert s[0..] == s;
    if Matches(toks, s) {
      var k: nat :| k <= |s| && Takes(toks[0], s, k) && Matches(rest, s[k..]);
      if k > 0 {
        RunShrinks(toks, s, k - 1);
      }
    }
    assert Matches(rest, s) ==> Takes(toks[0], s, 0);
    if s != [] && (toks[0].Star? ==> s[0] != '/') && Matches(toks, s[1..]) {
      var k: nat :| k <= |s[1..]| && Takes(toks[0], s[1..], k) && Matches(rest, s[1..][k..]);
      RunShrinks(toks, s, k);
      assert Takes(toks[0], s, k + 1) && Matches(rest, s[k + 1..]);
    }
  }

  /** Some '/' of s ends a run of directories after which toks match. */
  ghost predicate SlashAhead(toks: seq<Tok>, s: string) {
    s != [] && ((s[0] == '/' && Matches(toks, s[1..])) || SlashAhead(toks, s[1..]))
  }

  lemma UnfoldDirs(toks: seq<Tok>, s: string)
    requires toks != [] && toks[0].Dirs?
    ensures Matches(toks, s) <==> (Matches(toks[1..], s) || SlashAhead(toks[1..], s))
  {
    var rest := toks[1..];
    assert s[0..] == s;
    assert Matches(rest, s) ==> Takes(toks[0], s, 0) && Matches(rest, s[0..]);
    if Matches(toks, s) {
      var k: nat :| k <= |s| && Takes(toks[0], s, k) && Matches(rest, s[k..]);
      if k > 0 {
        SlashFound(rest, s, k - 1);
      }
    }
    if SlashAhead(rest, s) {
      var k := SlashWhere(rest, s);
      assert Takes(toks[0], s, k + 1);
    }
  }

  lemma SlashFound(toks: seq<Tok>, s: string, k: nat)
    requires k < |s| && s[k] == '/' && Matches(toks, s[k + 1..])
    ensures SlashAhead(toks, s)
  {
    if k > 0 {
      assert s[1..][k..] == s[k + 1..];
      SlashFound(toks, s[1..], k - 1);
    }
  }

  lemma SlashWhere(toks: seq<Tok>, s: string) returns (k: nat)
    requires SlashAhead(toks, s)
    ensures k < |s| && s[k] == '/' && Matches(toks, s[k + 1..])
  {
    if s[0] == '/' && Matches(toks, s[1..]) {
      k := 0;
    } else {
      var d := SlashWhere(toks, s[1..]);
      k := d + 1;
      assert s[1..][d + 1..] == s[k + 1..];
    }
  }

  /** A pattern with the leading '/' people write dropped. */
  function Anchored(pattern: string): string {
    if |pattern| > 1 && pattern[0] == '/' then pattern[1..] else pattern
  }

  /** The documented reading: an empty pattern matches anything, every other one by its tokens. */
  ghost predicate GlobMatches(pattern: string, name: string) {
    pattern == [] || Matches(Tokens(Anchored(pattern)), name)
  }

  // ---- patterns that match every name ----

  /** Whole-directory tokens and then "**", or at least one of them and then "*". */
  predicate UniversalToks(toks: seq<Tok>) {
    toks != [] &&
    match toks[0]
    case Any => |toks| == 1
    case Dirs => UniversalToks(toks[1..]) || toks[1..] == [Star]
    case _ => false
  }

  predicate Universal(pattern: string) {
    pattern == [] || UniversalToks(Tokens(Anchored(pattern)))
  }

  lemma {:induction false} UniversalMatchesAll(toks: seq<Tok>, s: string)
    requires UniversalToks(toks)
    ensures Matches(toks, s)
  {
    assert s[0..] == s && s[|s|..] == [];
    if toks[0].Any? {
      assert Takes(toks[0], s, |s|);
    } else if UniversalToks(toks[1..]) {
      UniversalMatchesAll(toks[1..], s);
      assert Takes(toks[0], s, 0);
    } else {
      var k := AfterLastSlash(s);
      assert Takes(Star, s[k..], |s| - k) && s[k..][|s| - k..] == [];
      assert Matches([Star][1..], []);
      assert Takes(toks[0], s, k);
    }
  }

  lemma AfterLastSlash(s: string) returns (k: nat)
    ensures k <= |s| && '/' !in s[k..] && (k == 0 || s[k - 1] == '/')
  {
    k := |s|;
    while k > 0 && s[k - 1] != '/'
      invariant k <= |s| && '/' !in s[k..]
    {
      k := k - 1;
    }
  }

  predicate Literal(t: Tok) { t.Lit? || t.One? }

  /** A run of '*' is read whole, so what follows "*" or "**" is a literal character or nothing. */
  lemma {:induction false} StarsStandApart(p: string, at: nat, i: nat)
    requires at <= |p| && i + 1 < |TokensFrom(p, at)|
    requires TokensFrom(p, at)[i].Star? || TokensFrom(p, at)[i].Any?
    ensures Literal(TokensFrom(p, at)[i + 1])
    decreases |p| - at
  {
    if i > 0 {
      StarsStandApart(p, TokEnd(p, at), i - 1);
    }
  }

  /** The three names that tell a pattern matching everything from one that does not. */
  const PROBES: seq<string> := ["", "a", "a/b"]

  lemma {:induction false} ProbesDecide(toks: seq<Tok>)
    requires forall i :: 0 <= i < |toks| - 1 && (toks[i].Star? || toks[i].Any?) ==> Literal(toks[i + 1])
    requires Matches(toks, "") && Matches(toks, "a")
    ensures UniversalToks(toks) || toks == [Star]
  {
    assert !Literal(toks[0]) && (|toks| > 1 ==> !Literal(toks[1])) by { EmptyNeedsNoLiteral(toks); }
    if toks[0].Dirs? {
      var rest := toks[1..];
      forall i | 0 <= i < |rest| - 1 && (rest[i].Star? || rest[i].Any?)
        ensures Literal(rest[i + 1])
      {
        assert toks[i + 1] == rest[i];
      }
      assert ""[0..] == "" && "a"[0..] == "a";
      ProbesDecide(rest);
    }
  }

  lemma EmptyNeedsNoLiteral(toks: seq<Tok>)
    requires Matches(toks, "")
    ensures forall i :: 0 <= i < |toks| ==> !Literal(toks[i])
  {
    if toks != [] {
      assert ""[0..] == "";
      EmptyNeedsNoLiteral(toks[1..]);
    }
  }

  /** A pattern matches every name exactly when it matches the three probes, which is exactly when
      it is empty or is whole directories followed by a run that takes the rest. */
  lemma {:induction false} UniversalExactly(pattern: string)
    ensures Universal(pattern) <==> forall name :: GlobMatches(pattern, name)
    ensures Universal(pattern) <==> forall i :: 0 <= i < |PROBES| ==> GlobMatches(pattern, PROBES[i])
  {
    if pattern != [] {
      var toks := Tokens(Anchored(pattern));
      if UniversalToks(toks) {
        forall name
          ensures GlobMatches(pattern, name)
        {
          UniversalMatchesAll(toks, name);
        }
      } else if forall i :: 0 <= i < |PROBES| ==> GlobMatches(pattern, PROBES[i]) {
        assert GlobMatches(pattern, PROBES[0]) && GlobMatches(pattern, PROBES[1]) && GlobMatches(pattern, PROBES[2]);
        forall i | 0 <= i < |toks| - 1 && (toks[i].Star? || toks[i].Any?)
          ensures Literal(toks[i + 1])
        {
          StarsStandApart(Anchored(pattern), 0, i);
        }
        ProbesDecide(toks);
        StarStopsAtSlash();
        assert false;
      }
    }
    if forall name :: GlobMatches(pattern, name) {
      assert forall i :: 0 <= i < |PROBES| ==> GlobMatches(pattern, PROBES[i]);
    }
  }

  lemma StarStarUniversal()
    ensures Universal("**") && forall name :: GlobMatches("**", name)
  {
    assert RunEnd("**", 0) == 2;
    assert Tokens("**") == [Any];
    UniversalExactly("**");
  }

  lemma StarStopsAtSlash()
    ensures !Matches([Star], "a/b")
  {
    assert "a/b"[1..] == "/b";
    UnfoldRun([Star], "a/b");
    UnfoldRun([Star], "/b");
  }
}
