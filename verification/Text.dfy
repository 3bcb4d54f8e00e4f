/** What the Go standard library calls space, and the string operations built on it. */
module Text {
  import opened Lists

  /** unicode.IsSpace. */
  predicate IsSpace(c: char) {
    || '\t' <= c <= '\r'
    || c == ' ' || c == '\U{0085}' || c == '\U{00A0}' || c == '\U{1680}'
    || '\U{2000}' <= c <= '\U{200A}'
    || c == '\U{2028}' || c == '\U{2029}' || c == '\U{202F}' || c == '\U{205F}' || c == '\U{3000}'
  }

  predicate Inked(c: char) { !IsSpace(c) }

  /** s with every space dropped. */
  function Squeeze(s: string): string { Filter(s, Inked) }

  lemma SqueezeConcat(a: string, b: string)
    ensures Squeeze(a + b) == Squeeze(a) + Squeeze(b)
  {
    FilterConcat(a, b, Inked);
  }

  function TrimLeft(s: string): string {
    if s != [] && IsSpace(s[0]) then TrimLeft(s[1..]) else s
  }

  function TrimRight(s: string): string {
    if s != [] && IsSpace(s[|s| - 1]) then TrimRight(s[..|s| - 1]) else s
  }

  /** strings.TrimSpace. */
  function Trim(s: string): string { TrimRight(TrimLeft(s)) }

  function UpperChar(c: char): char { if 'a' <= c <= 'z' then c - 'a' + 'A' else c }

  function Upper(s: string): string { Map(s, UpperChar) }

  function LowerChar(c: char): char { if 'A' <= c <= 'Z' then c - 'A' + 'a' else c }

  function Lower(s: string): string { Map(s, LowerChar) }

  /** s stands in t at i. */
  predicate Occurs(t: string, s: string, i: int) { 0 <= i && i + |s| <= |t| && t[i..i + |s|] == s }

  /** strings.Contains. */
  predicate Contains(t: string, s: string) { exists i :: 0 <= i <= |t| && Occurs(t, s, i) }

  /** strings.HasSuffix. */
  predicate Ends(t: string, s: string) { |s| <= |t| && t[|t| - |s|..] == s }

  lemma {:induction false} OccursChar(t: string, s: string, i: int, k: int)
    requires Occurs(t, s, i) && 0 <= k < |s|
    ensures t[i + k] == s[k]
  {
    assert t[i..i + |s|][k] == s[k];
  }

  lemma {:induction false} OccursLeft(a: string, b: string, s: string, i: int)
    requires Occurs(a + b, s, i) && i + |s| <= |a|
    ensures Occurs(a, s, i) && Contains(a, s)
  {
    assert a[i..i + |s|] == (a + b)[i..i + |s|];
    assert Occurs(a, s, i);
  }

  lemma {:induction false} OccursRight(a: string, b: string, s: string, i: int)
    requires Occurs(a + b, s, i) && i >= |a|
    ensures Occurs(b, s, i - |a|) && Contains(b, s)
  {
    assert b[i - |a|..i - |a| + |s|] == (a + b)[i..i + |s|];
    assert Occurs(b, s, i - |a|);
  }

  lemma {:induction false} OccursOnto(a: string, t: string, b: string, s: string, i: int)
    requires Occurs(t, s, i)
    ensures Occurs(a + t + b, s, |a| + i) && Contains(a + t + b, s)
  {
    assert (a + t + b)[|a| + i..|a| + i + |s|] == t[i..i + |s|];
    assert Occurs(a + t + b, s, |a| + i);
  }

  /** What stands in t wholly within a place of s stands in s. */
  lemma {:induction false} OccursWithin(t: string, s: string, i: int, u: string, j: int)
    requires Occurs(t, s, i) && Occurs(t, u, j) && i <= j && j + |u| <= i + |s|
    ensures Occurs(s, u, j - i) && Contains(s, u)
  {
    forall k | 0 <= k < |u|
      ensures s[j - i + k] == u[k]
    {
      OccursChar(t, s, i, j - i + k);
      OccursChar(t, u, j, k);
    }
    assert s[j - i..j - i + |u|] == u;
    assert Occurs(s, u, j - i);
  }

  // ---- replacing ----

  /** strings.ReplaceAll, of something. */
  function ReplaceAll(s: string, was: string, becomes: string): string
    requires was != []
    decreases |s|
  {
    if |s| < |was| then s
    else if s[..|was|] == was then becomes + ReplaceAll(s[|was|..], was, becomes)
    else [s[0]] + ReplaceAll(s[1..], was, becomes)
  }

  lemma {:induction false} ReplaceNext(t: string, was: string, becomes: string)
    requires was != [] && t != [] && !Occurs(t, was, 0)
    ensures ReplaceAll(t, was, becomes) == [t[0]] + ReplaceAll(t[1..], was, becomes)
  {
    if |t| >= |was| {
      assert t[0..0 + |was|] == t[..|was|];
    }
  }

  /** Nothing is replaced before the first place s stands. */
  lemma {:induction false} ReplaceSkip(a: string, b: string, was: string, becomes: string)
    requires was != [] && forall j :: 0 <= j < |a| ==> !Occurs(a + b, was, j)
    ensures ReplaceAll(a + b, was, becomes) == a + ReplaceAll(b, was, becomes)
    decreases |a|
  {
    var t := a + b;
    if a == [] {
      assert t == b;
    } else {
      assert t == [a[0]] + (a[1..] + b);
      assert t[1..] == a[1..] + b;
      forall j | 0 <= j < |a[1..]|
        ensures !Occurs(a[1..] + b, was, j)
      {
        if Occurs(a[1..] + b, was, j) {
          assert [a[0]] + (a[1..] + b) + "" == t;
          OccursOnto([a[0]], a[1..] + b, "", was, j);
        }
      }
      ReplaceSkip(a[1..], b, was, becomes);
      ReplaceNext(t, was, becomes);
    }
  }

  lemma {:induction false} CutShrinks(t: string, was: string)
    requires was != []
    ensures |ReplaceAll(t, was, "")| <= |t|
    ensures Contains(t, was) ==> |ReplaceAll(t, was, "")| <= |t| - |was|
    decreases |t|
  {
    if |t| >= |was| {
      if t[..|was|] == was {
        CutShrinks(t[|was|..], was);
      } else {
        CutShrinks(t[1..], was);
        if Contains(t, was) {
          var i :| 0 <= i <= |t| && Occurs(t, was, i);
          assert t[0..|was|] == t[..|was|];
          assert t == [t[0]] + t[1..];
          OccursRight([t[0]], t[1..], was, i);
        }
      }
    }
  }

  // ---- trimming ----

  lemma {:induction false} TrimLeftOnto(b: string, r: string)
    requires r != "" && Inked(r[0])
    ensures TrimLeft(b + r) == TrimLeft(b) + r
  {
    if b == "" {
      assert b + r == r;
    } else {
      assert (b + r)[1..] == b[1..] + r;
      if IsSpace(b[0]) {
        TrimLeftOnto(b[1..], r);
      }
    }
  }

  lemma {:induction false} TrimRightOnto(r: string, b: string)
    requires r != "" && Inked(r[|r| - 1])
    ensures TrimRight(r + b) == r + TrimRight(b)
  {
    if b == "" {
      assert r + b == r;
    } else {
      var n := |b| - 1;
      assert (r + b)[..|r + b| - 1] == r + b[..n];
      if IsSpace(b[n]) {
        TrimRightOnto(r, b[..n]);
      }
    }
  }

  lemma {:induction false} TrimLeftIs(b: string)
    ensures |TrimLeft(b)| <= |b| && Ends(b, TrimLeft(b))
  {
    if b != "" && IsSpace(b[0]) {
      TrimLeftIs(b[1..]);
      assert b[|b| - |TrimLeft(b)|..] == b[1..][|b| - 1 - |TrimLeft(b)|..];
    }
  }

  lemma {:induction false} TrimLeftEnds(s: string, e: string)
    requires e != "" && Inked(e[0])
    ensures Ends(TrimLeft(s), e) <==> Ends(s, e)
  {
    if s != "" && IsSpace(s[0]) {
      TrimLeftEnds(s[1..], e);
      if |e| < |s| {
        assert s[|s| - |e|..] == s[1..][|s| - 1 - |e|..];
      } else if |e| == |s| {
        assert s[0..] == s;
      }
    }
  }

  lemma {:induction false} TrimRightIs(b: string)
    ensures |TrimRight(b)| <= |b| && TrimRight(b) <= b
  {
    if b != "" && IsSpace(b[|b| - 1]) {
      TrimRightIs(b[..|b| - 1]);
    }
  }

  lemma {:induction false} TrimmedAlready(p: string)
    requires p != [] && Inked(p[0]) && Inked(p[|p| - 1])
    ensures Trim(p) == p
  {
  }

  predicate Spaces(s: string) { forall i :: 0 <= i < |s| ==> IsSpace(s[i]) }

  predicate EndsSpaced(s: string) { s != "" && IsSpace(s[|s| - 1]) }

  lemma {:induction false} TrimLeftDrops(s: string)
    ensures Ends(s, TrimLeft(s)) && Spaces(s[..|s| - |TrimLeft(s)|])
    ensures TrimLeft(s) != "" ==> Inked(TrimLeft(s)[0])
  {
    TrimLeftIs(s);
    if s != "" && IsSpace(s[0]) {
      TrimLeftDrops(s[1..]);
      assert s[..|s| - |TrimLeft(s)|] == [s[0]] + s[1..][..|s| - 1 - |TrimLeft(s)|];
    }
  }

  lemma {:induction false} TrimRightDrops(s: string)
    ensures TrimRight(s) <= s && Spaces(s[|TrimRight(s)|..]) && !EndsSpaced(TrimRight(s))
  {
    if s != "" && IsSpace(s[|s| - 1]) {
      var n := |s| - 1;
      TrimRightDrops(s[..n]);
      assert s[|TrimRight(s)|..] == s[..n][|TrimRight(s)|..] + [s[n]];
    }
  }

  lemma {:induction false} TrimSplitsLeft(s: string) returns (lead: string)
    ensures s == lead + TrimLeft(s) && Spaces(lead)
  {
    TrimLeftDrops(s);
    lead := s[..|s| - |TrimLeft(s)|];
    assert s == lead + s[|lead|..];
  }

  lemma {:induction false} TrimSplitsRight(s: string) returns (pad: string)
    ensures s == TrimRight(s) + pad && Spaces(pad)
  {
    TrimRightDrops(s);
    pad := s[|TrimRight(s)|..];
    assert s == s[..|TrimRight(s)|] + pad;
  }

  /** What trimming takes off at both ends. */
  lemma {:induction false} TrimSplits(s: string) returns (lead: string, pad: string)
    ensures s == lead + Trim(s) + pad && Spaces(lead) && Spaces(pad)
  {
    lead := TrimSplitsLeft(s);
    pad := TrimSplitsRight(TrimLeft(s));
    Regroup(lead, Trim(s), pad);
  }

  lemma Regroup(a: string, b: string, c: string)
    ensures a + (b + c) == a + b + c
  {
  }
}
