/** Joining strings with a separator, and when the parts can be read back. */
module Joining {
  /** strings.Join. */
  function Join(parts: seq<string>, sep: string): string {
    if parts == [] then ""
    else if |parts| == 1 then parts[0]
    else parts[0] + sep + Join(parts[1..], sep)
  }

  predicate Free(s: string, c: char) { c !in s }

  /** Where c first is in s, or its length. */
  function Cut(s: string, c: char): (n: nat)
    ensures n <= |s|
  {
    if s == [] || s[0] == c then 0 else 1 + Cut(s[1..], c)
  }

  lemma {:induction false} CutIs(a: string, x: string, c: char)
    requires Free(a, c)
    ensures Cut(a, c) == |a| == Cut(a + [c] + x, c)
  {
    var s := a + [c] + x;
    if a == [] {
      assert s[0] == c;
    } else {
      CutIs(a[1..], x, c);
      assert s[1..] == a[1..] + [c] + x;
    }
  }

  lemma {:induction false} SplitUnique(a: string, b: string, x: string, y: string, c: char)
    requires Free(a, c) && Free(b, c) && a + [c] + x == b + [c] + y
    ensures a == b && x == y
  {
    var s := a + [c] + x;
    CutIs(a, x, c);
    CutIs(b, y, c);
    assert a == s[..|a|] && x == s[|a| + 1..];
    assert b == s[..|b|] && y == s[|b| + 1..];
  }

  lemma {:induction false} JoinCut(parts: seq<string>, c: char)
    requires parts != [] && Free(parts[0], c)
    ensures |parts| == 1 <==> Cut(Join(parts, [c]), c) == |Join(parts, [c])|
  {
    CutIs(parts[0], if |parts| == 1 then "" else Join(parts[1..], [c]), c);
  }

  /** Parts without the separator can be read back off their joining, so long as there is at least one. */
  lemma {:induction false} JoinInjective(a: seq<string>, b: seq<string>, c: char)
    requires a != [] && b != []
    requires forall i :: 0 <= i < |a| ==> Free(a[i], c)
    requires forall i :: 0 <= i < |b| ==> Free(b[i], c)
    requires Join(a, [c]) == Join(b, [c])
    ensures a == b
    decreases |a|
  {
    JoinCut(a, c);
    JoinCut(b, c);
    if |a| > 1 {
      SplitUnique(a[0], b[0], Join(a[1..], [c]), Join(b[1..], [c]), c);
      JoinInjective(a[1..], b[1..], c);
      assert a == [a[0]] + a[1..] && b == [b[0]] + b[1..];
    }
  }

  lemma {:induction false} JoinEmpty(parts: seq<string>, sep: string)
    requires sep != "" && (forall i :: 0 <= i < |parts| ==> parts[i] != "")
    ensures Join(parts, sep) == "" <==> parts == []
  {
  }

  lemma {:induction false} JoinFree(parts: seq<string>, sep: string, c: char)
    requires Free(sep, c) && forall i :: 0 <= i < |parts| ==> Free(parts[i], c)
    ensures Free(Join(parts, sep), c)
  {
    if |parts| > 1 {
      JoinFree(parts[1..], sep, c);
    }
  }

  lemma {:induction false} JoinSnoc(parts: seq<string>, x: string, sep: string)
    ensures Join(parts + [x], sep) == if parts == [] then x else Join(parts, sep) + sep + x
  {
    if |parts| > 1 {
      assert (parts + [x])[1..] == parts[1..] + [x];
      JoinSnoc(parts[1..], x, sep);
    } else if |parts| == 1 {
      assert (parts + [x])[1..] == [x];
    } else {
      assert [] + [x] == [x];
    }
  }

  /** Every part followed by the separator. */
  function Block(parts: seq<string>, sep: string): string {
    if parts == [] then "" else parts[0] + sep + Block(parts[1..], sep)
  }

  lemma {:induction false} JoinCons(part: string, rest: seq<string>, sep: string)
    requires rest != []
    ensures Join([part] + rest, sep) == part + sep + Join(rest, sep)
  {
    assert ([part] + rest)[1..] == rest;
  }

  lemma {:induction false} JoinBlock(front: seq<string>, rest: seq<string>, sep: string)
    requires rest != []
    ensures Join(front + rest, sep) == Block(front, sep) + Join(rest, sep)
  {
    if front == [] {
      assert front + rest == rest;
    } else {
      var all := front + rest;
      assert all[0] == front[0] && all[1..] == front[1..] + rest;
      JoinBlock(front[1..], rest, sep);
    }
  }

  lemma {:induction false} BlockSnoc(parts: seq<string>, part: string, sep: string)
    ensures Block(parts + [part], sep) == Block(parts, sep) + part + sep
  {
    if parts == [] {
      assert parts + [part] == [part];
    } else {
      assert (parts + [part])[1..] == parts[1..] + [part];
      BlockSnoc(parts[1..], part, sep);
    }
  }
}
