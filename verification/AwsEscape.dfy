/** The escaping a signature asks for: RFC 3986, made from the escaping of query strings by two replacements. */
module AwsEscape {
  import opened Lists
  import opened Text

  type Byte = c: char | c <= '\U{00FF}'
  type Bytes = seq<Byte>

  /** Section 2.3 of RFC 3986. */
  predicate Unreserved(c: char) {
    'A' <= c <= 'Z' || 'a' <= c <= 'z' || '0' <= c <= '9' || c == '-' || c == '.' || c == '_' || c == '~'
  }

  function Hex(n: int): char
    requires 0 <= n < 16
  {
    if n < 10 then '0' + n as char else 'A' + (n - 10) as char
  }

  function HexValue(c: char): Option<int> {
    if '0' <= c <= '9' then Some((c - '0') as int)
    else if 'A' <= c <= 'F' then Some((c - 'A') as int + 10)
    else if 'a' <= c <= 'f' then Some((c - 'a') as int + 10)
    else None
  }

  /** Section 2.1 of RFC 3986. */
  function Triplet(b: Byte): string { ['%', Hex(b as int / 16), Hex(b as int % 16)] }

  /** url.QueryEscape. */
  function QueryEscape(s: Bytes): string {
    if s == [] then ""
    else (if Unreserved(s[0]) then [s[0]] else if s[0] == ' ' then "+" else Triplet(s[0])) + QueryEscape(s[1..])
  }

  function Escape(s: Bytes): string { ReplaceAll(ReplaceAll(QueryEscape(s), "+", "%20"), "%7E", "~") }

  // ---- byte for byte ----

  function EscapeByte(b: Byte): string { if Unreserved(b) then [b] else Triplet(b) }

  function Bytewise(s: Bytes): string { if s == [] then "" else EscapeByte(s[0]) + Bytewise(s[1..]) }

  lemma {:induction false} ReplaceStep(c: char, rest: string, was: string, becomes: string)
    requires was != [] && c != was[0]
    ensures ReplaceAll([c] + rest, was, becomes) == [c] + ReplaceAll(rest, was, becomes)
  {
    var s := [c] + rest;
    assert s[1..] == rest;
    if |s| >= |was| {
      assert s[..|was|][0] == c;
    }
  }

  lemma HexIsNot(n: int)
    requires 0 <= n < 16
    ensures Hex(n) != '+' && Hex(n) != '%' && HexValue(Hex(n)) == Some(n)
  {
  }

  lemma {:induction false} ReplaceTriplet(b: Byte, rest: string, was: string, becomes: string)
    requires was == "+" || (was == "%7E" && Triplet(b) != "%7E")
    ensures ReplaceAll(Triplet(b) + rest, was, becomes) == Triplet(b) + ReplaceAll(rest, was, becomes)
  {
    var hi, lo := Hex(b as int / 16), Hex(b as int % 16);
    HexIsNot(b as int / 16);
    HexIsNot(b as int % 16);
    var s := Triplet(b) + rest;
    assert s[1..] == [hi] + ([lo] + rest);
    assert s[..3] == Triplet(b);
    ReplaceStep(hi, [lo] + rest, was, becomes);
    ReplaceStep(lo, rest, was, becomes);
    if was == "+" {
      assert s[..1] == "%";
    }
    assert ReplaceAll(s, was, becomes) == ['%'] + ReplaceAll(s[1..], was, becomes);
    assert ['%'] + ([hi] + ([lo] + ReplaceAll(rest, was, becomes))) == Triplet(b) + ReplaceAll(rest, was, becomes);
  }

  lemma {:induction false} PlusReplaced(s: Bytes)
    ensures ReplaceAll(QueryEscape(s), "+", "%20") == Bytewise(s)
  {
    if s != [] {
      PlusReplaced(s[1..]);
      var rest := QueryEscape(s[1..]);
      if Unreserved(s[0]) {
        ReplaceStep(s[0], rest, "+", "%20");
      } else if s[0] == ' ' {
        var t := "+" + rest;
        assert t[..1] == "+" && t[1..] == rest;
        assert Triplet(' ') == "%20";
      } else {
        ReplaceTriplet(s[0], rest, "+", "%20");
      }
    }
  }

  lemma TildeUnescaped(b: Byte)
    requires !Unreserved(b)
    ensures Triplet(b) != "%7E"
  {
    HexIsNot(b as int / 16);
    HexIsNot(b as int % 16);
    assert b as int != 0x7E;
    assert "%7E"[1] == '7' && "%7E"[2] == 'E';
  }

  lemma {:induction false} TildesStay(s: Bytes)
    ensures ReplaceAll(Bytewise(s), "%7E", "~") == Bytewise(s)
  {
    if s != [] {
      TildesStay(s[1..]);
      if Unreserved(s[0]) {
        ReplaceStep(s[0], Bytewise(s[1..]), "%7E", "~");
      } else {
        TildeUnescaped(s[0]);
        ReplaceTriplet(s[0], Bytewise(s[1..]), "%7E", "~");
      }
    }
  }

  /** The two replacements turn the query-string escaping into RFC 3986's, byte for byte; the second never
      finds anything to replace. */
  lemma {:induction false} EscapeIsBytewise(s: Bytes)
    ensures Escape(s) == Bytewise(s) == ReplaceAll(QueryEscape(s), "+", "%20")
  {
    PlusReplaced(s);
    TildesStay(s);
  }

  // ---- round trips ----

  /** Percent-decoding, of text whose every % starts a triplet. */
  function Decode(t: string): Option<Bytes>
    decreases |t|
  {
    if t == "" then Some([])
    else if t[0] != '%' then
      var rest := Decode(t[1..]);
      if rest.None? || t[0] > '\U{00FF}' then None else Some([t[0]] + rest.value)
    else if |t| < 3 || HexValue(t[1]).None? || HexValue(t[2]).None? then None
    else
      var rest := Decode(t[3..]);
      if rest.None? then None else Some([(HexValue(t[1]).value * 16 + HexValue(t[2]).value) as char] + rest.value)
  }

  /** Unreserved characters standing for themselves and upper-case triplets standing for all other bytes. */
  predicate Normal(t: string)
    decreases |t|
  {
    t == "" ||
    if t[0] == '%' then
      |t| >= 3 && (exists b: Byte :: !Unreserved(b) && t[..3] == Triplet(b)) && Normal(t[3..])
    else
      Unreserved(t[0]) && Normal(t[1..])
  }

  lemma {:induction false} TripletDecodes(b: Byte, rest: string)
    ensures var t := Triplet(b) + rest;
            && t[0] == '%' && t[..3] == Triplet(b) && t[3..] == rest
            && HexValue(t[1]).Some? && HexValue(t[2]).Some?
            && HexValue(t[1]).value * 16 + HexValue(t[2]).value == b as int
  {
    HexIsNot(b as int / 16);
    HexIsNot(b as int % 16);
  }

  /** What is escaped decodes to what it was, and is written with nothing but section 2.3's unreserved
      characters and section 2.1's triplets, each byte in the one way it can be. */
  lemma {:induction false} EscapeRoundTrip(s: Bytes)
    ensures Decode(Escape(s)) == Some(s) && Normal(Escape(s))
  {
    EscapeIsBytewise(s);
    if s != [] {
      EscapeIsBytewise(s[1..]);
      EscapeRoundTrip(s[1..]);
      var t, rest := Bytewise(s), Bytewise(s[1..]);
      if Unreserved(s[0]) {
        assert t[1..] == rest;
      } else {
        TripletDecodes(s[0], rest);
      }
      assert s == [s[0]] + s[1..];
    }
  }

  /** And text written so is what its decoding escapes to: escaping is one to one onto such text. */
  lemma {:induction false} NormalRoundTrip(t: string)
    requires Normal(t)
    ensures Decode(t).Some? && Escape(Decode(t).value) == t
    decreases |t|
  {
    if t != "" {
      var n := if t[0] == '%' then 3 else 1;
      NormalRoundTrip(t[n..]);
      var rest := Decode(t[n..]).value;
      EscapeIsBytewise(rest);
      assert t == t[..n] + t[n..];
      if t[0] == '%' {
        var b: Byte :| !Unreserved(b) && t[..3] == Triplet(b);
        TripletDecodes(b, t[3..]);
        assert Decode(t).value == [b] + rest;
      }
      EscapeIsBytewise(Decode(t).value);
      assert Decode(t).value[1..] == rest;
    }
  }

  lemma EscapeInjective(a: Bytes, b: Bytes)
    requires Escape(a) == Escape(b)
    ensures a == b
  {
    EscapeRoundTrip(a);
    EscapeRoundTrip(b);
  }

  /** Escaped text holds none of the characters that queries and requests are put together with. */
  lemma {:induction false} EscapePlain(s: Bytes)
    ensures forall i :: 0 <= i < |Escape(s)| ==> Escape(s)[i] !in "=&\n"
  {
    EscapeIsBytewise(s);
    if s != [] {
      EscapeIsBytewise(s[1..]);
      EscapePlain(s[1..]);
      HexPlain(s[0] as int / 16);
      HexPlain(s[0] as int % 16);
      assert forall i :: 0 <= i < |EscapeByte(s[0])| ==> EscapeByte(s[0])[i] !in "=&\n";
    }
  }

  lemma HexPlain(n: int)
    requires 0 <= n < 16
    ensures Hex(n) !in "=&\n"
  {
  }
}
