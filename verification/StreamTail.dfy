/** What a finished turn still has to write after a stream carried part of its answer. */
module StreamTail {
  import opened Text

  lemma LiteralPrefixSqueezes(written: string, full: string)
    requires written <= full
    ensures Squeeze(written) <= Squeeze(full)
  {
    assert full == written + full[|written|..];
    SqueezeConcat(written, full[|written|..]);
  }

  method StreamTail(written: string, full: string) returns (tail: string)
    ensures |tail| <= |full| && tail == full[|full| - |tail|..]
    ensures written <= full ==> written + tail == full
    ensures Squeeze(written) <= Squeeze(full) ==> Squeeze(written + tail) == Squeeze(full)
    ensures !(Squeeze(written) <= Squeeze(full)) ==> tail == full
    // The resumed text starts right where the stream stopped, so whitespace after that point is kept.
    ensures (Squeeze(written) <= Squeeze(full) && Squeeze(written) != [] && !(written <= full) && tail != full) ==>
              Inked(full[|full| - |tail| - 1])
  {
    SqueezeConcat(written, full);
    if written == [] {
      return full;
    }
    if written <= full {
      tail := full[|written|..];
      LiteralPrefixSqueezes(written, full);
      assert written + tail == full;
      return;
    }
    var w := Squeeze(written);
    if w == [] {
      return full;
    }
    if !(w <= Squeeze(full)) {
      return full;
    }
    var want, seen := |w|, 0;
    for i := 0 to |full|
      invariant seen == |Squeeze(full[..i])| <= want
      invariant seen == want ==> 0 < i && Inked(full[i - 1])
    {
      if seen == want {
        Resume(written, full, i);
        return full[i..];
      }
      SqueezeConcat(full[..i], [full[i]]);
      assert full[..i] + [full[i]] == full[..i + 1];
      if Inked(full[i]) {
        assert Squeeze([full[i]]) == [full[i]];
        seen := seen + 1;
      } else {
        assert Squeeze([full[i]]) == [];
      }
    }
    assert full[..|full|] == full;
    Resume(written, full, |full|);
    return [];
  }

  /** Cutting the answer where as much ink has passed as the stream wrote leaves exactly the rest. */
  lemma Resume(written: string, full: string, i: nat)
    requires i <= |full|
    requires Squeeze(written) <= Squeeze(full)
    requires |Squeeze(full[..i])| == |Squeeze(written)|
    ensures Squeeze(written + full[i..]) == Squeeze(full)
  {
    SqueezeConcat(written, full[i..]);
    SqueezeConcat(full[..i], full[i..]);
    assert full[..i] + full[i..] == full;
  }
}
