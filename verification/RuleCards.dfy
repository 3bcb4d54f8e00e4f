/** The two lists a card draws: an edited list with what the call did to each rule, and the list a
    level falls back to when it drops its own. */
module RuleCards {
  import opened Lists
  import opened BranchRules

  datatype Mark = Added | Changed | Moved | Same | Gone

  /** One line of a card: its number (0 for a rule that goes), the rule it shows, and what it says the
      rule was and where. */
  datatype Row = Row(mark: Mark, number: nat, rule: Rule, was: Option<Rule>, wasAt: Option<nat>)

  // ---- rows put back at the places they had ----

  predicate Ascending(places: seq<nat>) {
    forall a, b :: 0 <= a < b < |places| ==> places[a] < places[b]
  }

  /** Items laid out from place at on, with each row of gone put at its own place: a walk down the
      places that shows a gone row where one belongs and the next item everywhere else. */
  function Weave<T>(at: nat, items: seq<T>, places: seq<nat>, gone: seq<T>): (r: seq<T>)
    requires |places| == |gone|
    ensures |r| == |items| + |gone|
    decreases |items| + |gone|
  {
    if gone != [] && (places[0] <= at || items == []) then [gone[0]] + Weave(at + 1, items, places[1..], gone[1..])
    else if items != [] then [items[0]] + Weave(at + 1, items[1..], places, gone)
    else []
  }

  /** Inserting at the place a row had, or at the end of a list too short to have it, is the next step of
      the walk, as long as the rows come in the order of their places. */
  lemma {:induction false} WeaveOne<T>(at: nat, items: seq<T>, places: seq<nat>, gone: seq<T>, p: nat, row: T)
    requires |places| == |gone| && Ascending(places) && at <= p && forall i :: 0 <= i < |gone| ==> at <= places[i] < p
    ensures Weave(at, items, places + [p], gone + [row]) ==
            InsertAt(Weave(at, items, places, gone), Min(p - at, |items| + |gone|), row)
    decreases |items| + |gone|
  {
    if gone == [] && (p <= at || items == []) {
      OnlyGone(at, items, p, row);
    } else if gone != [] && (places[0] <= at || items == []) {
      WeaveOne(at + 1, items, places[1..], gone[1..], p, row);
      GoneFirst(at, items, places, gone, p, row);
    } else {
      WeaveOne(at + 1, items[1..], places, gone, p, row);
      ItemFirst(at, items, places, gone, p, row);
    }
  }

  lemma {:induction false} OnlyGone<T>(at: nat, items: seq<T>, p: nat, row: T)
    requires at <= p && (p <= at || items == [])
    ensures Weave(at, items, [] + [p], [] + [row]) == InsertAt(Weave(at, items, [], []), Min(p - at, |items|), row)
  {
    assert [p][1..] == [] && [row][1..] == [] && [] + [p] == [p] && [] + [row] == [row];
    WeaveNone(at, items);
    WeaveNone(at + 1, items);
  }

  lemma {:induction false} ItemFirst<T>(at: nat, items: seq<T>, places: seq<nat>, gone: seq<T>, p: nat, row: T)
    requires |places| == |gone| && at < p && items != [] && (gone != [] ==> places[0] > at)
    requires Weave(at + 1, items[1..], places + [p], gone + [row]) ==
             InsertAt(Weave(at + 1, items[1..], places, gone), Min(p - at - 1, |items| + |gone| - 1), row)
    ensures Weave(at, items, places + [p], gone + [row]) ==
            InsertAt(Weave(at, items, places, gone), Min(p - at, |items| + |gone|), row)
  {
    InsertAfterHead(items[0], Weave(at + 1, items[1..], places, gone), Min(p - at - 1, |items| + |gone| - 1), row);
  }

  lemma {:induction false} GoneFirst<T>(at: nat, items: seq<T>, places: seq<nat>, gone: seq<T>, p: nat, row: T)
    requires |places| == |gone| && at < p && gone != [] && (places[0] <= at || items == [])
    requires Weave(at + 1, items, places[1..] + [p], gone[1..] + [row]) ==
             InsertAt(Weave(at + 1, items, places[1..], gone[1..]), Min(p - at - 1, |items| + |gone| - 1), row)
    ensures Weave(at, items, places + [p], gone + [row]) ==
            InsertAt(Weave(at, items, places, gone), Min(p - at, |items| + |gone|), row)
  {
    assert (places + [p])[1..] == places[1..] + [p] && (gone + [row])[1..] == gone[1..] + [row];
    InsertAfterHead(gone[0], Weave(at + 1, items, places[1..], gone[1..]), Min(p - at - 1, |items| + |gone| - 1), row);
  }

  lemma InsertAfterHead<T>(head: T, s: seq<T>, i: nat, x: T)
    requires i <= |s|
    ensures InsertAt([head] + s, i + 1, x) == [head] + InsertAt(s, i, x)
  {
  }

  lemma {:induction false} WeaveNext<T>(items: seq<T>, places: seq<nat>, gone: seq<T>, k: nat)
    requires |places| == |gone| && k < |gone| && Ascending(places)
    ensures Weave(0, items, places[..k + 1], gone[..k + 1]) ==
            InsertAt(Weave(0, items, places[..k], gone[..k]), Min(places[k], |items| + k), gone[k])
  {
    var ps, gs := places[..k], gone[..k];
    assert Ascending(ps) && forall i :: 0 <= i < k ==> ps[i] < places[k];
    WeaveOne(0, items, ps, gs, places[k], gone[k]);
    assert gs + [gone[k]] == gone[..k + 1];
    assert ps + [places[k]] == places[..k + 1];
  }

  lemma {:induction false} WeaveNone<T>(at: nat, items: seq<T>)
    ensures Weave(at, items, [], []) == items
    decreases |items|
  {
    if items != [] {
      WeaveNone(at + 1, items[1..]);
    }
  }

  lemma {:induction false} WeaveKeepsOrder<T>(at: nat, items: seq<T>, places: seq<nat>, gone: seq<T>, stays: T -> bool)
    requires |places| == |gone| && (forall x :: x in items ==> stays(x)) && (forall g :: g in gone ==> !stays(g))
    ensures Filter(Weave(at, items, places, gone), stays) == items
    decreases |items| + |gone|
  {
    var w := Weave(at, items, places, gone);
    if gone != [] && (places[0] <= at || items == []) {
      WeaveKeepsOrder(at + 1, items, places[1..], gone[1..], stays);
      assert w[1..] == Weave(at + 1, items, places[1..], gone[1..]);
    } else if items != [] {
      WeaveKeepsOrder(at + 1, items[1..], places, gone, stays);
      assert w[1..] == Weave(at + 1, items[1..], places, gone);
    }
  }

  /** With enough rows above it, a gone row is drawn at exactly the place it had. */
  lemma {:induction false} WeavePlaces<T>(at: nat, items: seq<T>, places: seq<nat>, gone: seq<T>, k: nat)
    requires |places| == |gone| && k < |gone| && Ascending(places) && at <= places[0]
    requires forall i :: 0 <= i < |gone| ==> places[i] <= at + |items| + i
    ensures at <= places[k] < at + |items| + |gone|
    ensures Weave(at, items, places, gone)[places[k] - at] == gone[k]
    decreases |items| + |gone|
  {
    if places[0] <= at || items == [] {
      assert places[0] == at;
      if k > 0 {
        WeavePlaces(at + 1, items, places[1..], gone[1..], k - 1);
      }
    } else {
      WeavePlaces(at + 1, items[1..], places, gone, k);
    }
  }

  // ---- the edit card ----

  function SlotRow(start: seq<Rule>, s: Slot, i: nat): Row {
    if s.from < 0 || s.from >= |start| then Row(Added, i + 1, s.rule, None, None)
    else if s.rule != start[s.from] then
      Row(Changed, i + 1, s.rule, Some(start[s.from]), if s.moved then Some(s.from + 1) else None)
    else if s.moved then Row(Moved, i + 1, s.rule, None, Some(s.from + 1))
    else Row(Same, i + 1, s.rule, None, None)
  }

  function GoneRow(start: seq<Rule>, from: nat): Row
    requires from < |start|
  {
    Row(Gone, 0, start[from], None, Some(from + 1))
  }

  predicate Stays(r: Row) { r.mark != Gone }

  function SlotRows(start: seq<Rule>, slots: seq<Slot>): (r: seq<Row>)
    ensures |r| == |slots|
    ensures forall i :: 0 <= i < |r| ==> r[i] == SlotRow(start, slots[i], i) && Stays(r[i])
  {
    seq(|slots|, i requires 0 <= i < |slots| => SlotRow(start, slots[i], i))
  }

  /** removed in the order of the places it had. */
  function ByPlace(removed: seq<Slot>): (r: seq<Slot>)
    ensures |r| == |removed|
  {
    if removed == [] then [] else InsertByPlace(ByPlace(removed[1..]), removed[0])
  }

  function InsertByPlace(sorted: seq<Slot>, s: Slot): (r: seq<Slot>)
    ensures |r| == |sorted| + 1
  {
    if sorted == [] || s.from <= sorted[0].from then [s] + sorted else [sorted[0]] + InsertByPlace(sorted[1..], s)
  }

  function Places(slots: seq<Slot>): seq<int> { Map(slots, FromOf) }

  lemma {:induction false} InsertRearranges(sorted: seq<Slot>, s: Slot)
    ensures multiset(InsertByPlace(sorted, s)) == multiset(sorted) + multiset{s}
  {
    if sorted != [] && s.from > sorted[0].from {
      InsertRearranges(sorted[1..], s);
      assert sorted == [sorted[0]] + sorted[1..];
    }
  }

  lemma {:induction false} ByPlaceRearranges(removed: seq<Slot>)
    ensures multiset(ByPlace(removed)) == multiset(removed)
    ensures multiset(Places(ByPlace(removed))) == multiset(Places(removed))
  {
    if removed != [] {
      ByPlaceRearranges(removed[1..]);
      InsertRearranges(ByPlace(removed[1..]), removed[0]);
      assert removed == [removed[0]] + removed[1..];
    }
    MapRearranged(ByPlace(removed), removed, FromOf);
  }

  predicate Sorted(slots: seq<Slot>) {
    forall a, b :: 0 <= a < b < |slots| ==> slots[a].from <= slots[b].from
  }

  lemma {:induction false} InsertByPlaceSorts(sorted: seq<Slot>, s: Slot)
    requires Sorted(sorted)
    ensures Sorted(InsertByPlace(sorted, s))
    ensures forall x :: x in InsertByPlace(sorted, s) ==> x == s || x in sorted
  {
    if sorted != [] && s.from > sorted[0].from {
      var rest := InsertByPlace(sorted[1..], s);
      InsertByPlaceSorts(sorted[1..], s);
      forall i | 0 <= i < |rest|
        ensures sorted[0].from <= rest[i].from
      {
        assert rest[i] in rest;
      }
    }
  }

  lemma ByPlaceSorts(removed: seq<Slot>)
    ensures Sorted(ByPlace(removed))
  {
    if removed != [] {
      ByPlaceSorts(removed[1..]);
      InsertByPlaceSorts(ByPlace(removed[1..]), removed[0]);
    }
  }

  lemma Twice(s: seq<int>, a: nat, b: nat)
    requires a < b < |s| && s[a] == s[b]
    ensures multiset(s)[s[a]] >= 2
  {
    assert s == s[..b] + s[b..];
    assert s[a] in s[..b] && s[b] in s[b..];
  }

  /** Every place of the start list belongs to one slot, kept or removed. */
  lemma PlaceOnce(start: seq<Rule>, e: Edits, x: int)
    requires Conserved(start, e)
    ensures Places(e.removed) == Origins(e.removed)
    ensures multiset(Origins(e.slots))[x] + multiset(Places(e.removed))[x] == if 0 <= x < |start| then 1 else 0
  {
    FilterAll(e.removed, Original);
    UptoMembers(|start|, x);
    assert multiset(Origins(e.slots))[x] + multiset(Places(e.removed))[x] == multiset(Upto(|start|))[x];
  }

  lemma KeptPlace(start: seq<Rule>, e: Edits, s: Slot)
    requires Conserved(start, e) && s in e.slots && Original(s)
    ensures 0 <= s.from < |start| && s.from in Origins(e.slots) && s.from !in Places(e.removed)
  {
    FilterMember(e.slots, Original, s);
    var i :| 0 <= i < |Filter(e.slots, Original)| && Filter(e.slots, Original)[i] == s;
    assert Origins(e.slots)[i] == s.from;
    PlaceOnce(start, e, s.from);
  }

  lemma GonePlace(start: seq<Rule>, e: Edits, s: Slot)
    requires Conserved(start, e) && (s in e.removed || s in ByPlace(e.removed))
    ensures 0 <= s.from < |start| && s.from in Places(e.removed)
  {
    ByPlaceRearranges(e.removed);
    assert s in multiset(e.removed);
    var i :| 0 <= i < |e.removed| && e.removed[i] == s;
    assert Places(e.removed)[i] == s.from;
    PlaceOnce(start, e, s.from);
  }

  /** The places of the removed rules, in order; no two share one. */
  lemma SortedByPlace(start: seq<Rule>, e: Edits)
    requires Conserved(start, e)
    ensures forall s :: s in ByPlace(e.removed) ==> 0 <= s.from < |start|
    ensures Ascending(Places(ByPlace(e.removed)))
    ensures forall i :: 0 <= i < |e.removed| ==> 0 <= Places(ByPlace(e.removed))[i] < |start|
  {
    var sorted := ByPlace(e.removed);
    ByPlaceRearranges(e.removed);
    ByPlaceSorts(e.removed);
    forall s | s in sorted
      ensures 0 <= s.from < |start|
    {
      GonePlace(start, e, s);
    }
    forall a, b | 0 <= a < b < |sorted|
      ensures sorted[a].from < sorted[b].from
    {
      var f := Places(sorted);
      if f[a] == f[b] {
        PlaceOnce(start, e, f[a]);
        Twice(f, a, b);
      }
    }
  }

  datatype Counts = Counts(added: nat, changed: nat, moved: nat, removed: nat)

  /** The rows of removed rules: each one's start rule, with the place it had. */
  function GoneRows(start: seq<Rule>, places: seq<nat>): (r: seq<Row>)
    requires forall i :: 0 <= i < |places| ==> places[i] < |start|
    ensures |r| == |places|
    ensures forall i :: 0 <= i < |r| ==> r[i] == GoneRow(start, places[i])
  {
    seq(|places|, i requires 0 <= i < |places| => GoneRow(start, places[i]))
  }

  function CountMark(rows: seq<Row>, m: Mark): nat {
    if rows == [] then 0 else CountMark(rows[..|rows| - 1], m) + (if rows[|rows| - 1].mark == m then 1 else 0)
  }

  function CountsOf(rows: seq<Row>, removed: nat): Counts {
    Counts(CountMark(rows, Added), CountMark(rows, Changed), CountMark(rows, Moved), removed)
  }

  /** The rows of the rules the level would run, numbered and marked. */
  method KeptRows(slots: seq<Slot>, start: seq<Rule>) returns (items: seq<Row>, counts: Counts)
    requires forall s :: s in slots ==> s.from < |start|
    ensures items == SlotRows(start, slots) && counts == CountsOf(items, 0)
  {
    items := [];
    counts := Counts(0, 0, 0, 0);
    for i := 0 to |slots|
      invariant items == SlotRows(start, slots)[..i] && counts == CountsOf(items, 0)
    {
      var s := slots[i];
      var row := Row(Same, i + 1, s.rule, None, None);
      if s.from < 0 {
        row := row.(mark := Added);
        counts := counts.(added := counts.added + 1);
      } else if s.rule != start[s.from] {
        row := row.(mark := Changed, was := Some(start[s.from]));
        counts := counts.(changed := counts.changed + 1);
        if s.moved {
          row := row.(wasAt := Some(s.from + 1));
        }
      } else if s.moved {
        row := row.(mark := Moved, wasAt := Some(s.from + 1));
        counts := counts.(moved := counts.moved + 1);
      }
      assert (items + [row])[..i] == items;
      items := items + [row];
    }
  }

  /** The edit card's list: the final list with every removed rule at the place it had. */
  function CardRows(e: Edits, start: seq<Rule>): seq<Row>
    requires Conserved(start, e)
  {
    SortedByPlace(start, e);
    var places := Places(ByPlace(e.removed));
    Weave(0, SlotRows(start, e.slots), places, GoneRows(start, places))
  }

  /** Each removed rule inserted where it stood, or at the end where the list is too short for that. */
  method PutBack(rows: seq<Row>, removed: seq<Slot>, start: seq<Rule>) returns (items: seq<Row>)
    requires forall i :: 0 <= i < |removed| ==> 0 <= Places(removed)[i] < |start|
    requires Ascending(Places(removed))
    ensures items == Weave(0, rows, Places(removed), GoneRows(start, Places(removed)))
  {
    ghost var places := Places(removed);
    ghost var gone := GoneRows(start, places);
    items := rows;
    WeaveNone(0, rows);
    for k := 0 to |removed|
      invariant items == Weave(0, rows, places[..k], gone[..k])
    {
      var s := removed[k];
      WeaveNext(rows, places, gone, k);
      items := InsertAt(items, Min(s.from, |items|), GoneRow(start, s.from));
    }
    assert gone[..|removed|] == gone && places[..|removed|] == places;
  }

  /** The card's list and its counts. */
  method Card(e: Edits, start: seq<Rule>) returns (items: seq<Row>, counts: Counts)
    requires Conserved(start, e)
    ensures items == CardRows(e, start)
    ensures counts == CountsOf(SlotRows(start, e.slots), |e.removed|)
  {
    forall s | s in e.slots && s.from >= 0
      ensures s.from < |start|
    {
      KeptPlace(start, e, s);
    }
    items, counts := KeptRows(e.slots, start);
    var removed := ByPlace(e.removed);
    SortedByPlace(start, e);
    items := PutBack(items, removed, start);
    counts := counts.(removed := |removed|);
  }

  // ---- what the edit card shows ----

  /** A row that does not stay is one of the gone rows, at its place. */
  lemma {:induction false} WeaveGoneOnly<T>(at: nat, items: seq<T>, places: seq<nat>, gone: seq<T>, stays: T -> bool,
                                            r: nat)
    returns (k: nat)
    requires |places| == |gone| && Ascending(places) && (forall x :: x in items ==> stays(x))
    requires forall i :: 0 <= i < |gone| ==> at <= places[i] <= at + |items| + i
    requires r < |items| + |gone| && !stays(Weave(at, items, places, gone)[r])
    ensures k < |gone| && places[k] == at + r
    decreases |items| + |gone|
  {
    if gone != [] && (places[0] <= at || items == []) {
      k := 0;
      if r > 0 {
        k := WeaveGoneOnly(at + 1, items, places[1..], gone[1..], stays, r - 1);
        k := k + 1;
      }
    } else {
      k := WeaveGoneOnly(at + 1, items[1..], places, gone, stays, r - 1);
    }
  }

  /** The rows above a removed rule's place are always enough to draw it there: the bound on the
      insertion point never bites. */
  lemma {:induction false} RoomAbove(start: seq<Rule>, e: Edits, i: nat)
    requires Conserved(start, e) && i < |e.removed|
    ensures Places(ByPlace(e.removed))[i] <= |e.slots| + i
  {
    SortedByPlace(start, e);
    var places := Places(ByPlace(e.removed));
    var p := places[i];
    var have := Origins(e.slots) + places[..i];
    forall v | v in Below(p)
      ensures v in have
    {
      PlaceOnce(start, e, v);
      if v !in Origins(e.slots) {
        ByPlaceRearranges(e.removed);
        assert v in multiset(places);
        var a :| 0 <= a < |places| && places[a] == v;
        assert a < i;
        assert v == places[..i][a];
      }
    }
    ElementsBound(have, Below(p));
  }

  lemma {:induction false} RoomForAll(start: seq<Rule>, e: Edits)
    requires Conserved(start, e)
    ensures forall i :: 0 <= i < |e.removed| ==> Places(ByPlace(e.removed))[i] <= |e.slots| + i
  {
    forall i | 0 <= i < |e.removed|
      ensures Places(ByPlace(e.removed))[i] <= |e.slots| + i
    {
      RoomAbove(start, e, i);
    }
  }

  lemma {:induction false} SamePlaces(removed: seq<Slot>, k: int)
    ensures k in Places(ByPlace(removed)) <==> k in Places(removed)
  {
    ByPlaceRearranges(removed);
    assert k in Places(removed) <==> k in multiset(Places(removed));
    assert k in Places(ByPlace(removed)) <==> k in multiset(Places(ByPlace(removed)));
  }

  lemma {:induction false} GoneRowHasPlace(start: seq<Rule>, e: Edits, k: nat)
    requires Conserved(start, e) && k < |e.slots| + |e.removed|
    requires CardRows(e, start)[k].mark == Gone
    ensures k in Places(e.removed) && k < |start| && CardRows(e, start)[k] == GoneRow(start, k)
  {
    SortedByPlace(start, e);
    RoomForAll(start, e);
    var items, places := SlotRows(start, e.slots), Places(ByPlace(e.removed));
    var gone := GoneRows(start, places);
    var i := WeaveGoneOnly(0, items, places, gone, Stays, k);
    SamePlaces(e.removed, places[i]);
    WeavePlaces(0, items, places, gone, i);
  }

  lemma {:induction false} PlaceHasGoneRow(start: seq<Rule>, e: Edits, k: nat)
    requires Conserved(start, e) && k in Places(e.removed)
    ensures k < |CardRows(e, start)| && CardRows(e, start)[k].mark == Gone
  {
    SortedByPlace(start, e);
    RoomForAll(start, e);
    var items, places := SlotRows(start, e.slots), Places(ByPlace(e.removed));
    SamePlaces(e.removed, k);
    var i :| 0 <= i < |places| && places[i] == k;
    WeavePlaces(0, items, places, GoneRows(start, places), i);
  }

  /** The edit card shows the final list numbered in order once its removed rows are struck out, and a
      removed rule's row at exactly the place the rule had; those rows are the places no slot kept. */
  lemma {:induction false} CardIsFaithful(start: seq<Rule>, e: Edits)
    requires Conserved(start, e)
    ensures var rows := CardRows(e, start);
            && |rows| == |e.slots| + |e.removed|
            && Filter(rows, Stays) == SlotRows(start, e.slots)
            && (forall k :: 0 <= k < |rows| ==> (rows[k].mark == Gone <==> k in Places(e.removed)))
            && (forall k :: 0 <= k < |rows| && rows[k].mark == Gone ==> k < |start| && rows[k] == GoneRow(start, k))
  {
    SortedByPlace(start, e);
    var places := Places(ByPlace(e.removed));
    WeaveKeepsOrder(0, SlotRows(start, e.slots), places, GoneRows(start, places), Stays);
    forall k | 0 <= k < |CardRows(e, start)|
      ensures CardRows(e, start)[k].mark == Gone <==> k in Places(e.removed)
      ensures CardRows(e, start)[k].mark == Gone ==> k < |start| && CardRows(e, start)[k] == GoneRow(start, k)
    {
      if CardRows(e, start)[k].mark == Gone {
        GoneRowHasPlace(start, e, k);
      } else if k in Places(e.removed) {
        PlaceHasGoneRow(start, e, k);
      }
    }
  }

  lemma {:induction false} AddedCount(start: seq<Rule>, slots: seq<Slot>)
    requires forall s :: s in slots ==> s.from < |start|
    ensures CountMark(SlotRows(start, slots), Added) + |Filter(slots, Original)| == |slots|
  {
    if slots != [] {
      var n := |slots| - 1;
      var front, last := slots[..n], slots[n];
      AddedCount(start, front);
      assert SlotRows(start, slots)[..n] == SlotRows(start, front);
      assert slots == front + [last];
      FilterConcat(front, [last], Original);
    }
  }

  /** What the summary counts add up: the rules there were, the ones added and the ones removed. */
  lemma SummaryBalances(start: seq<Rule>, e: Edits)
    requires Conserved(start, e)
    ensures var counts := CountsOf(SlotRows(start, e.slots), |e.removed|);
            |start| + counts.added == |e.slots| + counts.removed
  {
    forall s | s in e.slots
      ensures s.from < |start|
    {
      if Original(s) {
        KeptPlace(start, e, s);
      }
    }
    AddedCount(start, e.slots);
    FilterAll(e.removed, Original);
    assert |multiset(Origins(e.slots)) + multiset(Origins(e.removed))| == |multiset(Upto(|start|))|;
  }

  /** Items and gone rows that between them hold every place from at up to n, each in order, are laid out
      place by place. */
  lemma {:induction false} WeaveInOrder<T>(at: nat, n: nat, items: seq<T>, froms: seq<int>, places: seq<nat>,
                                           gone: seq<T>, v: nat)
    requires |froms| == |items| && |places| == |gone| && Ascending(places) && at <= v < n
    requires forall a, b :: 0 <= a < b < |froms| ==> froms[a] < froms[b]
    requires forall x :: x in froms || x in places <==> at <= x < n
    requires forall x :: x in places ==> x !in froms
    ensures v - at < |items| + |gone|
    ensures (exists i :: 0 <= i < |items| && froms[i] == v && Weave(at, items, places, gone)[v - at] == items[i]) ||
            (exists i :: 0 <= i < |gone| && places[i] == v && Weave(at, items, places, gone)[v - at] == gone[i])
    decreases |items| + |gone|
  {
    if gone != [] && (places[0] <= at || items == []) {
      assert places[0] in places;
      if v == at {
        assert at in places;
        assert places[0] == at;
      } else {
        var p := places[1..];
        assert places[0] == at by { assert at in froms || at in places; }
        forall x
          ensures x in froms || x in p <==> at + 1 <= x < n
        {
          assert x in places <==> x == at || x in p;
          assert x in p ==> x > at;
        }
        WeaveInOrder(at + 1, n, items, froms, p, gone[1..], v);
      }
    } else {
      assert at in froms || at in places;
      assert froms[0] in froms;
      assert froms[0] == at;
      if v != at {
        var f := froms[1..];
        forall x
          ensures x in f || x in places <==> at + 1 <= x < n
        {
          assert x in froms <==> x == at || x in f;
          assert x in f ==> x > at;
        }
        WeaveInOrder(at + 1, n, items[1..], f, places, gone, v);
      }
    }
  }

  /** With nothing added, the slots kept and the rules removed hold every start place between them. */
  lemma {:induction false} PlacesSplit(start: seq<Rule>, e: Edits, x: int)
    requires Conserved(start, e) && forall s :: s in e.slots ==> Original(s)
    ensures var gone := Places(ByPlace(e.removed));
            (x in Places(e.slots) || x in gone <==> 0 <= x < |start|) && (x in gone ==> x !in Places(e.slots))
  {
    var gone := Places(ByPlace(e.removed));
    FilterAll(e.slots, Original);
    PlaceOnce(start, e, x);
    ByPlaceRearranges(e.removed);
    assert x in gone <==> x in multiset(gone);
    assert x in Places(e.slots) <==> x in multiset(Places(e.slots));
  }

  lemma {:induction false} PlacesSplitAll(start: seq<Rule>, e: Edits)
    requires Conserved(start, e) && InOrder(e.slots) && forall s :: s in e.slots ==> Original(s) && !s.moved
    ensures var gone := Places(ByPlace(e.removed));
            forall x :: (x in Places(e.slots) || x in gone <==> 0 <= x < |start|) &&
              (x in gone ==> x !in Places(e.slots))
    ensures var froms := Places(e.slots);
            forall a, b :: 0 <= a < b < |froms| ==> froms[a] < froms[b]
  {
    forall x {
      PlacesSplit(start, e, x);
    }
  }

  /** Slots of the start that no op took anywhere. */
  predicate Unmoved(slots: seq<Slot>) { forall i :: 0 <= i < |slots| ==> Original(slots[i]) && !slots[i].moved }

  /** Row k is start rule k: struck out, or in the slot that kept it. */
  ghost predicate ShowsStartRule(start: seq<Rule>, e: Edits, k: nat)
    requires Conserved(start, e) && k < |start|
  {
    var rows := CardRows(e, start);
    k < |rows| &&
    (rows[k] == GoneRow(start, k) ||
     exists i :: 0 <= i < |e.slots| && e.slots[i].from == k && rows[k] == SlotRow(start, e.slots[i], i))
  }

  predicate EditsOrRemoves(ops: seq<Op>) { forall i :: 0 <= i < |ops| ==> ops[i].kind.Edit? || ops[i].kind.Remove? }

  lemma {:induction false} OneStaysUnmoved(e: Edits, op: Op, keysOf: KeysOf)
    requires Unmoved(e.slots) && (op.kind.Edit? || op.kind.Remove?) && Applied(e, op, keysOf).Ok?
    ensures Unmoved(Applied(e, op, keysOf).value.slots)
  {
  }

  lemma {:induction false} AllStayUnmoved(e: Edits, ops: seq<Op>, keysOf: KeysOf)
    requires Unmoved(e.slots) && EditsOrRemoves(ops) && AppliedAll(e, ops, keysOf).Ok?
    ensures Unmoved(AppliedAll(e, ops, keysOf).value.slots)
    decreases |ops|
  {
    if ops != [] {
      OneStaysUnmoved(e, ops[0], keysOf);
      AllStayUnmoved(Applied(e, ops[0], keysOf).value, ops[1..], keysOf);
    }
  }

  /** A call that only edits and removes shows the start list in its own order: row k is start rule k,
      struck out, changed or as it was. */
  lemma {:induction false} EditsShowStartOrder(start: seq<Rule>, ops: seq<Op>, keysOf: KeysOf, k: nat)
    requires Shaped(start) && EditsOrRemoves(ops) && AppliedAll(Start(start), ops, keysOf).Ok? && k < |start|
    ensures Conserved(start, AppliedAll(Start(start), ops, keysOf).value)
    ensures ShowsStartRule(start, AppliedAll(Start(start), ops, keysOf).value, k)
  {
    StartKept(start);
    AcceptedKeeps(start, Start(start), ops, keysOf);
    AllStayUnmoved(Start(start), ops, keysOf);
    UnmovedShowStartOrder(start, AppliedAll(Start(start), ops, keysOf).value, k);
  }

  lemma {:induction false} UnmovedShowStartOrder(start: seq<Rule>, e: Edits, k: nat)
    requires Conserved(start, e) && InOrder(e.slots) && k < |start| && Unmoved(e.slots)
    ensures ShowsStartRule(start, e, k)
  {
    SortedByPlace(start, e);
    var items, froms, places := SlotRows(start, e.slots), Places(e.slots), Places(ByPlace(e.removed));
    PlacesSplitAll(start, e);
    WeaveInOrder(0, |start|, items, froms, places, GoneRows(start, places), k);
  }

  // ---- the inherit card ----

  /** The rules of own whose flag in used is b. */
  function Picked(own: seq<Rule>, used: seq<bool>, b: bool): seq<Rule>
    requires |own| == |used|
  {
    if own == [] then []
    else if used[0] == b then [own[0]] + Picked(own[1..], used[1..], b)
    else Picked(own[1..], used[1..], b)
  }

  lemma {:induction false} PickedSplits(own: seq<Rule>, used: seq<bool>)
    requires |own| == |used|
    ensures multiset(Picked(own, used, true)) + multiset(Picked(own, used, false)) == multiset(own)
  {
    if own != [] {
      PickedSplits(own[1..], used[1..]);
      assert own == [own[0]] + own[1..];
    }
  }

  lemma {:induction false} PickedHas(own: seq<Rule>, used: seq<bool>, j: nat)
    requires j < |own| == |used|
    ensures own[j] in Picked(own, used, used[j])
  {
    if j > 0 {
      PickedHas(own[1..], used[1..], j - 1);
    }
  }

  lemma {:induction false} PickedFrom(own: seq<Rule>, used: seq<bool>, b: bool, r: Rule)
    requires |own| == |used| && r in Picked(own, used, b)
    ensures exists j :: 0 <= j < |own| && own[j] == r && used[j] == b
  {
    if used[0] == b && own[0] == r {
      assert own[0] == r;
    } else {
      PickedFrom(own[1..], used[1..], b, r);
      var j :| 0 <= j < |own[1..]| && own[1..][j] == r && used[1..][j] == b;
      assert own[j + 1] == r && used[j + 1] == b;
    }
  }

  lemma {:induction false} PickOne(own: seq<Rule>, used: seq<bool>, j: nat)
    requires j < |own| == |used| && !used[j]
    ensures multiset(Picked(own, used[j := true], true)) == multiset(Picked(own, used, true)) + multiset{own[j]}
  {
    var next := used[j := true];
    if j == 0 {
      assert next[1..] == used[1..];
    } else {
      PickOne(own[1..], used[1..], j - 1);
      assert next[1..] == used[1..][j - 1 := true];
    }
  }

  function RuleShown(r: Row): Rule { r.rule }

  predicate IsSame(r: Row) { r.mark == Same }

  /** The rules a card marks as ones the level had already. */
  function SameRules(rows: seq<Row>): seq<Rule> { Map(Filter(rows, IsSame), RuleShown) }

  lemma {:induction false} SameRulesSnoc(rows: seq<Row>, r: Row)
    ensures SameRules(rows + [r]) == SameRules(rows) + if IsSame(r) then [r.rule] else []
  {
    FilterConcat(rows, [r], IsSame);
  }

  /** Rows of up numbered in order, each marked as one the level had or a new one. */
  predicate UpRows(up: seq<Rule>, rows: seq<Row>) {
    |rows| <= |up| && forall i :: 0 <= i < |rows| ==>
      rows[i] == Row(rows[i].mark, i + 1, up[i], None, None) && (rows[i].mark == Same || rows[i].mark == Added)
  }

  /** As many of each rule are matched as both lists hold. */
  ghost predicate Matched(own: seq<Rule>, used: seq<bool>, up: seq<Rule>)
    requires |own| == |used|
  {
    multiset(Picked(own, used, true)) == multiset(own) * multiset(up)
  }

  /** The first rule of own not used yet that says the same as r, or |own|. */
  method FirstUnused(own: seq<Rule>, used: array<bool>, r: Rule) returns (j: nat)
    requires used.Length == |own|
    ensures j <= |own| && (forall k :: 0 <= k < j ==> used[k] || own[k] != r)
    ensures j < |own| ==> !used[j] && own[j] == r
  {
    j := 0;
    while j < |own| && (used[j] || own[j] != r)
      invariant j <= |own|
      invariant forall k :: 0 <= k < j ==> used[k] || own[k] != r
    {
      j := j + 1;
    }
  }

  /** The rows of up drawn so far, with exactly the rules of own they match marked used. */
  ghost predicate Drawn(own: seq<Rule>, used: seq<bool>, up: seq<Rule>, items: seq<Row>) {
    && |own| == |used| && |items| == |up| && UpRows(up, items)
    && Matched(own, used, up)
    && multiset(SameRules(items)) == multiset(Picked(own, used, true))
  }

  lemma {:induction false} DrawNext(own: seq<Rule>, used: seq<bool>, up: seq<Rule>, items: seq<Row>, r: Rule, j: nat)
    requires Drawn(own, used, up, items) && j <= |own|
    requires forall k :: 0 <= k < j ==> used[k] || own[k] != r
    requires j < |own| ==> !used[j] && own[j] == r
    ensures j < |own| ==> Drawn(own, used[j := true], up + [r], items + [Row(Same, |up| + 1, r, None, None)])
    ensures j == |own| ==> Drawn(own, used, up + [r], items + [Row(Added, |up| + 1, r, None, None)])
  {
    MatchStep(own, used, up, r, j);
    SameRulesSnoc(items, Row(if j < |own| then Same else Added, |up| + 1, r, None, None));
  }

  /** Each rule of up, marked "=" where an unused rule of own says the same and "+" where none does. */
  method MatchUp(own: seq<Rule>, up: seq<Rule>) returns (items: seq<Row>, used: array<bool>)
    ensures fresh(used) && Drawn(own, used[..], up, items)
  {
    used := new bool[|own|](_ => false);
    items := [];
    ghost var flags, done := used[..], up[..0];
    DrawNone(own, flags);
    for i := 0 to |up|
      invariant |flags| == |own| && forall k :: 0 <= k < |own| ==> used[k] == flags[k]
      invariant done == up[..i]
      invariant Drawn(own, flags, done, items)
    {
      var j := FirstUnused(own, used, up[i]);
      DrawNext(own, flags, done, items, up[i], j);
      done := done + [up[i]];
      if j < |own| {
        used[j] := true;
        flags := flags[j := true];
        items := items + [Row(Same, i + 1, up[i], None, None)];
      } else {
        items := items + [Row(Added, i + 1, up[i], None, None)];
      }
    }
    assert used[..] == flags && done == up;
  }

  lemma {:induction false} NonePicked(own: seq<Rule>, used: seq<bool>)
    requires |own| == |used| && forall i :: 0 <= i < |used| ==> !used[i]
    ensures Picked(own, used, true) == []
  {
    if own != [] {
      NonePicked(own[1..], used[1..]);
    }
  }

  lemma {:induction false} DrawNone(own: seq<Rule>, used: seq<bool>)
    requires |own| == |used| && forall i :: 0 <= i < |used| ==> !used[i]
    ensures Drawn(own, used, [], [])
  {
    NonePicked(own, used);
    assert multiset(own) * multiset{} == multiset{};
  }

  /** Taking the first unused rule that says the same keeps the matching as large as it can be. */
  lemma {:induction false} MatchStep(own: seq<Rule>, used: seq<bool>, up: seq<Rule>, r: Rule, j: nat)
    requires |own| == |used| && j <= |own| && Matched(own, used, up)
    requires forall k :: 0 <= k < j ==> used[k] || own[k] != r
    requires j < |own| ==> !used[j] && own[j] == r
    ensures Matched(own, if j < |own| then used[j := true] else used, up + [r])
    ensures j < |own| ==>
      multiset(Picked(own, used[j := true], true)) == multiset(Picked(own, used, true)) + multiset{r}
  {
    PickedSplits(own, used);
    if j < |own| {
      PickOne(own, used, j);
      PickedHas(own, used, j);
    } else if r in Picked(own, used, false) {
      PickedFrom(own, used, false, r);
    }
  }

  /** The places of own's rules that nothing matched, from at on. */
  function Unused(used: seq<bool>, at: nat): seq<nat> {
    if used == [] then [] else if used[0] then Unused(used[1..], at + 1) else [at] + Unused(used[1..], at + 1)
  }

  lemma {:induction false} UnusedAscends(used: seq<bool>, at: nat)
    ensures forall i :: 0 <= i < |Unused(used, at)| ==> at <= Unused(used, at)[i] < at + |used|
    ensures Ascending(Unused(used, at))
  {
    if used != [] {
      UnusedAscends(used[1..], at + 1);
    }
  }

  /** The rows of the rules nothing matched. */
  function UnusedRows(own: seq<Rule>, used: seq<bool>): seq<Row>
    requires |own| == |used|
  {
    UnusedAscends(used, 0);
    GoneRows(own, Unused(used, 0))
  }

  /** Each rule of own that nothing matched, inserted where it stood. */
  method StrikeUnused(rows: seq<Row>, own: seq<Rule>, used: seq<bool>) returns (items: seq<Row>)
    requires |used| == |own|
    ensures items == Weave(0, rows, Unused(used, 0), UnusedRows(own, used))
  {
    ghost var places, gone := Unused(used, 0), UnusedRows(own, used);
    UnusedAscends(used, 0);
    items := rows;
    WeaveNone(0, rows);
    ghost var k := 0;
    assert used[0..] == used;
    for j := 0 to |own|
      invariant k <= |places| && Unused(used[j..], j) == places[k..]
      invariant items == Weave(0, rows, places[..k], gone[..k])
    {
      ghost var rest := places[k..];
      assert used[j..][1..] == used[j + 1..];
      if !used[j] {
        assert rest[0] == places[k] == j && gone[k] == GoneRow(own, j);
        assert rest[1..] == places[k + 1..];
        WeaveNext(rows, places, gone, k);
        items := InsertAt(items, Min(j, |items|), GoneRow(own, j));
        k := k + 1;
      }
    }
    assert places[..k] == places && gone[..k] == gone;
  }

  /** The list a level falls back to, with each of its own rules that goes. */
  method BranchRulesInherited(own: seq<Rule>, up: seq<Rule>) returns (items: seq<Row>)
    ensures UpRows(up, Filter(items, Stays)) && |Filter(items, Stays)| == |up|
    ensures multiset(SameRules(items)) == multiset(own) * multiset(up)
    ensures multiset(SameRules(items)) + multiset(GoneRules(items)) == multiset(own)
    ensures forall k :: 0 <= k < |items| && items[k].mark == Gone ==> k < |own| && items[k] == GoneRow(own, k)
  {
    var used;
    items, used := MatchUp(own, up);
    ghost var rows, flags := items, used[..];
    InheritedIsFaithful(own, up, flags, rows);
    items := StrikeUnused(items, own, used[..]);
    forall k | 0 <= k < |items| && items[k].mark == Gone
      ensures k < |own| && items[k] == GoneRow(own, k)
    {
      InheritedGone(own, up, flags, rows, k);
    }
  }

  predicate IsGone(r: Row) { r.mark == Gone }

  /** The level's own rules a card strikes out. */
  function GoneRules(rows: seq<Row>): seq<Rule> { Map(Filter(rows, IsGone), RuleShown) }

  lemma {:induction false} UnusedRules(own: seq<Rule>, used: seq<bool>, at: nat)
    requires |own| == |used|
    ensures |Unused(used, at)| == |Picked(own, used, false)|
  {
    if own != [] {
      UnusedRules(own[1..], used[1..], at + 1);
    }
  }

  lemma {:induction false} UnusedRule(own: seq<Rule>, used: seq<bool>, at: nat, i: nat)
    requires |own| == |used| && i < |Unused(used, at)|
    ensures |Unused(used, at)| == |Picked(own, used, false)|
    ensures at <= Unused(used, at)[i] < at + |used|
    ensures Picked(own, used, false)[i] == own[Unused(used, at)[i] - at]
    ensures Unused(used, at)[i] <= at + |Picked(own, used, true)| + i
  {
    UnusedRules(own, used, at);
    if used[0] {
      UnusedRule(own[1..], used[1..], at + 1, i);
    } else if i > 0 {
      UnusedRule(own[1..], used[1..], at + 1, i - 1);
    }
  }

  /** Rows that do not stay leave the rows marked "=" to the items, and the rows that go to the rest. */
  lemma {:induction false} WeaveParts(at: nat, items: seq<Row>, places: seq<nat>, gone: seq<Row>)
    requires |places| == |gone| && (forall x :: x in items ==> Stays(x)) && (forall g :: g in gone ==> IsGone(g))
    ensures Filter(Weave(at, items, places, gone), IsSame) == Filter(items, IsSame)
    ensures Filter(Weave(at, items, places, gone), IsGone) == gone
    decreases |items| + |gone|
  {
    var w := Weave(at, items, places, gone);
    if gone != [] && (places[0] <= at || items == []) {
      assert gone[0] in gone;
      WeaveParts(at + 1, items, places[1..], gone[1..]);
      assert w[1..] == Weave(at + 1, items, places[1..], gone[1..]);
    } else if items != [] {
      assert items[0] in items;
      WeaveParts(at + 1, items[1..], places, gone);
      assert w[1..] == Weave(at + 1, items[1..], places, gone);
    }
  }

  lemma {:induction false} UnusedFit(own: seq<Rule>, used: seq<bool>, room: nat)
    requires |own| == |used| && |Picked(own, used, true)| <= room
    ensures Map(UnusedRows(own, used), RuleShown) == Picked(own, used, false)
    ensures forall i :: 0 <= i < |Unused(used, 0)| ==> Unused(used, 0)[i] <= room + i
  {
    UnusedRules(own, used, 0);
    forall i | 0 <= i < |Unused(used, 0)|
      ensures Unused(used, 0)[i] < |own| && Unused(used, 0)[i] <= room + i
      ensures Picked(own, used, false)[i] == own[Unused(used, 0)[i]]
    {
      UnusedRule(own, used, 0, i);
    }
  }

  lemma {:induction false} InheritedIsFaithful(own: seq<Rule>, up: seq<Rule>, used: seq<bool>, rows: seq<Row>)
    requires Drawn(own, used, up, rows)
    ensures var items := Weave(0, rows, Unused(used, 0), UnusedRows(own, used));
            && Filter(items, Stays) == rows
            && multiset(SameRules(items)) == multiset(own) * multiset(up)
            && multiset(SameRules(items)) + multiset(GoneRules(items)) == multiset(own)
  {
    WeaveKeepsOrder(0, rows, Unused(used, 0), UnusedRows(own, used), Stays);
    WeaveParts(0, rows, Unused(used, 0), UnusedRows(own, used));
    SameFit(own, used, up, rows);
    UnusedFit(own, used, |rows|);
    PickedSplits(own, used);
  }

  lemma {:induction false} SameFit(own: seq<Rule>, used: seq<bool>, up: seq<Rule>, rows: seq<Row>)
    requires Drawn(own, used, up, rows)
    ensures |Picked(own, used, true)| <= |rows|
  {
    assert |multiset(SameRules(rows))| == |multiset(Picked(own, used, true))|;
  }

  /** A rule struck out is drawn at exactly the place it had in the level's own list. */
  lemma {:induction false} InheritedGone(own: seq<Rule>, up: seq<Rule>, used: seq<bool>, rows: seq<Row>, k: nat)
    requires Drawn(own, used, up, rows)
    requires k < |Weave(0, rows, Unused(used, 0), UnusedRows(own, used))|
    requires Weave(0, rows, Unused(used, 0), UnusedRows(own, used))[k].mark == Gone
    ensures k < |own| && Weave(0, rows, Unused(used, 0), UnusedRows(own, used))[k] == GoneRow(own, k)
  {
    var places, gone := Unused(used, 0), UnusedRows(own, used);
    UnusedAscends(used, 0);
    SameFit(own, used, up, rows);
    UnusedFit(own, used, |rows|);
    var i := WeaveGoneOnly(0, rows, places, gone, Stays, k);
    WeavePlaces(0, rows, places, gone, i);
  }
}
