/** Change sets one after the other: what the account of the two together is, and why
    merging their index sets reports it. */
module Merges {
  import opened Common
  import opened Ranges
  import opened RangeOps
  import opened Changes
  import opened SetOperations

  // ---------- the account of two change sets ----------

  /** The rows of the second account come from those of the first. */
  ghost predicate Joins(a: seq<Item>, b: seq<Item>) {
    forall j :: 0 <= j < |b| && b[j].origin.Some? ==> b[j].origin.value < |a|
  }

  /** One row: where it came from in the end. The modification mark of a row that was
      inserted by the first change set and moved by the second is dropped; it is
      reported as an insertion. */
  ghost function Through(a: seq<Item>, item: Item): Item
    requires item.origin.Some? ==> item.origin.value < |a|
  {
    if item.origin.None? then item.(moved := false)
    else
      var x := a[item.origin.value];
      Item(x.origin, x.origin.Some? && (x.moved || item.moved),
           item.dirty || (x.dirty && !(item.moved && x.origin.None?)))
  }

  ghost function Composed(a: seq<Item>, b: seq<Item>): (r: seq<Item>)
    requires Joins(a, b)
    ensures |r| == |b| && forall j :: 0 <= j < |b| ==> r[j] == Through(a, b[j])
  {
    seq(|b|, j requires 0 <= j < |b| => Through(a, b[j]))
  }

  /** The composed account is true of the rows. */
  lemma {:induction false} ComposedTracks<T>(old_: seq<T>, mid: seq<T>, rows: seq<T>, a: seq<Item>, b: seq<Item>)
    requires Tracks(old_, mid, a) && Tracks(mid, rows, b)
    ensures Joins(a, b) && Tracks(old_, rows, Composed(a, b))
  {
  }

  // ---------- merging and recording ----------

  /** One row as recording both histories in one change set leaves it: every mark is kept. */
  ghost function Continued(a: seq<Item>, item: Item): Item
    requires item.origin.Some? ==> item.origin.value < |a|
  {
    if item.origin.None? then item.(moved := false)
    else
      var x := a[item.origin.value];
      Item(x.origin, x.origin.Some? && (x.moved || item.moved), item.dirty || x.dirty)
  }

  ghost function Recorded(a: seq<Item>, b: seq<Item>): (r: seq<Item>)
    requires Joins(a, b)
    ensures |r| == |b| && forall j :: 0 <= j < |b| ==> r[j] == Continued(a, b[j])
  {
    seq(|b|, j requires 0 <= j < |b| => Continued(a, b[j]))
  }

  ghost predicate MovedKnown(items: seq<Item>) {
    forall j :: 0 <= j < |items| && items[j].moved ==> items[j].origin.Some?
  }

  /** One more change to the second list of changes is one more to both together. */
  lemma {:induction false} StepThrough<T>(a: seq<Item>, b: seq<Item>, c: Change<T>)
    requires Joins(a, b) && Allowed(|b|, c)
    ensures Joins(a, Items(b, c)) && Items(Recorded(a, b), c) == Recorded(a, Items(b, c))
  {
    hide Insert, Erase;
    match c
    case InsertRows(index, xs) =>
      InsertThrough(a, b, index, NewItems(|xs|), NewItems(|xs|));
    case EraseRow(index) =>
      EraseThrough(a, b, index);
    case MoveRow(from, to) =>
      EraseThrough(a, b, from);
      InsertThrough(a, Erase(b, from), to, [b[from].(moved := b[from].origin.Some?)],
                    [Recorded(a, b)[from].(moved := Recorded(a, b)[from].origin.Some?)]);
    case ModifyRow(_) =>
    case ClearRows =>
  }

  lemma {:induction false} EraseThrough(a: seq<Item>, b: seq<Item>, index: nat)
    requires Joins(a, b) && index < |b|
    ensures Joins(a, Erase(b, index)) && Erase(Recorded(a, b), index) == Recorded(a, Erase(b, index))
  {
    hide Continued;
  }

  lemma {:induction false} InsertThrough(a: seq<Item>, b: seq<Item>, index: nat, ys: seq<Item>, xs: seq<Item>)
    requires Joins(a, b) && index <= |b| && Joins(a, ys) && xs == Recorded(a, ys)
    ensures Joins(a, Insert(b, index, ys)) && Insert(Recorded(a, b), index, xs) == Recorded(a, Insert(b, index, ys))
  {
    hide Continued;
  }

  lemma {:induction false} RunThrough<T>(a: seq<Item>, b: seq<Item>, cs: seq<Change<T>>)
    requires Joins(a, b) && AllowedRun(Recorded(a, b), cs)
    ensures AllowedRun(b, cs) && Joins(a, RunItems(b, cs)) && RunItems(Recorded(a, b), cs) == Recorded(a, RunItems(b, cs))
    decreases |cs|
  {
    hide Recorded, Joins, Items;
    if cs != [] {
      StepThrough(a, b, cs[0]);
      RunThrough(a, Items(b, cs[0]), cs[1..]);
    }
  }

  lemma {:induction false} RunMovedKnown<T>(items: seq<Item>, cs: seq<Change<T>>)
    requires AllowedRun(items, cs) && MovedKnown(items)
    ensures MovedKnown(RunItems(items, cs))
    decreases |cs|
  {
    if cs != [] {
      StepMovedKnown(items, cs[0]);
      RunMovedKnown(Items(items, cs[0]), cs[1..]);
    }
  }

  lemma {:induction false} StepMovedKnown<T>(items: seq<Item>, c: Change<T>)
    requires Allowed(|items|, c) && MovedKnown(items)
    ensures MovedKnown(Items(items, c))
  {
  }

  lemma {:induction false} RunJoined<T>(items: seq<Item>, cs: seq<Change<T>>, cs2: seq<Change<T>>)
    requires AllowedRun(items, cs + cs2)
    ensures AllowedRun(items, cs) && AllowedRun(RunItems(items, cs), cs2)
    ensures RunItems(items, cs + cs2) == RunItems(RunItems(items, cs), cs2)
    decreases |cs|
  {
    if cs == [] {
      assert cs + cs2 == cs2;
    } else {
      assert (cs + cs2)[1..] == cs[1..] + cs2;
      RunJoined(Items(items, cs[0]), cs[1..], cs2);
    }
  }

  /** The mark that merging loses: the first change set inserted and modified the row,
      the second one moved but did not modify it. */
  predicate LosesMark(a: seq<Item>, item: Item)
    requires item.origin.Some? ==> item.origin.value < |a|
  {
    item.origin.Some? && item.moved && !item.dirty && a[item.origin.value].origin.None? && a[item.origin.value].dirty
  }

  /** Recording one history after the other in one change set, or in two that are then
      merged, gives accounts that differ in a row exactly if its mark is lost. */
  lemma {:induction false} MergedIsRecordedIff<T>(n: nat, cs: seq<Change<T>>, cs2: seq<Change<T>>)
    requires AllowedRun(OldItems(n), cs + cs2)
    ensures AllowedRun(OldItems(n), cs)
    ensures var a := RunItems(OldItems(n), cs);
      && AllowedRun(OldItems(|a|), cs2)
      && var b := RunItems(OldItems(|a|), cs2);
         var p := RunItems(OldItems(n), cs + cs2);
         && Joins(a, b) && |p| == |b| == |Composed(a, b)|
         && forall j :: 0 <= j < |p| ==>
              && (p[j] != Composed(a, b)[j] <==> LosesMark(a, b[j]))
              && p[j].origin == Composed(a, b)[j].origin && p[j].moved == Composed(a, b)[j].moved
  {
    RunJoined(OldItems(n), cs, cs2);
    RunMovedKnown(OldItems(n), cs);
    var a := RunItems(OldItems(n), cs);
    assert a == Recorded(a, OldItems(|a|));
    RunThrough(a, OldItems(|a|), cs2);
    var b := RunItems(OldItems(|a|), cs2);
    RunMovedKnown(OldItems(|a|), cs2);
    assert RunItems(OldItems(n), cs + cs2) == Recorded(a, b);
    forall j | 0 <= j < |b|
      ensures Recorded(a, b)[j] != Composed(a, b)[j] <==> LosesMark(a, b[j])
      ensures Recorded(a, b)[j].origin == Composed(a, b)[j].origin && Recorded(a, b)[j].moved == Composed(a, b)[j].moved
    {
    }
  }

  /** Such a mark is lost: insert two rows, modify the first; then move it. */
  lemma {:induction false} MarkLost()
    ensures var cs, cs2: seq<Change<int>> := [InsertRows(0, [7, 8]), ModifyRow(0)], [MoveRow(0, 1)];
      && AllowedRun(OldItems(0), cs + cs2)
      && AllowedRun(OldItems(0), cs) && AllowedRun(OldItems(2), cs2)
      && RunItems(OldItems(0), cs + cs2) == [Item(None, false, false), Item(None, false, true)]
      && Joins(RunItems(OldItems(0), cs), RunItems(OldItems(2), cs2))
      && Composed(RunItems(OldItems(0), cs), RunItems(OldItems(2), cs2)) == [Item(None, false, false), Item(None, false, false)]
  {
    var cs, cs2: seq<Change<int>> := [InsertRows(0, [7, 8]), ModifyRow(0)], [MoveRow(0, 1)];
    var none, two: seq<Item> := OldItems(0), OldItems(2);
    var fresh_ := Item(None, false, false);
    var marked := Item(None, false, true);
    assert NewItems(2) == [fresh_, fresh_];
    assert Items(none, cs[0]) == [fresh_, fresh_];
    assert Items([fresh_, fresh_], cs[1]) == [marked, fresh_];
    assert cs[1..] == [cs[1]] && cs[1..][1..] == [];
    assert RunItems(Items(none, cs[0]), cs[1..]) == [marked, fresh_];
    var moved := Items(two, cs2[0]);
    assert moved == [Item(Some(1), false, false), Item(Some(0), true, false)];
    assert cs2[1..] == [];
    assert RunItems(two, cs2) == moved;
    assert Items([marked, fresh_], cs2[0]) == [fresh_, marked];
    assert AllowedRun([marked, fresh_], cs2) && RunItems([marked, fresh_], cs2) == [fresh_, marked];
    assert (cs + cs2)[0] == cs[0] && (cs + cs2)[1..] == [cs[1]] + cs2;
    assert ([cs[1]] + cs2)[0] == cs[1] && ([cs[1]] + cs2)[1..] == cs2;
    assert AllowedRun([fresh_, fresh_], [cs[1]] + cs2);
    assert RunItems([fresh_, fresh_], [cs[1]] + cs2) == [fresh_, marked];
    assert RunItems(none, cs + cs2) == [fresh_, marked];
  }

  // ---------- ranks ----------

  /** How many indices below `x` are in neither set. */
  ghost function Outside(p: seq<Range>, q: seq<Range>, x: int): int {
    if x <= 0 then 0 else Outside(p, q, x - 1) + if In(p, x - 1) || In(q, x - 1) then 0 else 1
  }

  lemma {:induction false} ErasedRank(was: seq<Range>, at: seq<Range>, now: seq<Range>, x: nat)
    requires Ordered(was) && Ordered(at) && Ordered(now) && ErasedAll(was, at, now)
    ensures Rank(now, Rank(at, x)) == Outside(was, at, x)
  {
    if x == 0 {
      RankZero(at);
      RankZero(now);
    } else {
      ErasedRank(was, at, now, x - 1);
      CountStep(at, x - 1);
      if !In(at, x - 1) {
        CountStep(now, Rank(at, x - 1));
      }
    }
  }

  lemma {:induction false} OpenedRank(was: seq<Range>, at: seq<Range>, now: seq<Range>, x: nat)
    requires Ordered(was) && Ordered(at) && Ordered(now) && OpenedAll(was, at, now, true)
    ensures Rank(now, x) == Rank(was, Rank(at, x))
  {
    hide Rank, Ordered, OpenedAll, In;
    if x == 0 {
      RankWithin(at, 0, 0);
      RankWithin(was, 0, 0);
      RankWithin(now, 0, 0);
    } else {
      OpenedRank(was, at, now, x - 1);
      RankAfter(at, x - 1);
      RankAfter(now, x - 1);
      RankAfter(was, Rank(at, x - 1));
      OpenedMember(was, at, now, x - 1);
    }
  }

  lemma {:induction false} OpenedMember(was: seq<Range>, at: seq<Range>, now: seq<Range>, x: nat)
    requires OpenedAll(was, at, now, true)
    ensures In(now, x) <==> In(at, x) || In(was, Rank(at, x))
  {
  }

  lemma {:induction false} ShiftedRank(was: seq<Range>, past: seq<Range>, values: seq<Range>, now: seq<Range>, x: nat, o: nat)
    requires Ordered(was) && Ordered(past) && Ordered(now) && AddedShifted(was, past, values, now)
    requires Rank(was, x) == Rank(past, o)
    ensures Rank(now, x) == Outside(past, values, o)
    decreases x + o
  {
    hide Rank, Ordered, AddedShifted;
    if x > 0 && In(was, x - 1) {
      RankAfter(was, x - 1);
      RankAfter(now, x - 1);
      StillIn(was, past, values, now, x - 1);
      ShiftedRank(was, past, values, now, x - 1, o);
    } else if o > 0 && In(past, o - 1) {
      RankAfter(past, o - 1);
      ShiftedRank(was, past, values, now, x, o - 1);
    } else if x == 0 || o == 0 {
      RankPositive(was, x);
      RankPositive(past, o);
      RankZero(now);
    } else {
      RankAfter(was, x - 1);
      RankAfter(past, o - 1);
      RankAfter(now, x - 1);
      Counterpart(was, past, values, now, x - 1, o - 1);
      ShiftedRank(was, past, values, now, x - 1, o - 1);
    }
  }

  lemma {:induction false} RankPositive(rs: seq<Range>, x: nat)
    requires Ordered(rs)
    ensures Rank(rs, 0) == 0 && Rank(rs, x) >= 0
    ensures x > 0 && !In(rs, x - 1) ==> Rank(rs, x) > 0
  {
    RankZero(rs);
    RankMonotone(rs, 0, x);
    if x > 0 && !In(rs, x - 1) {
      CountStep(rs, x - 1);
      RankMonotone(rs, 0, x - 1);
    }
  }

  lemma {:induction false} StillIn(was: seq<Range>, past: seq<Range>, values: seq<Range>, now: seq<Range>, x: nat)
    requires AddedShifted(was, past, values, now) && In(was, x)
    ensures In(now, x)
  {
  }

  lemma {:induction false} Counterpart(was: seq<Range>, past: seq<Range>, values: seq<Range>, now: seq<Range>, x: nat, o: nat)
    requires AddedShifted(was, past, values, now)
    requires !In(was, x) && !In(past, o) && Rank(was, x) == Rank(past, o)
    ensures In(now, x) <==> In(values, o)
  {
  }

  /** Every rank is that of some non-member. */
  lemma {:induction false} NonMember(rs: seq<Range>, r: nat, from: nat) returns (y: nat)
    requires Separated(rs) && Rank(rs, from) <= r
    ensures from <= y && !In(rs, y) && Rank(rs, y) == r
    decreases if from < EndOf(rs) + r then EndOf(rs) + r - from else 0, r - Rank(rs, from)
  {
    GapsKeepOrder(rs);
    CountStep(rs, from);
    if !In(rs, from) && Rank(rs, from) == r {
      y := from;
    } else {
      if In(rs, from) {
        AtLeastFirst(rs, from);
      }
      y := NonMember(rs, r, from + 1);
    }
  }

  // ---------- merging the index sets ----------

  /** What merging makes of deletions and insertions: `kept` is what is left of the
      first insertions. */
  ghost predicate Merged(del: seq<Range>, ins: seq<Range>, del2: seq<Range>, ins2: seq<Range>,
                         kept: seq<Range>, del': seq<Range>, ins': seq<Range>) {
    AddedShifted(del, ins, del2, del') && ErasedAll(ins, del2, kept) && OpenedAll(kept, ins2, ins', true)
  }

  ghost predicate AllOrdered(rss: seq<seq<Range>>) {
    forall i :: 0 <= i < |rss| ==> Separated(rss[i]) && Ordered(rss[i])
  }

  /** A row that stayed in the second change set is reported inserted exactly if the
      first one reported it, wherever it stood. */
  lemma {:induction false} MergedStays(a: seq<Item>, b: seq<Item>, j: nat, ins: seq<Range>, del2: seq<Range>, ins2: seq<Range>,
                                       kept: seq<Range>, ins': seq<Range>)
    requires j < |b| && !Placed(b[j]) && Stayed(|a|, b[j], j, del2, ins2) && Inserted(b, ins2)
    requires ErasedAll(ins, del2, kept) && OpenedAll(kept, ins2, ins', true)
    ensures In(ins', j) <==> In(ins, b[j].origin.value)
  {
  }

  lemma {:induction false} MergedInserted(a: seq<Item>, b: seq<Item>, ins: seq<Range>, del2: seq<Range>, ins2: seq<Range>,
                                          kept: seq<Range>, ins': seq<Range>)
    requires Separated(ins) && Separated(del2) && Separated(ins2) && Separated(kept)
    requires Inserted(a, ins) && Inserted(b, ins2) && Tally(|a|, b, del2, ins2) && Joins(a, b)
    requires ErasedAll(ins, del2, kept) && OpenedAll(kept, ins2, ins', true)
    ensures Inserted(Composed(a, b), ins')
  {
    var c := Composed(a, b);
    forall x {:trigger In(ins', x)} ensures In(ins', x) <==> 0 <= x < |c| && Placed(c[x]) {
      if 0 <= x < |b| {
        if Placed(b[x]) {
          assert In(ins2, x);
        } else {
          assert Stayed(|a|, b[x], x, del2, ins2);
          MergedStays(a, b, x, ins, del2, ins2, kept, ins');
        }
      } else if x >= |b| {
        NothingBeyond(a, b, ins, del2, ins2, kept, x);
      }
    }
  }

  lemma {:induction false} NothingBeyond(a: seq<Item>, b: seq<Item>, ins: seq<Range>, del2: seq<Range>, ins2: seq<Range>,
                                         kept: seq<Range>, x: nat)
    requires Separated(ins) && Separated(del2) && Separated(ins2) && Separated(kept)
    requires Inserted(a, ins) && Inserted(b, ins2) && Tally(|a|, b, del2, ins2) && ErasedAll(ins, del2, kept) && x >= |b|
    ensures !In(ins2, x) && !In(kept, Rank(ins2, x))
  {
    GapsKeepOrder(ins2);
    GapsKeepOrder(del2);
    RankMonotone(ins2, |b|, x);
    RankZero(ins2);
    RankMonotone(ins2, 0, x);
    var y := NonMember(del2, Rank(ins2, x), |a|);
    assert !In(ins, y);
  }

  /** Ranks among what is left of the old rows and of the new ones agree. */
  lemma {:induction false} MergedRanks(del: seq<Range>, ins: seq<Range>, del2: seq<Range>, ins2: seq<Range>, kept: seq<Range>,
                                       del': seq<Range>, ins': seq<Range>, p: nat, o: nat, j: nat)
    requires Ordered(del) && Ordered(ins) && Ordered(del2) && Ordered(ins2) && Ordered(kept) && Ordered(del') && Ordered(ins')
    requires Merged(del, ins, del2, ins2, kept, del', ins')
    requires Rank(del, p) == Rank(ins, o) && Rank(del2, o) == Rank(ins2, j)
    ensures Rank(del', p) == Rank(ins', j)
  {
    ShiftedRank(del, ins, del2, del', p, o);
    ErasedRank(ins, del2, kept, o);
    OpenedRank(kept, ins2, ins', j);
    OutsideSame(ins, del2, o);
  }

  lemma {:induction false} OutsideSame(p: seq<Range>, q: seq<Range>, x: int)
    ensures Outside(p, q, x) == Outside(q, p, x)
  {
    if x > 0 {
      OutsideSame(p, q, x - 1);
    }
  }

  /** The merged sets report the composed account: the remainders stay in step. */
  lemma {:induction false} MergedTally(n: nat, a: seq<Item>, b: seq<Item>, del: seq<Range>, ins: seq<Range>, del2: seq<Range>,
                                       ins2: seq<Range>, kept: seq<Range>, del': seq<Range>, ins': seq<Range>)
    requires AllOrdered([del, ins, del2, ins2, kept, del', ins'])
    requires Tally(n, a, del, ins) && Inserted(a, ins) && Tally(|a|, b, del2, ins2) && Inserted(b, ins2) && Joins(a, b)
    requires Merged(del, ins, del2, ins2, kept, del', ins')
    ensures Tally(n, Composed(a, b), del', ins')
  {
    hide Merged, Ordered, Separated;
    SevenOrdered(del, ins, del2, ins2, kept, del', ins');
    var c := Composed(a, b);
    forall j | 0 <= j < |c| && !Placed(c[j]) ensures Stayed(n, c[j], j, del', ins') {
      assert Stayed(|a|, b[j], j, del2, ins2);
      var o := b[j].origin.value;
      assert Stayed(n, a[o], o, del, ins);
      var p := a[o].origin.value;
      assert !In(ins, o);
      MergedRanks(del, ins, del2, ins2, kept, del', ins', p, o, j);
      NotDeleted(del, ins, del2, ins2, kept, del', ins', p, o);
    }
    MergedRanks(del, ins, del2, ins2, kept, del', ins', n, |a|, |b|);
    forall x {:trigger In(del', x)} ensures In(del', x) ==> 0 <= x < n {
      DeletedBelow(n, |a|, del, ins, del2, ins2, kept, del', ins', x);
    }
  }

  lemma {:induction false} SevenOrdered(a: seq<Range>, b: seq<Range>, c: seq<Range>, d: seq<Range>, e: seq<Range>,
                                        f: seq<Range>, g: seq<Range>)
    requires AllOrdered([a, b, c, d, e, f, g])
    ensures Ordered(a) && Ordered(b) && Ordered(c) && Ordered(d) && Ordered(e) && Ordered(f) && Ordered(g)
    ensures Separated(a) && Separated(b) && Separated(c) && Separated(d) && Separated(e) && Separated(f) && Separated(g)
  {
    var all := [a, b, c, d, e, f, g];
    assert all[0] == a && all[1] == b && all[2] == c && all[3] == d && all[4] == e && all[5] == f && all[6] == g;
  }

  lemma {:induction false} NotDeleted(del: seq<Range>, ins: seq<Range>, del2: seq<Range>, ins2: seq<Range>, kept: seq<Range>,
                                      del': seq<Range>, ins': seq<Range>, p: nat, o: nat)
    requires Merged(del, ins, del2, ins2, kept, del', ins')
    requires !In(del, p) && !In(ins, o) && Rank(del, p) == Rank(ins, o)
    ensures In(del', p) <==> In(del2, o)
  {
  }

  lemma {:induction false} DeletedBelow(n: nat, mid: nat, del: seq<Range>, ins: seq<Range>, del2: seq<Range>, ins2: seq<Range>,
                                        kept: seq<Range>, del': seq<Range>, ins': seq<Range>, x: int)
    requires Separated(del) && Separated(ins) && Ordered(del) && Ordered(ins)
    requires Merged(del, ins, del2, ins2, kept, del', ins')
    requires forall y {:trigger In(del, y)} :: In(del, y) ==> 0 <= y < n
    requires forall y {:trigger In(del2, y)} :: In(del2, y) ==> 0 <= y < mid
    requires Rank(del, n) == Rank(ins, mid)
    ensures In(del', x) ==> 0 <= x < n
  {
    if x >= n && !In(del, x) {
      RankMonotone(del, n, x);
      RankZero(del);
      RankMonotone(del, 0, x);
      var o := NonMember(ins, Rank(del, x), mid);
      assert !In(del2, o);
    }
  }

  // ---------- the counts ----------

  /** Merging leaves the counts of the deletions right. */
  ghost predicate CountsKept(del: seq<Range>, ins: seq<Range>, del2: seq<Range>) {
    forall now: seq<Range>, m: nat {:trigger LongOpener(del, now, m)} ::
      Separated(now) && AddedShifted(del, ins, del2, now) ==> !LongOpener(del, now, m)
  }

  /** One set is all there is to look at, since nothing else is left open. */
  lemma {:induction false} CountsKeptExactly(del: seq<Range>, ins: seq<Range>, del2: seq<Range>, now: seq<Range>)
    requires Separated(del) && Separated(ins) && Separated(now) && AddedShifted(del, ins, del2, now)
    ensures CountsKept(del, ins, del2) <==> forall m :: !LongOpener(del, now, m)
  {
    hide LongOpener, AddedShifted, Separated;
    if forall m :: !LongOpener(del, now, m) {
      forall other: seq<Range>, m: nat {:trigger LongOpener(del, other, m)} | Separated(other) && AddedShifted(del, ins, del2, other)
        ensures !LongOpener(del, other, m)
      {
        AddedShiftedUnique(del, ins, del2, now, other);
      }
    }
  }

  lemma {:induction false} AddedShiftedUnique(was: seq<Range>, past: seq<Range>, values: seq<Range>, now: seq<Range>,
                                              other: seq<Range>)
    requires Separated(was) && Separated(past) && Separated(now) && Separated(other)
    requires AddedShifted(was, past, values, now) && AddedShifted(was, past, values, other)
    ensures now == other
  {
    GapsKeepOrder(was);
    GapsKeepOrder(past);
    forall x ensures In(now, x) <==> In(other, x) {
      if x >= 0 && !In(was, x) {
        RankPositive(was, x);
        RankZero(past);
        var o := NonMember(past, Rank(was, x), 0);
        assert In(now, x) <==> In(values, o);
        assert In(other, x) <==> In(values, o);
      }
    }
    SeparatedUnique(now, other);
  }

  /** Deletions none of which are neighbours keep their counts, however many there are. */
  lemma {:induction false} ApartKeepsCounts(del: seq<Range>, ins: seq<Range>, del2: seq<Range>)
    requires Separated(del) && forall i :: 0 <= i < |del| ==> del[i].second - del[i].first == 1
    ensures CountsKept(del, ins, del2)
  {
    forall now: seq<Range>, m: nat {:trigger LongOpener(del, now, m)} | Separated(now) && AddedShifted(del, ins, del2, now)
      ensures !LongOpener(del, now, m)
    {
      if m < |now| && now[m].second - now[m].first > 1 {
        IndexIn(now, now[m].first, m);
        IndexIn(now, now[m].first + 1, m);
        NoNeighbours(del, now[m].first);
      }
    }
  }

  lemma {:induction false} NoNeighbours(del: seq<Range>, x: int)
    requires Separated(del) && forall i :: 0 <= i < |del| ==> del[i].second - del[i].first == 1
    ensures In(del, x) ==> !In(del, x + 1)
  {
    if In(del, x) {
      var i := InIndex(del, x);
      forall k | 0 <= k < |del| ensures !Covers(del[k], x + 1) {
        assert k < i ==> del[k].second < del[i].first;
        assert i < k ==> del[i].second < del[k].first;
      }
      NotIn(del, x + 1);
    }
  }

  // ---------- origins ----------

  /** No old row turns up twice. */
  ghost predicate OriginsDistinct(items: seq<Item>) {
    forall j, k :: 0 <= j < k < |items| && items[j].origin.Some? ==> items[j].origin != items[k].origin
  }

  lemma {:induction false} OriginsAreDistinct(n: nat, items: seq<Item>, del: seq<Range>, ins: seq<Range>)
    requires Ordered(del) && Ordered(ins) && Tally(n, items, del, ins) && Inserted(items, ins) && Sources(items, del)
    ensures OriginsDistinct(items)
    ensures forall j :: 0 <= j < |items| && items[j].origin.Some? ==> items[j].origin.value < n
  {
    forall j | 0 <= j < |items| && items[j].origin.Some?
      ensures items[j].origin.value < n && (In(del, items[j].origin.value) <==> items[j].moved)
      ensures !items[j].moved ==> !In(ins, j) && Rank(del, items[j].origin.value) == Rank(ins, j)
    {
      if !items[j].moved {
        assert Stayed(n, items[j], j, del, ins);
      }
    }
    forall j, k | 0 <= j < k < |items| && items[j].origin.Some? ensures items[j].origin != items[k].origin {
      if items[j].origin == items[k].origin && !items[j].moved {
        RankMonotone(ins, j, k);
      }
    }
  }

  lemma {:induction false} ComposedSources(n: nat, a: seq<Item>, b: seq<Item>, del: seq<Range>, ins: seq<Range>, del2: seq<Range>,
                                           del': seq<Range>)
    requires Tally(n, a, del, ins) && Inserted(a, ins) && Sources(a, del) && Sources(b, del2) && Joins(a, b)
    requires OriginsDistinct(a) && OriginsDistinct(b) && AddedShifted(del, ins, del2, del')
    ensures Sources(Composed(a, b), del')
  {
  }

  // ---------- modifications ----------

  /** The second modifications, with the marks of rows that were modified first and
      moved then; `some` says which moves have been looked at. */
  ghost predicate MarksMoved(b: seq<Item>, mods: seq<Range>, mods2: seq<Range>, some: set<nat>, now: seq<Range>) {
    forall x {:trigger In(now, x)} :: In(now, x) <==>
      In(mods2, x) || (0 <= x < |b| && b[x].moved && b[x].origin.Some? && b[x].origin.value in some && In(mods, b[x].origin.value))
  }

  /** The moves looked at are those of rows the first change set did not insert, or
      moved itself. */
  ghost predicate Followed(a: seq<Item>, b: seq<Item>, some: set<nat>) {
    forall j :: 0 <= j < |b| && b[j].moved && b[j].origin.Some? && b[j].origin.value < |a| ==>
      (b[j].origin.value in some <==> a[b[j].origin.value].origin.Some?)
  }

  lemma {:induction false} MergedModified(a: seq<Item>, b: seq<Item>, del2: seq<Range>, ins2: seq<Range>, mods: seq<Range>,
                                          mods2: seq<Range>, some: set<nat>, marks: seq<Range>, kept: seq<Range>,
                                          spread: seq<Range>, mods': seq<Range>)
    requires Separated(del2) && Separated(ins2) && Separated(mods) && Separated(kept) && Separated(spread)
    requires Modified(a, mods) && Modified(b, mods2) && Inserted(b, ins2) && Tally(|a|, b, del2, ins2) && Joins(a, b)
    requires Sources(b, del2) && MarksMoved(b, mods, mods2, some, marks) && Followed(a, b, some)
    requires ErasedAll(mods, del2, kept) && OpenedAll(kept, ins2, spread, false) && Both(spread, marks, mods')
    ensures Modified(Composed(a, b), mods')
  {
    var c := Composed(a, b);
    forall x {:trigger In(mods', x)} ensures In(mods', x) <==> 0 <= x < |c| && c[x].dirty {
      if 0 <= x < |b| {
        if Placed(b[x]) {
          assert In(ins2, x);
        } else {
          assert Stayed(|a|, b[x], x, del2, ins2) && !In(ins2, x);
        }
      } else if x >= |b| {
        NoMarkBeyond(a, b, mods, del2, ins2, kept, x);
        assert !In(mods2, x);
      }
    }
  }

  lemma {:induction false} NoMarkBeyond(a: seq<Item>, b: seq<Item>, mods: seq<Range>, del2: seq<Range>, ins2: seq<Range>,
                                        kept: seq<Range>, x: nat)
    requires Separated(mods) && Separated(del2) && Separated(ins2) && Separated(kept)
    requires Modified(a, mods) && Inserted(b, ins2) && Tally(|a|, b, del2, ins2) && ErasedAll(mods, del2, kept) && x >= |b|
    ensures !In(ins2, x) && !In(kept, Rank(ins2, x))
  {
    GapsKeepOrder(ins2);
    GapsKeepOrder(del2);
    RankMonotone(ins2, |b|, x);
    RankZero(ins2);
    RankMonotone(ins2, 0, x);
    var y := NonMember(del2, Rank(ins2, x), |a|);
    assert !In(mods, y);
  }

  // ---------- moves ----------

  /** Where the row at `o` of the middle list is in the new list. */
  ghost predicate Lies(b: seq<Item>, o: nat, j: nat) {
    j < |b| && b[j].origin == Some(o)
  }

  /** The first moves, followed through the second change set; those of rows that are
      gone are left out. */
  ghost predicate Carried(b: seq<Item>, moves: seq<Move>, now: seq<Move>) {
    && (forall m {:trigger m in now} :: m in now <==> exists w :: w in moves && w.from == m.from && Lies(b, w.to, m.to))
    && (forall k, l :: 0 <= k < l < |now| ==> now[k].to != now[l].to)
  }

  /** The second moves whose row has no first move. */
  ghost predicate Unclaimed(moves2: seq<Move>, moves: seq<Move>, now: seq<Move>) {
    && (forall m {:trigger m in now} :: m in now <==> m in moves2 && forall w :: w in moves ==> w.to != m.from)
    && (forall k, l :: 0 <= k < l < |now| ==> now[k].to != now[l].to)
  }

  /** Those of rows that were there in the beginning, from where they were then. */
  ghost predicate Traced(a: seq<Item>, moves: seq<Move>, now: seq<Move>) {
    && (forall m {:trigger m in now} :: m in now <==>
          exists w :: w in moves && w.to == m.to && w.from < |a| && a[w.from].origin == Some(m.from))
    && (forall k, l :: 0 <= k < l < |now| ==> now[k].to != now[l].to)
  }

  lemma {:induction false} MergedMoves(a: seq<Item>, b: seq<Item>, moves: seq<Move>, moves2: seq<Move>,
                                       carried: seq<Move>, unclaimed: seq<Move>, traced: seq<Move>)
    requires Joins(a, b) && OriginsDistinct(a) && OriginsDistinct(b) && MovesAre(a, moves) && MovesAre(b, moves2)
    requires Carried(b, moves, carried) && Unclaimed(moves2, moves, unclaimed) && Traced(a, unclaimed, traced)
    ensures MovesAre(Composed(a, b), carried + traced)
  {
    var c := Composed(a, b);
    forall m: Move ensures m in carried + traced <==> Moves(c, m) {
      MergedMove(a, b, moves, moves2, carried, unclaimed, traced, m);
    }
    forall k, l | 0 <= k < l < |carried + traced| ensures (carried + traced)[k].to != (carried + traced)[l].to {
      if k < |carried| <= l {
        var m, m2 := carried[k], traced[l - |carried|];
        assert m in carried && m2 in traced;
        var w :| w in moves && w.from == m.from && Lies(b, w.to, m.to);
        var w2 :| w2 in unclaimed && w2.to == m2.to && w2.from < |a| && a[w2.from].origin == Some(m2.from);
        assert w2 in moves2 && Moves(b, w2);
      }
    }
    MovesAreMeans(c, carried + traced);
  }

  lemma {:induction false} MergedMove(a: seq<Item>, b: seq<Item>, moves: seq<Move>, moves2: seq<Move>,
                                      carried: seq<Move>, unclaimed: seq<Move>, traced: seq<Move>, m: Move)
    requires Joins(a, b) && OriginsDistinct(a) && OriginsDistinct(b) && MovesAre(a, moves) && MovesAre(b, moves2)
    requires Carried(b, moves, carried) && Unclaimed(moves2, moves, unclaimed) && Traced(a, unclaimed, traced)
    ensures m in carried + traced <==> Moves(Composed(a, b), m)
  {
    var c := Composed(a, b);
    if m in carried {
      var w :| w in moves && w.from == m.from && Lies(b, w.to, m.to);
      assert Moves(a, w);
    }
    if m in traced {
      var w :| w in unclaimed && w.to == m.to && w.from < |a| && a[w.from].origin == Some(m.from);
      assert w in moves2 && Moves(b, w);
    }
    if Moves(c, m) {
      var o := b[m.to].origin.value;
      if a[o].moved {
        var w := Move(m.from, o);
        assert Moves(a, w) && w in moves && Lies(b, w.to, m.to);
      } else {
        var w := Move(o, m.to);
        assert Moves(b, w) && w in moves2;
        forall v | v in moves ensures v.to != o {
          assert Moves(a, v);
        }
        assert w in unclaimed;
      }
    }
  }

  // ---------- the steps of following moves ----------

  ghost function Tos(moves: seq<Move>): set<nat> {
    set m | m in moves :: m.to
  }

  ghost function Froms(moves: seq<Move>): set<nat> {
    set m | m in moves :: m.from
  }

  ghost predicate DistinctTos(moves: seq<Move>) {
    forall k, l :: 0 <= k < l < |moves| ==> moves[k].to != moves[l].to
  }

  /** Before any first move has been looked at. */
  lemma {:induction false} FollowStart(b: seq<Item>, mods: seq<Range>, mods2: seq<Range>, moves2: seq<Move>)
    requires DistinctTos(moves2)
    ensures Carried(b, [], []) && Unclaimed(moves2, [], moves2) && MarksMoved(b, mods, mods2, Tos([]), mods2)
  {
  }

  lemma {:induction false} TosNext(seen: seq<Move>, w: Move)
    ensures Tos(seen + [w]) == Tos(seen) + {w.to} && Froms(seen + [w]) == Froms(seen) + {w.from}
  {
  }

  /** The row was moved again: its first move takes over the second one. */
  lemma {:induction false} FollowMoved(a: seq<Item>, b: seq<Item>, seen: seq<Move>, w: Move, kept: seq<Move>, moves2: seq<Move>,
                                       left: seq<Move>, k: nat)
    requires OriginsDistinct(b) && MovesAre(b, moves2) && DistinctTos(seen + [w])
    requires Carried(b, seen, kept) && Unclaimed(moves2, seen, left) && k < |left| && left[k].from == w.to
    ensures Lies(b, w.to, left[k].to) && b[left[k].to].moved
    ensures Carried(b, seen + [w], kept + [Move(w.from, left[k].to)])
    ensures Unclaimed(moves2, seen + [w], left[k := left[|left| - 1]][..|left| - 1])
  {
    var m2 := left[k];
    assert m2 in left && m2 in moves2 && Moves(b, m2);
    CarriedNext(b, seen, w, kept, m2.to);
    TakenOver(b, seen, w, moves2, left, k);
  }

  /** What is left when the second move is gone: the last one takes its place. */
  lemma {:induction false} TakenOver(b: seq<Item>, seen: seq<Move>, w: Move, moves2: seq<Move>, left: seq<Move>, k: nat)
    requires OriginsDistinct(b) && MovesAre(b, moves2)
    requires Unclaimed(moves2, seen, left) && k < |left| && left[k].from == w.to
    ensures Unclaimed(moves2, seen + [w], left[k := left[|left| - 1]][..|left| - 1])
  {
    hide OriginsDistinct;
    var m2 := left[k];
    assert m2 in left && Moves(b, m2);
    var last := |left| - 1;
    var now := left[k := left[last]][..last];
    forall m ensures m in now <==> m in moves2 && forall v :: v in seen + [w] ==> v.to != m.from {
      if m in now {
        var l :| 0 <= l < |now| && now[l] == m;
        assert m == left[if l == k then last else l] && m in left;
        assert Moves(b, m) && m.to != m2.to;
        DistinctFroms(b, m, m2);
      }
      if m in moves2 && forall v :: v in seen + [w] ==> v.to != m.from {
        assert forall v :: v in seen ==> v in seen + [w];
        assert m in left;
        var l :| 0 <= l < |left| && left[l] == m;
        assert w in seen + [w];
        assert l != k;
        assert now[if l == last then k else l] == m;
      }
    }
    forall i, j | 0 <= i < j < |now| ensures now[i].to != now[j].to {
      assert left[if i == k then last else i].to != left[if j == k then last else j].to;
    }
  }

  lemma {:induction false} DistinctFroms(b: seq<Item>, m: Move, m2: Move)
    requires OriginsDistinct(b) && Moves(b, m) && Moves(b, m2) && m.to != m2.to
    ensures m.from != m2.from
  {
  }

  lemma {:induction false} CarriedNext(b: seq<Item>, seen: seq<Move>, w: Move, kept: seq<Move>, j: nat)
    requires OriginsDistinct(b) && DistinctTos(seen + [w]) && Carried(b, seen, kept) && Lies(b, w.to, j)
    ensures Carried(b, seen + [w], kept + [Move(w.from, j)])
  {
    var now := kept + [Move(w.from, j)];
    forall m ensures m in now <==> exists v :: v in seen + [w] && v.from == m.from && Lies(b, v.to, m.to) {
      if m in now {
        if m in kept {
          var v :| v in seen && v.from == m.from && Lies(b, v.to, m.to);
          assert v in seen + [w];
        } else {
          assert w in seen + [w];
        }
      }
      if v :| v in seen + [w] && v.from == m.from && Lies(b, v.to, m.to) {
        if v == w {
          assert m.to == j;
          assert now[|kept|] == m;
        } else {
          assert v in seen && m in kept;
        }
      }
    }
    forall i | 0 <= i < |kept| ensures kept[i].to != j {
      assert kept[i] in kept;
      var v :| v in seen && v.from == kept[i].from && Lies(b, v.to, kept[i].to);
      var l :| 0 <= l < |seen| && seen[l] == v;
      assert (seen + [w])[l].to != (seen + [w])[|seen|].to;
    }
  }

  /** The row was not moved again. */
  lemma {:induction false} FollowOther(b: seq<Item>, seen: seq<Move>, w: Move, moves2: seq<Move>, left: seq<Move>)
    requires MovesAre(b, moves2) && DistinctTos(seen + [w]) && Unclaimed(moves2, seen, left)
    requires forall k :: 0 <= k < |left| ==> left[k].from != w.to
    ensures Unclaimed(moves2, seen + [w], left)
    ensures forall j: nat :: Lies(b, w.to, j) ==> !b[j].moved
  {
    forall m ensures m in left <==> m in moves2 && forall v :: v in seen + [w] ==> v.to != m.from {
      if m in left {
        var k :| 0 <= k < |left| && left[k] == m;
        forall v | v in seen + [w] ensures v.to != m.from {
          assert v in seen || v == w;
        }
      }
      if m in moves2 && forall v :: v in seen + [w] ==> v.to != m.from {
        assert forall v :: v in seen ==> v in seen + [w];
      }
    }
    forall j: nat | Lies(b, w.to, j) ensures !b[j].moved {
      var m := Move(w.to, j);
      forall v | v in seen ensures v.to != m.from {
        var l :| 0 <= l < |seen| && seen[l] == v;
        assert (seen + [w])[l].to != (seen + [w])[|seen|].to;
      }
      assert m in left <==> m in moves2;
      assert m !in left;
      assert m in moves2 <==> Moves(b, m);
    }
  }

  /** The row is gone, so its move is. */
  lemma {:induction false} FollowGone(b: seq<Item>, seen: seq<Move>, w: Move, kept: seq<Move>)
    requires Carried(b, seen, kept) && forall j: nat :: !Lies(b, w.to, j)
    ensures Carried(b, seen + [w], kept)
  {
  }

  /** Where a row that stayed is now, or that it is gone. */
  lemma {:induction false} StayedLies(n: nat, b: seq<Item>, del2: seq<Range>, ins2: seq<Range>, o: nat)
    requires Ordered(del2) && Ordered(ins2) && Tally(n, b, del2, ins2) && Inserted(b, ins2) && o < n
    requires forall j: nat :: Lies(b, o, j) ==> !b[j].moved
    ensures In(del2, o) ==> forall j: nat :: !Lies(b, o, j)
    ensures !In(del2, o) ==> forall s: nat :: IsShifted(ins2, Rank(del2, o), s) ==> Lies(b, o, s)
  {
    forall j: nat | Lies(b, o, j) ensures !In(del2, o) && !In(ins2, j) && Rank(del2, o) == Rank(ins2, j) {
      assert Stayed(n, b[j], j, del2, ins2);
    }
    if !In(del2, o) {
      DeletionsExact(n, b, del2, ins2, o);
      var j :| 0 <= j < |b| && b[j].origin == Some(o) && !b[j].moved;
      assert Lies(b, o, j);
      forall s: nat | IsShifted(ins2, Rank(del2, o), s) ensures Lies(b, o, s) {
        ShiftedUnique(ins2, Rank(del2, o), s, j);
      }
    }
  }

  /** Marking, move by move. */
  lemma {:induction false} MarkNext(b: seq<Item>, mods: seq<Range>, mods2: seq<Range>, some: set<nat>, now: seq<Range>,
                                    next: seq<Range>, m: Move)
    requires OriginsDistinct(b) && MarksMoved(b, mods, mods2, some, now) && Moves(b, m)
    requires if In(mods, m.from) then AddSpec(now, next, m.to) else next == now
    ensures MarksMoved(b, mods, mods2, some + {m.from}, next)
  {
  }

  lemma {:induction false} MarkNone(b: seq<Item>, mods: seq<Range>, mods2: seq<Range>, some: set<nat>, now: seq<Range>, o: nat)
    requires MarksMoved(b, mods, mods2, some, now) && forall j: nat :: Lies(b, o, j) ==> !b[j].moved
    ensures MarksMoved(b, mods, mods2, some + {o}, now)
  {
  }

  // ---------- the second moves ----------

  /** Those of rows the first change set did not insert. */
  ghost predicate NotInserted(moves: seq<Move>, ins: seq<Range>, now: seq<Move>) {
    && (forall m {:trigger m in now} :: m in now <==> m in moves && !In(ins, m.from))
    && DistinctTos(now)
  }

  /** A second move whose row was there in the beginning starts from a row that stayed. */
  lemma {:induction false} NotInsertedStayed(a: seq<Item>, b: seq<Item>, moves: seq<Move>, moves2: seq<Move>, ins: seq<Range>,
                                             unclaimed: seq<Move>, now: seq<Move>, m: Move)
    requires Joins(a, b) && Inserted(a, ins) && MovesAre(a, moves) && MovesAre(b, moves2)
    requires Unclaimed(moves2, moves, unclaimed) && NotInserted(unclaimed, ins, now)
    ensures m in now <==> Moves(b, m) && m.from < |a| && a[m.from].origin.Some? && !a[m.from].moved
  {
  }

  lemma {:induction false} FollowedAll(a: seq<Item>, b: seq<Item>, moves: seq<Move>, moves2: seq<Move>, ins: seq<Range>,
                                       unclaimed: seq<Move>, now: seq<Move>)
    requires Joins(a, b) && Inserted(a, ins) && MovesAre(a, moves) && MovesAre(b, moves2)
    requires forall j :: 0 <= j < |a| && a[j].moved ==> a[j].origin.Some?
    requires Unclaimed(moves2, moves, unclaimed) && NotInserted(unclaimed, ins, now)
    ensures Followed(a, b, Tos(moves) + Froms(now))
  {
    var some := Tos(moves) + Froms(now);
    forall j | 0 <= j < |b| && b[j].moved && b[j].origin.Some? && b[j].origin.value < |a|
      ensures b[j].origin.value in some <==> a[b[j].origin.value].origin.Some?
    {
      var o := b[j].origin.value;
      NotInsertedStayed(a, b, moves, moves2, ins, unclaimed, now, Move(o, j));
      if o in Tos(moves) {
        var m :| m in moves && m.to == o;
        assert Moves(a, m);
      }
      if o in Froms(now) {
        var m :| m in now && m.from == o;
        NotInsertedStayed(a, b, moves, moves2, ins, unclaimed, now, m);
      }
      if a[o].moved {
        assert Moves(a, Move(a[o].origin.value, o));
      }
    }
  }

  /** Traced back from where the rows stood in the middle list. */
  lemma {:induction false} TracedAll(a: seq<Item>, b: seq<Item>, moves: seq<Move>, moves2: seq<Move>, ins: seq<Range>,
                                     unclaimed: seq<Move>, now: seq<Move>, traced: seq<Move>)
    requires Joins(a, b) && Inserted(a, ins) && MovesAre(a, moves) && MovesAre(b, moves2)
    requires Unclaimed(moves2, moves, unclaimed) && NotInserted(unclaimed, ins, now) && Traced(a, now, traced)
    ensures Traced(a, unclaimed, traced)
  {
    forall m ensures m in traced <==>
      exists w :: w in unclaimed && w.to == m.to && w.from < |a| && a[w.from].origin == Some(m.from)
    {
      if m in traced {
        var w :| w in now && w.to == m.to && w.from < |a| && a[w.from].origin == Some(m.from);
        assert w in unclaimed;
      }
      if w :| w in unclaimed && w.to == m.to && w.from < |a| && a[w.from].origin == Some(m.from) {
        NotInsertedStayed(a, b, moves, moves2, ins, unclaimed, now, w);
        assert w in moves2 && Moves(b, w);
        assert Move(m.from, w.from) !in moves && !Moves(a, Move(m.from, w.from));
        assert w in now;
      }
    }
  }

  // ---------- nothing to follow ----------

  /** Without deletions, insertions and moves every row is where it was. */
  lemma {:induction false} AllInPlace(n: nat, items: seq<Item>, del: seq<Range>, ins: seq<Range>)
    requires Tally(n, items, del, ins) && Inserted(items, ins) && Sources(items, del) && del == [] && ins == []
    ensures |items| == n && forall j :: 0 <= j < n ==> items[j].origin == Some(j) && !items[j].moved
  {
    forall j | 0 <= j < |items| ensures items[j].origin == Some(j) && !items[j].moved {
      assert !In(ins, j);
      assert Stayed(n, items[j], j, del, ins);
    }
  }

  lemma {:induction false} CarriedInPlace(a: seq<Item>, b: seq<Item>, moves: seq<Move>)
    requires MovesAre(a, moves) && |b| == |a| && forall j :: 0 <= j < |b| ==> b[j].origin == Some(j) && !b[j].moved
    ensures Carried(b, moves, moves) && Unclaimed([], moves, [])
  {
  }

  lemma {:induction false} MarksInPlace(b: seq<Item>, mods: seq<Range>, mods2: seq<Range>, some: set<nat>)
    requires forall j :: 0 <= j < |b| ==> !b[j].moved
    ensures MarksMoved(b, mods, mods2, some, mods2)
  {
  }

  lemma {:induction false} TracedInPlace(a: seq<Item>, moves: seq<Move>)
    requires DistinctTos(moves) && forall m :: m in moves ==> m.from < |a|
    requires forall j :: 0 <= j < |a| ==> a[j].origin == Some(j)
    ensures Traced(a, moves, moves)
  {
  }
}
