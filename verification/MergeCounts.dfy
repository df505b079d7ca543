/** When merging keeps the cached counts right, in terms of the sets merged; two change
    sets for which it does not. */
module MergeCounts {
  import opened Common
  import opened Ranges
  import opened Chunks
  import opened RangeOps
  import opened RangeBuilders
  import opened SetOperations
  import opened Changes
  import opened Merges

  // ---------- what is added, without adding it ----------

  /** A deletion of the second change set arrives at the index: shifting it past the
      first insertions and back past the first deletions leads there. */
  ghost predicate Arrives(del: seq<Range>, ins: seq<Range>, del2: seq<Range>, x: int) {
    x >= 0 && !In(del, x) && exists o {:trigger In(del2, o)} :: o >= 0 && In(del2, o) && !In(ins, o) && Rank(del, x) == Rank(ins, o)
  }

  ghost predicate United(del: seq<Range>, ins: seq<Range>, del2: seq<Range>, x: int) {
    x >= 0 && (In(del, x) || Arrives(del, ins, del2, x))
  }

  lemma {:induction false} ArrivesIff(del: seq<Range>, ins: seq<Range>, del2: seq<Range>, x: int, o: int)
    requires Ordered(ins) && x >= 0 && o >= 0 && !In(del, x) && !In(ins, o) && Rank(del, x) == Rank(ins, o)
    ensures Arrives(del, ins, del2, x) <==> In(del2, o)
  {
    if Arrives(del, ins, del2, x) {
      var y :| y >= 0 && In(del2, y) && !In(ins, y) && Rank(del, x) == Rank(ins, y);
      ShiftedUnique(ins, Rank(del, x), y, o);
    }
  }

  lemma {:induction false} UnitedIs(del: seq<Range>, ins: seq<Range>, del2: seq<Range>, now: seq<Range>, x: int)
    requires Separated(del) && Separated(ins) && AddedShifted(del, ins, del2, now)
    ensures In(now, x) <==> United(del, ins, del2, x)
  {
    GapsKeepOrder(del);
    GapsKeepOrder(ins);
    if x >= 0 && !In(del, x) {
      RankPositive(del, x);
      RankZero(ins);
      var o := NonMember(ins, Rank(del, x), 0);
      ArrivesIff(del, ins, del2, x, o);
    }
  }

  /** The union, built index by index. */
  ghost function Union(del: seq<Range>, ins: seq<Range>, del2: seq<Range>, n: nat): seq<Range> {
    if n == 0 then []
    else
      var rs := Union(del, ins, del2, n - 1);
      if United(del, ins, del2, n - 1) then Pushed(rs, Range(n - 1, n)) else rs
  }

  lemma {:induction false} UnionIs(del: seq<Range>, ins: seq<Range>, del2: seq<Range>, n: nat)
    ensures var rs := Union(del, ins, del2, n);
      Separated(rs) && Top(rs) <= n && forall x {:trigger In(rs, x)} :: In(rs, x) <==> x < n && United(del, ins, del2, x)
  {
    hide United, In, Separated, Pushed;
    NeverNegative(del, ins, del2);
    if n == 0 {
      NoRanges();
    } else {
      UnionIs(del, ins, del2, n - 1);
      var was, rs := Union(del, ins, del2, n - 1), Union(del, ins, del2, n);
      if United(del, ins, del2, n - 1) {
        PushedMeans(was, Range(n - 1, n));
      }
      forall x {:trigger In(rs, x)} ensures In(rs, x) <==> x < n && United(del, ins, del2, x) {
        assert In(was, x) <==> x < n - 1 && United(del, ins, del2, x);
      }
    }
  }

  lemma {:induction false} NeverNegative(del: seq<Range>, ins: seq<Range>, del2: seq<Range>)
    ensures forall x: int {:trigger United(del, ins, del2, x)} :: United(del, ins, del2, x) ==> x >= 0
  {
  }

  lemma {:induction false} NoRanges()
    ensures Separated([]) && Top([]) <= 0 && forall x {:trigger In([], x)} :: !In([], x)
  {
  }

  lemma {:induction false} CountAtMost(rs: seq<Range>, x: int)
    requires forall i :: 0 <= i < |rs| ==> rs[i].first < rs[i].second
    ensures CountBelow(rs, x) <= Total(rs)
  {
    if rs != [] {
      CountAtMost(rs[1..], x);
    }
  }

  ghost function Bound(del: seq<Range>, del2: seq<Range>): nat
    requires Separated(del) && Separated(del2)
  {
    CountAtMost(del, 0);
    EndOf(del) + EndOf(del2) + Total(del)
  }

  /** No member lies past the bound. */
  lemma {:induction false} UnitedBelow(del: seq<Range>, ins: seq<Range>, del2: seq<Range>, x: int)
    requires Separated(del) && Separated(del2) && United(del, ins, del2, x)
    ensures x < Bound(del, del2)
  {
    CountAtMost(del, 0);
    if In(del, x) {
      AtLeastFirst(del, x);
    } else {
      var o :| o >= 0 && In(del2, o) && !In(ins, o) && Rank(del, x) == Rank(ins, o);
      AtLeastFirst(del2, o);
      CountAtMost(del, x);
    }
  }

  /** What `add_shifted_by` must add to: there is such a set, and it is this one. */
  lemma {:induction false} UnionAdds(del: seq<Range>, ins: seq<Range>, del2: seq<Range>)
    requires Separated(del) && Separated(ins) && Separated(del2)
    ensures var now := Union(del, ins, del2, Bound(del, del2)); Separated(now) && AddedShifted(del, ins, del2, now)
  {
    hide Union, Separated, In;
    var n := Bound(del, del2);
    var now := Union(del, ins, del2, n);
    UnionIs(del, ins, del2, n);
    GapsKeepOrder(ins);
    forall x: int {:trigger In(now, x)} ensures In(now, x) <==> United(del, ins, del2, x) {
      if United(del, ins, del2, x) {
        UnitedBelow(del, ins, del2, x);
      }
    }
    forall x, o {:trigger In(now, x), In(del2, o)} | x >= 0 && o >= 0 && !In(del, x) && !In(ins, o) && Rank(del, x) == Rank(ins, o)
      ensures In(now, x) <==> In(del2, o)
    {
      ArrivesIff(del, ins, del2, x, o);
    }
    forall x {:trigger In(now, x)} | In(del, x) ensures In(now, x) {
      AtLeastFirst(del, x);
    }
  }

  // ---------- where ranges start ----------

  /** How many ranges of the union start below the index. */
  ghost function Starts(del: seq<Range>, ins: seq<Range>, del2: seq<Range>, x: nat): nat {
    if x == 0 then 0
    else Starts(del, ins, del2, x - 1)
         + if United(del, ins, del2, x - 1) && !United(del, ins, del2, x - 2) then 1 else 0
  }

  ghost function StartsIn(rs: seq<Range>, x: nat): nat {
    if x == 0 then 0 else StartsIn(rs, x - 1) + if In(rs, x - 1) && !In(rs, x - 2) then 1 else 0
  }

  lemma {:induction false} SameStarts(del: seq<Range>, ins: seq<Range>, del2: seq<Range>, now: seq<Range>, x: nat)
    requires forall y {:trigger In(now, y)} :: In(now, y) <==> United(del, ins, del2, y)
    ensures Starts(del, ins, del2, x) == StartsIn(now, x)
  {
    if x > 0 {
      SameStarts(del, ins, del2, now, x - 1);
    }
  }

  /** A range starts exactly where a member has no member before it. */
  lemma {:induction false} StartIff(rs: seq<Range>, x: int)
    requires Separated(rs)
    ensures In(rs, x) && !In(rs, x - 1) <==> exists i :: 0 <= i < |rs| && rs[i].first == x
  {
    if In(rs, x) && !In(rs, x - 1) {
      var i := InIndex(rs, x);
      if rs[i].first < x {
        IndexIn(rs, x - 1, i);
      }
    }
    if i :| 0 <= i < |rs| && rs[i].first == x {
      IndexIn(rs, x, i);
      forall k | 0 <= k < |rs| ensures !Covers(rs[k], x - 1) {
        assert k < i ==> rs[k].second < rs[i].first;
        assert i < k ==> rs[i].second < rs[k].first;
      }
      NotIn(rs, x - 1);
    }
  }

  /** As many as ranges that start below. */
  lemma {:induction false} StartsBefore(rs: seq<Range>, x: nat, m: nat)
    requires Separated(rs) && m <= |rs|
    requires (forall i :: 0 <= i < m ==> rs[i].first < x) && (forall i :: m <= i < |rs| ==> x <= rs[i].first)
    ensures StartsIn(rs, x) == m
    decreases x
  {
    if x == 0 {
      assert |rs| > 0 ==> rs[0].first >= 0;
    } else {
      StartIff(rs, x - 1);
      if i :| 0 <= i < |rs| && rs[i].first == x - 1 {
        LastBelow(rs, x, m, i);
        StartsBefore(rs, x - 1, m - 1);
      } else {
        StartsBefore(rs, x - 1, m);
      }
    }
  }

  lemma {:induction false} LastBelow(rs: seq<Range>, x: nat, m: nat, i: nat)
    requires Separated(rs) && m <= |rs| && i < |rs| && rs[i].first == x - 1
    requires (forall k :: 0 <= k < m ==> rs[k].first < x) && (forall k :: m <= k < |rs| ==> x <= rs[k].first)
    ensures m == i + 1
  {
    forall k | i < k < |rs| ensures x <= rs[k].first {
      assert rs[i].second < rs[k].first;
    }
    assert m > 0 ==> rs[m - 1].first < x;
  }

  /** A long range of the first deletions that nothing arrives at or past, and before
      which the union has just as many ranges as fill whole chunks, more than planned. */
  ghost predicate OpensLong(del: seq<Range>, ins: seq<Range>, del2: seq<Range>, x: nat) {
    && In(del, x) && In(del, x + 1) && !United(del, ins, del2, x - 1)
    && (forall y {:trigger United(del, ins, del2, y)} :: x <= y && United(del, ins, del2, y) ==> In(del, y))
    && (|del| / MAX_SIZE + 1) * MAX_SIZE <= Starts(del, ins, del2, x)
    && Starts(del, ins, del2, x) % MAX_SIZE == 0
  }

  lemma {:induction false} OpenerIff(del: seq<Range>, ins: seq<Range>, del2: seq<Range>, now: seq<Range>, m: nat)
    requires Separated(del) && Separated(ins) && Separated(now) && AddedShifted(del, ins, del2, now) && m < |now|
    ensures now[m].first >= 0
    ensures LongOpener(del, now, m) <==> OpensLong(del, ins, del2, now[m].first)
  {
    hide United, Starts;
    var x := now[m].first;
    forall y {:trigger In(now, y)} {:trigger United(del, ins, del2, y)} ensures In(now, y) <==> United(del, ins, del2, y) {
      UnitedIs(del, ins, del2, now, y);
    }
    SameStarts(del, ins, del2, now, x);
    forall i | 0 <= i < |now| ensures (i < m ==> now[i].first < x) && (m <= i ==> x <= now[i].first) {
      assert i < m ==> now[i].second < now[m].first;
      assert m < i ==> now[m].second < now[i].first;
    }
    StartsBefore(now, x, m);
    StartIff(now, x);
    IndexIn(now, x, m);
    assert In(now, x);
    LongIff(now, m);
    StillMember(del, ins, del2, x);
    StillMember(del, ins, del2, x + 1);
  }

  lemma {:induction false} StillMember(del: seq<Range>, ins: seq<Range>, del2: seq<Range>, x: nat)
    ensures In(del, x) ==> United(del, ins, del2, x)
  {
  }

  lemma {:induction false} LongIff(rs: seq<Range>, m: nat)
    requires Separated(rs) && m < |rs|
    ensures rs[m].second - rs[m].first > 1 <==> In(rs, rs[m].first + 1)
  {
    var x := rs[m].first + 1;
    forall k | 0 <= k < |rs| ensures Covers(rs[k], x) ==> k == m {
      assert k < m ==> rs[k].second < rs[m].first;
      assert m < k ==> rs[m].second < rs[k].first;
    }
    if In(rs, x) {
      var i := InIndex(rs, x);
    }
    if rs[m].second > x {
      IndexIn(rs, x, m);
    }
  }

  /** Merging keeps the counts right exactly if no such range is there: a condition on
      the three sets alone. */
  lemma {:induction false} CountsKeptIff(del: seq<Range>, ins: seq<Range>, del2: seq<Range>)
    requires Separated(del) && Separated(ins) && Separated(del2)
    ensures CountsKept(del, ins, del2) <==> forall x: nat :: !OpensLong(del, ins, del2, x)
  {
    hide LongOpener, OpensLong, AddedShifted, Separated, CountsKept, Union;
    var now := Union(del, ins, del2, Bound(del, del2));
    UnionAdds(del, ins, del2);
    CountsKeptExactly(del, ins, del2, now);
    if forall x: nat :: !OpensLong(del, ins, del2, x) {
      forall m: nat ensures !LongOpener(del, now, m) {
        OpenerWithin(del, now, m);
        if m < |now| {
          OpenerIff(del, ins, del2, now, m);
        }
      }
    }
    if forall m: nat :: !LongOpener(del, now, m) {
      forall x: nat ensures !OpensLong(del, ins, del2, x) {
        if OpensLong(del, ins, del2, x) {
          var m := StartOf(del, ins, del2, now, x);
          OpenerIff(del, ins, del2, now, m);
        }
      }
    }
  }

  lemma {:induction false} OpenerWithin(del: seq<Range>, now: seq<Range>, m: nat)
    ensures LongOpener(del, now, m) ==> m < |now|
  {
  }

  lemma {:induction false} StartOf(del: seq<Range>, ins: seq<Range>, del2: seq<Range>, now: seq<Range>, x: nat) returns (m: nat)
    requires Separated(del) && Separated(ins) && Separated(now) && AddedShifted(del, ins, del2, now)
    requires OpensLong(del, ins, del2, x)
    ensures m < |now| && now[m].first == x
  {
    UnitedIs(del, ins, del2, now, x);
    UnitedIs(del, ins, del2, now, x - 1);
    StartIff(now, x);
    m :| 0 <= m < |now| && now[m].first == x;
  }

  // ---------- a quick check ----------

  ghost function Arrivals(del: seq<Range>, ins: seq<Range>, del2: seq<Range>, x: nat): nat {
    if x == 0 then 0 else Arrivals(del, ins, del2, x - 1) + if Arrives(del, ins, del2, x - 1) then 1 else 0
  }

  lemma {:induction false} ArrivalsBelow(del: seq<Range>, ins: seq<Range>, del2: seq<Range>, x: nat, o: nat)
    requires Ordered(del) && Ordered(ins) && Ordered(del2) && Rank(del, x) == Rank(ins, o)
    ensures Arrivals(del, ins, del2, x) <= CountBelow(del2, o)
    decreases x + o
  {
    hide Rank, Ordered, Arrives;
    if x > 0 && In(del, x - 1) {
      RankAfter(del, x - 1);
      ArrivesOutside(del, ins, del2, x - 1);
      ArrivalsBelow(del, ins, del2, x - 1, o);
    } else if o > 0 && In(ins, o - 1) {
      RankAfter(ins, o - 1);
      CountStep(del2, o - 1);
      ArrivalsBelow(del, ins, del2, x, o - 1);
    } else if x == 0 || o == 0 {
      RankPositive(del, x);
      RankPositive(ins, o);
    } else {
      RankAfter(del, x - 1);
      RankAfter(ins, o - 1);
      CountStep(del2, o - 1);
      ArrivesIff(del, ins, del2, x - 1, o - 1);
      ArrivalsBelow(del, ins, del2, x - 1, o - 1);
    }
  }

  lemma {:induction false} ArrivesOutside(del: seq<Range>, ins: seq<Range>, del2: seq<Range>, x: int)
    ensures Arrives(del, ins, del2, x) ==> !In(del, x)
  {
  }

  /** A start of the union is a start of the first deletions or an arrival. */
  lemma {:induction false} StartsSplit(del: seq<Range>, ins: seq<Range>, del2: seq<Range>, x: nat)
    requires Separated(del)
    ensures Starts(del, ins, del2, x) <= StartsIn(del, x) + Arrivals(del, ins, del2, x)
  {
    hide Arrives, In;
    if x > 0 {
      StartsSplit(del, ins, del2, x - 1);
      if x == 1 {
        NoNegative(del);
      }
    }
  }

  lemma {:induction false} NoNegative(rs: seq<Range>)
    requires Separated(rs)
    ensures !In(rs, -1)
  {
    if In(rs, -1) {
      AtLeastFirst(rs, -1);
    }
  }

  lemma {:induction false} StartsAtMost(rs: seq<Range>, x: nat)
    requires Separated(rs)
    ensures StartsIn(rs, x) <= |rs|
  {
    var m := FirstFrom(rs, x);
    StartsBefore(rs, x, m);
  }

  lemma {:induction false} FirstFrom(rs: seq<Range>, x: nat) returns (m: nat)
    requires Separated(rs)
    ensures m <= |rs|
    ensures (forall i :: 0 <= i < m ==> rs[i].first < x) && (forall i :: m <= i < |rs| ==> x <= rs[i].first)
  {
    m := |rs|;
    while m > 0 && rs[m - 1].first >= x
      invariant m <= |rs| && forall i :: m <= i < |rs| ==> x <= rs[i].first
    {
      m := m - 1;
    }
    forall i | 0 <= i < m ensures rs[i].first < x {
      assert i < m - 1 ==> rs[i].second < rs[m - 1].first;
    }
  }

  /** Few ranges and few second deletions: then no unplanned chunk is opened. */
  lemma {:induction false} FewKeepCounts(del: seq<Range>, ins: seq<Range>, del2: seq<Range>)
    requires Separated(del) && Separated(ins) && Separated(del2)
    requires |del| + Total(del2) <= (|del| / MAX_SIZE + 1) * MAX_SIZE
    ensures CountsKept(del, ins, del2)
  {
    hide Starts, Arrivals, StartsIn, CountsKept, Arrives, Rank;
    GapsKeepOrder(del);
    GapsKeepOrder(ins);
    GapsKeepOrder(del2);
    CountsKeptIff(del, ins, del2);
    forall x: nat ensures !OpensLong(del, ins, del2, x) {
      if OpensLong(del, ins, del2, x) {
        RankPositive(del, x + 1);
        RankPositive(ins, 0);
        var o := NonMember(ins, Rank(del, x + 1), 0);
        ArrivalsBelow(del, ins, del2, x + 1, o);
        CountAtMost(del2, o);
        StartsSplit(del, ins, del2, x + 1);
        StartsAtMost(del, x + 1);
        OneMoreStart(del, ins, del2, x);
      }
    }
  }

  lemma {:induction false} OneMoreStart(del: seq<Range>, ins: seq<Range>, del2: seq<Range>, x: nat)
    requires In(del, x) && !United(del, ins, del2, x - 1)
    ensures Starts(del, ins, del2, x + 1) == Starts(del, ins, del2, x) + 1
  {
  }

  // ---------- change sets that cannot be merged so ----------

  /** The account of a change set with deletions only. */
  ghost predicate Dropped(n: nat, a: seq<Item>, del: seq<Range>) {
    && Separated(del) && Tally(n, a, del, []) && Inserted(a, []) && Sources(a, del) && MovesAre(a, []) && Modified(a, [])
  }

  /** Deletions only: the rows left are the others. */
  lemma {:induction false} OnlyDeletions(n: nat, del: seq<Range>)
    requires Separated(del) && forall i :: 0 <= i < |del| ==> del[i].second <= n
    ensures var a := Survivors(OldItems(n), del); Dropped(n, a, del) && |a| == Rank(del, n)
  {
    hide Survivors;
    GapsKeepOrder(del);
    EndsBelow(del, n);
    var a := Survivors(OldItems(n), del);
    SurvivorsCount(OldItems(n), del);
    forall x {:trigger In(del, x)} | In(del, x) ensures 0 <= x < n {
      AtLeastFirst(del, x);
    }
    forall j | 0 <= j < |a| ensures !a[j].moved && !a[j].dirty && !Placed(a[j]) && Stayed(n, a[j], j, del, []) {
      var i := SurvivorFrom(OldItems(n), del, j);
    }
  }

  lemma {:induction false} BothDropped(n: nat, del: seq<Range>, del2: seq<Range>, k: nat)
    requires Separated(del) && (forall i :: 0 <= i < |del| ==> del[i].second <= n)
    requires Separated(del2) && (forall i :: 0 <= i < |del2| ==> del2[i].second <= k) && k <= n - Total(del)
    ensures var a := Survivors(OldItems(n), del);
      Dropped(n, a, del) && Dropped(|a|, Survivors(OldItems(|a|), del2), del2)
  {
    hide Survivors, Dropped, OldItems;
    OnlyDeletions(n, del);
    CountAtMost(del, n);
    var a := Survivors(OldItems(n), del);
    OnlyDeletions(|a|, del2);
  }

  /** Two change sets with deletions only, each sound, for which merging leaves a wrong
      count: 255 pairs of rows deleted first, then two rows before them. */
  lemma {:induction false} MergeMiscounts()
    ensures var n, del, del2 := 1100, Twos(), [Range(0, 1), Range(2, 3)];
      var a := Survivors(OldItems(n), del);
      Dropped(n, a, del) && Dropped(|a|, Survivors(OldItems(|a|), del2), del2) && !CountsKept(del, [], del2)
  {
    hide Survivors, Dropped, OldItems, LongOpener, AddedShifted;
    LongOpenerArises();
    TwosTotal(255);
    assert Twos()[..255] == Twos();
    BothDropped(1100, Twos(), [Range(0, 1), Range(2, 3)], 3);
  }

  lemma {:induction false} EndsBelow(rs: seq<Range>, n: int)
    requires forall i :: 0 <= i < |rs| ==> rs[i].second <= n
    ensures forall x {:trigger In(rs, x)} :: In(rs, x) ==> x < n
  {
    forall x {:trigger In(rs, x)} | In(rs, x) ensures x < n {
      var i := InIndex(rs, x);
    }
  }

  lemma {:induction false} TwosTotal(k: nat)
    requires k <= 255
    ensures Total(Twos()[..k]) == 2 * k
  {
    if k > 0 {
      TwosTotal(k - 1);
      TotalSplit(Twos()[..k - 1], [Twos()[k - 1]]);
      assert Twos()[..k] == Twos()[..k - 1] + [Twos()[k - 1]];
      assert [Twos()[k - 1]][1..] == [];
    }
  }
}
