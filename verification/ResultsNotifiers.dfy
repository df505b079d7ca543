/** The caller of `calculate` for query results: old rows are taken to their new indices
    in the table, then compared with the new result. What that gives for every history of
    a table, row by row. */
module ResultsNotifiers {
  import opened Common
  import opened Ranges
  import opened Chunks
  import opened RangeOps
  import opened IndexSets
  import opened IndexCounts
  import opened SetOperations
  import opened Changes
  import opened Merges
  import opened ChangeBuilder
  import opened Pairings
  import opened Walks
  import opened Overtakers
  import opened Diffs
  import opened FewestMoves
  import opened TableChanges

  // ---------- histories of a table ----------

  /** Rows stay where they are or move to the front. */
  ghost predicate Forward(items: seq<Item>) {
    forall j :: 0 <= j < |items| && items[j].origin.Some? ==>
      if items[j].moved then j < items[j].origin.value else j == items[j].origin.value
  }

  /** In every history without swaps. */
  lemma {:induction false} RunForward(items: seq<Item>, steps: seq<TableStep>)
    requires AllFit(items, steps) && Forward(items) && forall s :: s in steps ==> !s.SwapRows?
    ensures Forward(AfterAll(items, steps))
    decreases |steps|
  {
    if steps != [] {
      assert steps[0] in steps;
      RunForward(After(items, steps[0]), steps[1..]);
    }
  }

  /** Starting from any table. */
  lemma {:induction false} TableForward(n: nat, steps: seq<TableStep>)
    requires AllFit(OldItems(n), steps) && forall s :: s in steps ==> !s.SwapRows?
    ensures Forward(AfterAll(OldItems(n), steps)) && Home(AfterAll(OldItems(n), steps)) == AfterAll(OldItems(n), steps)
  {
    hide After;
    RunForward(OldItems(n), steps);
  }

  // ---------- where a row of the old table is now ----------

  ghost predicate RowNow(items: seq<Item>, index: nat, now: Option<nat>) {
    if now.Some? then now.value < |items| && items[now.value].origin == Some(index)
    else forall j :: 0 <= j < |items| ==> items[j].origin != Some(index)
  }

  ghost predicate RowsNow(items: seq<Item>, was: seq<Option<nat>>, now: seq<Option<nat>>, k: nat) {
    && |now| == |was| && k <= |was|
    && (forall i :: 0 <= i < k ==> was[i].Some? && RowNow(items, was[i].value, now[i]))
    && (forall i :: k <= i < |was| ==> now[i] == was[i])
  }

  /** `std::lower_bound` by the old index. */
  method LowerBound(moves: seq<Move>, index: nat) returns (k: nat)
    requires ByFrom(moves)
    ensures k <= |moves|
    ensures (forall l :: 0 <= l < k ==> moves[l].from < index) && forall l :: k <= l < |moves| ==> moves[l].from >= index
  {
    k := 0;
    var high := |moves|;
    while k < high
      invariant k <= high <= |moves|
      invariant forall l :: 0 <= l < k ==> moves[l].from < index
      invariant forall l :: high <= l < |moves| ==> moves[l].from >= index
    {
      var mid := (k + high) / 2;
      if moves[mid].from < index {
        k := mid + 1;
      } else {
        high := mid;
      }
    }
  }

  /** A deleted row is where its move leads, if it has one; another one is found by its
      rank. */
  method CurrentRow(changes: CollectionChangeBuilder, index: nat) returns (now: Option<nat>)
    requires changes.Valid() && ByFrom(changes.moves) && index < changes.oldSize
    ensures RowNow(changes.items, index, now)
  {
    hide Separated, ChunksOk, Tally, Inserted, Sources, MovesAre, Modified, In, RowNow;
    var deleted := changes.deletions.Contains(index);
    if deleted {
      var k := LowerBound(changes.moves, index);
      now := if k < |changes.moves| && changes.moves[k].from == index then Some(changes.moves[k].to) else None;
      DeletedNow(changes.oldSize, changes.items, changes.deletions.Rs(), changes.insertions.Rs(), changes.moves, index, k);
    } else {
      var rank := Unshift(changes.deletions.vec.data, index);
      GapsKeepOrder(changes.deletions.Rs());
      RankPositive(changes.deletions.Rs(), index);
      var place := changes.insertions.Shift(rank);
      now := Some(place);
      StayedNow(changes.oldSize, changes.items, changes.deletions.Rs(), changes.insertions.Rs(), index, place);
    }
  }

  lemma {:induction false} DeletedNow(n: nat, items: seq<Item>, del: seq<Range>, ins: seq<Range>, moves: seq<Move>,
                                      index: nat, k: nat)
    requires Tally(n, items, del, ins) && MovesAre(items, moves) && In(del, index) && k <= |moves|
    requires (forall l :: 0 <= l < k ==> moves[l].from < index) && forall l :: k <= l < |moves| ==> moves[l].from >= index
    requires ByFrom(moves)
    ensures RowNow(items, index, if k < |moves| && moves[k].from == index then Some(moves[k].to) else None)
  {
    hide In, Rank, Tally;
    if k < |moves| && moves[k].from == index {
      assert moves[k] in moves && Moves(items, moves[k]);
    } else {
      forall l | 0 <= l < |moves| ensures moves[l].from != index {
        assert k < l ==> moves[k].from <= moves[l].from;
      }
      forall j | 0 <= j < |items| ensures items[j].origin != Some(index) {
        MoveOf(n, items, del, ins, moves, index, j);
      }
    }
  }

  lemma {:induction false} MoveOf(n: nat, items: seq<Item>, del: seq<Range>, ins: seq<Range>, moves: seq<Move>,
                                  index: nat, j: nat)
    requires Tally(n, items, del, ins) && MovesAre(items, moves) && In(del, index) && j < |items|
    ensures items[j].origin == Some(index) ==> Move(index, j) in moves
  {
    if items[j].origin == Some(index) {
      assert Placed(items[j]) || Stayed(n, items[j], j, del, ins);
      assert Moves(items, Move(index, j));
    }
  }

  lemma {:induction false} StayedNow(n: nat, items: seq<Item>, del: seq<Range>, ins: seq<Range>, index: nat, place: nat)
    requires Separated(del) && Separated(ins) && Tally(n, items, del, ins) && Inserted(items, ins)
    requires index < n && !In(del, index) && IsShifted(ins, Rank(del, index), place)
    ensures RowNow(items, index, Some(place))
  {
    hide In;
    GapsKeepOrder(del);
    GapsKeepOrder(ins);
    RankAfter(del, index);
    RankMonotone(del, index + 1, n);
    if place >= |items| {
      RankMonotone(ins, |items|, place);
    }
    OriginIs(n, items, del, ins, index, place);
  }

  lemma {:induction false} OriginIs(n: nat, items: seq<Item>, del: seq<Range>, ins: seq<Range>, index: nat, place: nat)
    requires Ordered(del) && Tally(n, items, del, ins) && Inserted(items, ins) && place < |items|
    requires index < n && !In(del, index) && IsShifted(ins, Rank(del, index), place)
    ensures items[place].origin == Some(index)
  {
    assert Stayed(n, items[place], place, del, ins);
    ShiftedUnique(del, Rank(del, index), items[place].origin.value, index);
  }

  // ---------- comparing ----------

  ghost predicate Ascending(rows: seq<nat>) {
    forall i, j :: 0 <= i < j < |rows| ==> rows[i] < rows[j]
  }

  /** In table order, with no swaps in the table's history, only candidates overtake. */
  lemma {:induction false} CandidatesOnly(items: seq<Item>, ins: seq<Range>, was: seq<nat>, now: seq<Option<nat>>, next: seq<nat>)
    requires Forward(items) && Inserted(items, ins) && Ascending(was) && Ascending(next)
    requires RowsNow(items, Shown(was), now, |was|)
    ensures OnlyCandidatesMove(now, next, ins)
  {
    hide In;
    forall x, y, i, j | 0 <= x < y < |now| && 0 <= i < j < |next| && now[y] == Some(next[i]) && now[x] == Some(next[j])
      ensures In(ins, next[i])
    {
      assert items[next[i]].origin == Some(was[y]) && items[next[j]].origin == Some(was[x]);
      assert was[x] < was[y] && next[i] < next[j];
    }
  }

  /** What a live query keeps of its last result. */
  class ResultsNotifier {
    var previousRows: seq<Option<nat>>

    constructor (rows: seq<nat>)
      ensures previousRows == Shown(rows)
    {
      previousRows := seq(|rows|, i requires 0 <= i < |rows| => Some(rows[i]));
    }

    /** The old rows are taken to where they are now. */
    method FollowRows(changes: CollectionChangeBuilder)
      requires changes.Valid() && ByFrom(changes.moves)
      requires forall i :: 0 <= i < |previousRows| ==> previousRows[i].Some? && previousRows[i].value < changes.oldSize
      modifies this
      ensures |previousRows| == |old(previousRows)| && RowsNow(changes.items, old(previousRows), previousRows, |previousRows|)
    {
      hide RowNow, Tally, Inserted, Sources, MovesAre, Modified, ByFrom, Separated, ChunksOk;
      var k := 0;
      while k < |previousRows|
        invariant k <= |previousRows| && RowsNow(changes.items, old(previousRows), previousRows, k)
        invariant changes.Valid()
      {
        var now := CurrentRow(changes, previousRows[k].value);
        previousRows := previousRows[k := now];
        k := k + 1;
      }
    }

    /** `calculate_changes`, once the query has run before and is observed. The changes
        reported lead from the old rows, as they are now, to the new ones if the result
        is sorted, the table did not change, or its rows only moved to the front; else
        exactly if every row overtaken by one that cannot have moved gives way. */
    method CalculateChanges(next: seq<nat>, changed: nat -> bool, changes: Option<CollectionChangeBuilder>, inTableOrder: bool)
      returns (ret: CollectionChangeBuilder, ghost now: seq<Option<nat>>)
      requires changes.Some? ==> changes.value.Valid() && ByFrom(changes.value.moves)
      requires forall i :: 0 <= i < |previousRows| ==> previousRows[i].Some?
      requires changes.Some? ==> forall i :: 0 <= i < |previousRows| ==> previousRows[i].value < changes.value.oldSize
      modifies this
      ensures previousRows == Shown(next) && |now| == |old(previousRows)|
      ensures if changes.Some? then RowsNow(changes.value.items, old(previousRows), now, |now|) else now == old(previousRows)
      ensures ModifiedRows(now, next, changed, ret.modifications.Rs())
      ensures changes.None? || !inTableOrder || InTableOrder(changes.value.items, old(previousRows), next) ==>
                ret.Valid() && Tracks(now, Shown(next), ret.items) &&
                Leads(now, Shown(next), ret.deletions.Rs(), ret.insertions.Rs(), ret.moves)
      ensures changes.Some? && inTableOrder && Distinct(now) && NoDup(next) ==>
                (Leads(now, Shown(next), ret.deletions.Rs(), ret.insertions.Rs(), ret.moves) <==>
                 AllGiveWay(Shared(now, next, |next|), changes.value.insertions.Rs())) &&
                UnsortedReport(now, next, changes.value.insertions.Rs(), ret.deletions.Rs(), ret.insertions.Rs(), ret.moves)
      ensures (changes.None? || !inTableOrder) && Distinct(now) && NoDup(next) ==>
                SortedReport(now, next, ret.modifications.vec.data, ret.deletions.Rs(), ret.insertions.Rs())
      ensures Separated(ret.deletions.Rs())
    {
      hide RowsNow, Tally, Inserted, Sources, MovesAre, Modified, ByFrom, Separated, ChunksOk, Leads, ModifiedRows, Tracks;
      hide OnlyCandidatesMove, InTableOrder, AllGiveWay, Shared, Distinct, NoDup, UnsortedReport, SortedReport;
      var candidates: Option<IndexSet> := None;
      if changes.Some? {
        FollowRows(changes.value);
        if inTableOrder {
          candidates := Some(changes.value.insertions);
          SafeInOrder(changes.value.items, changes.value.insertions.Rs(), old(previousRows), previousRows, next);
        }
      }
      now := previousRows;
      ret := Calculate(previousRows, next, changed, candidates);
      previousRows := seq(|next|, i requires 0 <= i < |next| => Some(next[i]));
    }
  }

  /** Old and new rows in table order, and rows only moved to the front. */
  ghost predicate InTableOrder(items: seq<Item>, was: seq<Option<nat>>, next: seq<nat>) {
    && Forward(items) && Ascending(next)
    && (forall i :: 0 <= i < |was| ==> was[i].Some?)
    && forall i, j :: 0 <= i < j < |was| ==> was[i].value < was[j].value
  }

  lemma {:induction false} SafeInOrder(items: seq<Item>, ins: seq<Range>, was: seq<Option<nat>>, now: seq<Option<nat>>, next: seq<nat>)
    requires Inserted(items, ins) && RowsNow(items, was, now, |was|)
    ensures InTableOrder(items, was, next) ==> OnlyCandidatesMove(now, next, ins)
  {
    hide Inserted, OnlyCandidatesMove;
    if InTableOrder(items, was, next) {
      var rows := seq(|was|, i requires 0 <= i < |was| => was[i].value);
      assert Shown(rows) == was;
      CandidatesOnly(items, ins, rows, now, next);
    }
  }

  /** From the table to the observer: rows of a result in table order are followed through
      any history without swaps, and the changes reported lead to the new result. */
  method ObserveTable(n: nat, steps: seq<TableStep>, rows: seq<nat>, next: seq<nat>, changed: nat -> bool)
    returns (ret: CollectionChangeBuilder, ghost now: seq<Option<nat>>)
    requires AllFit(OldItems(n), steps) && forall s :: s in steps ==> !s.SwapRows?
    requires Ascending(rows) && Ascending(next) && forall i :: 0 <= i < |rows| ==> rows[i] < n
    ensures |now| == |rows| && RowsNow(AfterAll(OldItems(n), steps), Shown(rows), now, |now|)
    ensures ret.Valid() && Leads(now, Shown(next), ret.deletions.Rs(), ret.insertions.Rs(), ret.moves)
    ensures JustOvertakersReported(now, next, ret.deletions.Rs(), ret.insertions.Rs(), ret.moves)
    ensures var shared := Shared(now, next, |next|);
      && (NoneLeavesMore(now, next, Rank(ret.deletions.Rs(), |now|)) <==> |Quiet(shared, |shared|)| == Longest(shared, |now|))
      && (OvertakersInverted(shared) ==> NoneLeavesMore(now, next, Rank(ret.deletions.Rs(), |now|)))
  {
    hide AllFit, AfterAll, Tally, Inserted, Sources, MovesAre, Modified, Leads, RowsNow, Forward, Tracks, ModifiedRows;
    hide UnsortedReport, SortedReport, Distinct, NoDup, OnlyCandidatesMove, Overtook, Shared, Quiet, Longest, OvertakersInverted,
         NoneLeavesMore, AllGiveWay, Rank, TableTells;
    var changes := TrackTable(n, steps);
    TableForward(n, steps);
    var notifier := new ResultsNotifier(rows);
    ret, now := notifier.CalculateChanges(next, changed, Some(changes), true);
    NowDistinct(changes.items, Shown(rows), now);
    AscendingDistinct(next);
    SafeInOrder(changes.items, changes.insertions.Rs(), Shown(rows), now, next);
    FewestIff(now, next, changes.insertions.Rs(), ret.deletions.Rs(), ret.insertions.Rs(), ret.moves);
    forall x: nat, i: nat | x < |now| && i < |next|
      ensures OvertakersAt(now, next, ret.deletions.Rs(), ret.insertions.Rs(), ret.moves, x, i)
    {
      JustOvertakersMove(now, next, changes.insertions.Rs(), ret.deletions.Rs(), ret.insertions.Rs(), ret.moves, x, i);
    }
  }

  /** A row in both results is deleted, inserted again and reported moved exactly if it
      got in front of another one. */
  ghost predicate JustOvertakersReported(now: seq<Option<nat>>, next: seq<nat>, del: seq<Range>, ins: seq<Range>, moves: seq<Move>) {
    forall x: nat, i: nat {:trigger OvertakersAt(now, next, del, ins, moves, x, i)} ::
      x < |now| && i < |next| ==> OvertakersAt(now, next, del, ins, moves, x, i)
  }

  ghost predicate OvertakersAt(now: seq<Option<nat>>, next: seq<nat>, del: seq<Range>, ins: seq<Range>, moves: seq<Move>,
                               x: nat, i: nat)
    requires x < |now| && i < |next|
  {
    && (now[x] == Some(next[i]) ==>
          (In(del, x) <==> Overtook(now, next, x, i)) && (In(ins, i) <==> Overtook(now, next, x, i)))
    && (Move(x, i) in moves <==> now[x] == Some(next[i]) && Overtook(now, next, x, i))
  }

  lemma {:induction false} NowDistinct(items: seq<Item>, was: seq<Option<nat>>, now: seq<Option<nat>>)
    requires RowsNow(items, was, now, |was|)
    requires forall i, j :: 0 <= i < j < |was| ==> was[i] != was[j]
    ensures Distinct(now)
  {
    forall x, y | 0 <= x < y < |now| && now[x].Some? ensures now[x] != now[y] {
      assert items[now[x].value].origin == was[x] != was[y];
    }
  }

  lemma {:induction false} AscendingDistinct(rows: seq<nat>)
    requires Ascending(rows)
    ensures NoDup(rows)
  {
  }

  // ---------- more moves than needed ----------

  lemma {:induction false} TableFilled()
    ensures var steps := [MoveLastOver(1), MoveLastOver(0)];
      && AllFit(OldItems(6), steps) && var items := AfterAll(OldItems(6), steps);
         |items| == 4 && items[0].origin == Some(4) && items[1].origin == Some(5) && items[3].origin == Some(3)
  {
    var steps := [MoveLastOver(1), MoveLastOver(0)];
    assert steps[1..] == [MoveLastOver(0)];
    var once := After(OldItems(6), MoveLastOver(1));
    assert |once| == 5 && once[1].origin == Some(5) && once[3].origin == Some(3) && once[4].origin == Some(4);
  }

  lemma {:induction false} RowsFilled(now: seq<Option<nat>>, next: seq<nat>)
    requires now == [Some(3), Some(0), Some(1)] && next == [0, 1, 3]
    ensures var rows := Shared(now, next, 3);
      |rows| == 3 && rows[0].shifted == 1 && rows[1].shifted == 2 && rows[2].shifted == 0
  {
    assert Present(now, 1) == 1 && Present(now, 2) == 2;
    assert now[1] in now && now[2] in now && now[0] in now;
    assert OldPlace(now, 0) == 1 by {
      assert now[1..][0] == Some(0);
    }
    assert OldPlace(now, 1) == 2 by {
      assert now[1..][0] == Some(0) && now[1..][1..][0] == Some(1);
    }
    assert Shared(now, next, 1) == [RowInfo(0, Some(1), 0, 1)];
    assert Shared(now, next, 2) == Shared(now, next, 1) + [RowInfo(1, Some(2), 1, 2)];
    assert Shared(now, next, 3) == Shared(now, next, 2) + [RowInfo(3, Some(0), 2, 0)];
  }

  /** Not minimal, although only the last row was ever moved: rows 1 and 0 of six are
      deleted, so that the last two move in front of the third last, and they are reported
      moved where moving that one would be enough. */
  lemma {:induction false} TwoMovesForOne()
    ensures var steps, was, now, next := [MoveLastOver(1), MoveLastOver(0)], [3, 4, 5], [Some(3), Some(0), Some(1)], [0, 1, 3];
      && AllFit(OldItems(6), steps) && RowsNow(AfterAll(OldItems(6), steps), Shown(was), now, 3)
      && var shared := Shared(now, next, 3);
         |Quiet(shared, |shared|)| == 1 && Longest(shared, 3) == 2 && !NoneLeavesMore(now, next, 1)
  {
    hide AllFit, AfterAll, Shared, NoneLeavesMore;
    var now, next := [Some(3), Some(0), Some(1)], [0, 1, 3];
    TableFilled();
    RowsFilled(now, next);
    var shared := Shared(now, next, 3);
    FilledChoice(shared);
    assert now[0] != now[1] && now[0] != now[2] && now[1] != now[2];
    NoneLeavesMoreIff(now, next, 1);
  }

  lemma {:induction false} FilledChoice(rows: seq<RowInfo>)
    requires |rows| == 3 && rows[0].shifted == 1 && rows[1].shifted == 2 && rows[2].shifted == 0
    ensures |Quiet(rows, 3)| == 1 && Longest(rows, 3) == 2
  {
    assert Overtakes(rows, 0) && Overtakes(rows, 1) && !Overtakes(rows, 2);
    assert Quiet(rows, 1) == [] && Quiet(rows, 2) == [] && Quiet(rows, 3) == [rows[2]];
    var two, one := rows[..2], rows[..1];
    assert two[..1] == one && one[..0] == [];
    assert Longest(one, 2) == 1 && Longest(one, 3) == 1 && Longest(one, 0) == 0;
    assert Longest(two, 3) == 2 && Longest(two, 0) == 0;
  }

  // ---------- with swaps ----------

  lemma {:induction false} TableTurned()
    ensures var steps := [SwapRows(0, 4), SwapRows(1, 3)];
      AllFit(OldItems(5), steps) && |AfterAll(OldItems(5), steps)| == 5 &&
      forall j :: 0 <= j < 5 ==> AfterAll(OldItems(5), steps)[j] == Item(Some(4 - j), j != 2, false)
  {
    var steps := [SwapRows(0, 4), SwapRows(1, 3)];
    assert steps[1..] == [SwapRows(1, 3)];
  }

  /** Swaps can lead to the wrong changes: the first and the last two of five rows trade
      places around the middle one, and the result had the first three. */
  lemma {:induction false} SwapsMislead()
    ensures var steps := [SwapRows(0, 4), SwapRows(1, 3)];
      && AllFit(OldItems(5), steps)
      && var items := AfterAll(OldItems(5), steps);
         var was, now, next, ins := [0, 1, 2], [Some(4), Some(3), Some(2)], [2, 3, 4], [Range(0, 2), Range(3, 5)];
         && Home(items) == items && Inserted(items, ins) && RowsNow(items, Shown(was), now, 3)
         && StayersInOrder(now, next, ins) && !AllGiveWay(Shared(now, next, 3), ins)
  {
    hide AfterAll, AllFit, AllGiveWay, Shared, StayersInOrder;
    var ins := [Range(0, 2), Range(3, 5)];
    TableTurned();
    assert ins[1..] == [Range(3, 5)];
    forall x {:trigger In(ins, x)} ensures In(ins, x) <==> 0 <= x < 2 || 3 <= x < 5 {
      InOne(Range(3, 5), x);
    }
    TurnedRound([Some(4), Some(3), Some(2)], [2, 3, 4], ins);
  }
}
