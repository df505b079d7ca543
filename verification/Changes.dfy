/** What a list change set has to say: for every row of the new list, where it
    came from. The change builder is proved against this account. */
module Changes {
  import opened Common
  import opened Ranges
  import opened RangeOps

  datatype Move = Move(from: nat, to: nat)

  /** A row of the new list: its index in the old list if it was there, whether it
      was moved there on purpose, and whether it was modified. */
  datatype Item = Item(origin: Option<nat>, moved: bool, dirty: bool)

  /** One step of a list's history. */
  datatype Change<T> =
    | InsertRows(index: nat, rows: seq<T>)
    | EraseRow(index: nat)
    | MoveRow(from: nat, to: nat)
    | ModifyRow(index: nat)
    | ClearRows

  predicate Allowed<T>(len: nat, c: Change<T>) {
    match c
    case InsertRows(index, rows) => index <= len && rows != []
    case EraseRow(index) => index < len
    case MoveRow(from, to) => from < len && to < len && from != to
    case ModifyRow(index) => index < len
    case ClearRows => true
  }

  function Insert<T>(s: seq<T>, index: nat, xs: seq<T>): (r: seq<T>)
    requires index <= |s|
    ensures |r| == |s| + |xs|
  {
    s[..index] + xs + s[index..]
  }

  function Erase<T>(s: seq<T>, index: nat): (r: seq<T>)
    requires index < |s|
    ensures |r| == |s| - 1
  {
    s[..index] + s[index + 1..]
  }

  /** The list itself. */
  function Rows<T>(s: seq<T>, c: Change<T>): seq<T>
    requires Allowed(|s|, c)
  {
    match c
    case InsertRows(index, rows) => Insert(s, index, rows)
    case EraseRow(index) => Erase(s, index)
    case MoveRow(from, to) => Insert(Erase(s, from), to, [s[from]])
    case ModifyRow(_) => s
    case ClearRows => []
  }

  function NewItems(count: nat): (s: seq<Item>)
    ensures |s| == count && forall i :: 0 <= i < count ==> s[i] == Item(None, false, false)
  {
    seq(count, i => Item(None, false, false))
  }

  function OldItems(n: nat): (s: seq<Item>)
    ensures |s| == n && forall i :: 0 <= i < n ==> s[i] == Item(Some(i), false, false)
  {
    seq(n, (i: nat) => Item(Some(i), false, false))
  }

  /** The account of where rows came from. */
  function Items<T>(items: seq<Item>, c: Change<T>): (r: seq<Item>)
    requires Allowed(|items|, c)
  {
    match c
    case InsertRows(index, rows) => Insert(items, index, NewItems(|rows|))
    case EraseRow(index) => Erase(items, index)
    case MoveRow(from, to) => Insert(Erase(items, from), to, [items[from].(moved := items[from].origin.Some?)])
    case ModifyRow(index) => items[index := items[index].(dirty := true)]
    case ClearRows => []
  }

  ghost predicate AllowedRun<T>(items: seq<Item>, cs: seq<Change<T>>)
    decreases |cs|
  {
    cs != [] ==> Allowed(|items|, cs[0]) && AllowedRun(Items(items, cs[0]), cs[1..])
  }

  ghost function RunItems<T>(items: seq<Item>, cs: seq<Change<T>>): seq<Item>
    requires AllowedRun(items, cs)
    decreases |cs|
  {
    if cs == [] then items else RunItems(Items(items, cs[0]), cs[1..])
  }

  ghost function RunRows<T>(rows: seq<T>, items: seq<Item>, cs: seq<Change<T>>): seq<T>
    requires |rows| == |items| && AllowedRun(items, cs)
    decreases |cs|
  {
    if cs == [] then rows else RunRows(Rows(rows, cs[0]), Items(items, cs[0]), cs[1..])
  }

  // ---------- the account is true of the rows ----------

  /** Every row with an origin is the old row at that index. */
  ghost predicate Tracks<T>(old_: seq<T>, rows: seq<T>, items: seq<Item>) {
    && |rows| == |items|
    && forall j :: 0 <= j < |items| && items[j].origin.Some? ==>
         items[j].origin.value < |old_| && rows[j] == old_[items[j].origin.value]
  }

  lemma {:induction false} EraseTracks<T>(old_: seq<T>, rows: seq<T>, items: seq<Item>, index: nat)
    requires Tracks(old_, rows, items) && index < |rows|
    ensures Tracks(old_, Erase(rows, index), Erase(items, index))
  {
  }

  lemma {:induction false} InsertTracks<T>(old_: seq<T>, rows: seq<T>, items: seq<Item>, index: nat,
                                           xs: seq<T>, its: seq<Item>)
    requires Tracks(old_, rows, items) && Tracks(old_, xs, its) && index <= |rows|
    ensures Tracks(old_, Insert(rows, index, xs), Insert(items, index, its))
  {
  }

  lemma {:induction false} StepTracks<T>(old_: seq<T>, rows: seq<T>, items: seq<Item>, c: Change<T>)
    requires Tracks(old_, rows, items) && Allowed(|rows|, c)
    ensures Tracks(old_, Rows(rows, c), Items(items, c))
  {
    hide Insert, Erase;
    match c
    case InsertRows(index, xs) =>
      InsertTracks(old_, rows, items, index, xs, NewItems(|xs|));
    case EraseRow(index) =>
      EraseTracks(old_, rows, items, index);
    case MoveRow(from, to) =>
      EraseTracks(old_, rows, items, from);
      InsertTracks(old_, Erase(rows, from), Erase(items, from), to, [rows[from]],
                   [items[from].(moved := items[from].origin.Some?)]);
    case ModifyRow(_) =>
    case ClearRows =>
  }

  lemma {:induction false} RunTracks<T>(old_: seq<T>, rows: seq<T>, items: seq<Item>, cs: seq<Change<T>>)
    requires Tracks(old_, rows, items) && AllowedRun(items, cs)
    ensures Tracks(old_, RunRows(rows, items, cs), RunItems(items, cs))
    decreases |cs|
  {
    if cs != [] {
      StepTracks(old_, rows, items, cs[0]);
      RunTracks(old_, Rows(rows, cs[0]), Items(items, cs[0]), cs[1..]);
    }
  }

  // ---------- what the index sets have to say ----------

  /** A row the change set reports as inserted: a new row, or a moved one. */
  predicate Placed(item: Item) {
    item.origin.None? || item.moved
  }

  /** The insertions are exactly the new and the moved rows. */
  ghost predicate Inserted(items: seq<Item>, ins: seq<Range>) {
    forall x {:trigger In(ins, x)} :: In(ins, x) <==> 0 <= x < |items| && Placed(items[x])
  }

  /** The modifications are exactly the modified rows. */
  ghost predicate Modified(items: seq<Item>, mods: seq<Range>) {
    forall x {:trigger In(mods, x)} :: In(mods, x) <==> 0 <= x < |items| && items[x].dirty
  }

  /** A row that stayed: still in the old list's remainder, at the same place. */
  ghost predicate Stayed(n: nat, item: Item, j: nat, del: seq<Range>, ins: seq<Range>) {
    && item.origin.Some? && item.origin.value < n
    && !In(del, item.origin.value) && Rank(del, item.origin.value) == Rank(ins, j)
  }

  /** The rows left when the deletions are taken out of the old list are the rows
      left when the insertions are taken out of the new one. */
  ghost predicate Tally(n: nat, items: seq<Item>, del: seq<Range>, ins: seq<Range>) {
    && (forall x {:trigger In(del, x)} :: In(del, x) ==> 0 <= x < n)
    && (forall j :: 0 <= j < |items| && !Placed(items[j]) ==> Stayed(n, items[j], j, del, ins))
    && Rank(del, n) == Rank(ins, |items|)
  }

  /** Moved rows come from distinct deleted places. */
  ghost predicate Sources(items: seq<Item>, del: seq<Range>) {
    && (forall j :: 0 <= j < |items| && items[j].moved ==>
          items[j].origin.Some? && In(del, items[j].origin.value))
    && (forall j, k :: 0 <= j < k < |items| && items[j].moved && items[k].moved ==>
          items[j].origin != items[k].origin)
  }

  /** The moves listed are exactly the moved rows, one each. */
  ghost predicate MovesAre(items: seq<Item>, moves: seq<Move>) {
    && (forall m: Move {:trigger m in moves} {:trigger Moves(items, m)} :: m in moves <==> Moves(items, m))
    && (forall k, l :: 0 <= k < l < |moves| ==> moves[k].to != moves[l].to)
  }

  ghost predicate Moves(items: seq<Item>, m: Move) {
    m.to < |items| && items[m.to].moved && items[m.to].origin == Some(m.from)
  }

  lemma {:induction false} NothingChanged(n: nat)
    ensures Inserted(OldItems(n), []) && Modified(OldItems(n), []) && Tally(n, OldItems(n), [], [])
    ensures Sources(OldItems(n), []) && MovesAre(OldItems(n), [])
  {
  }

  /** A row that stayed is found by its rank: unshifting it past the insertions and
      shifting it past the deletions gives its origin. */
  lemma {:induction false} OriginFound(n: nat, items: seq<Item>, del: seq<Range>, ins: seq<Range>, index: nat, s: nat)
    requires Ordered(del) && Tally(n, items, del, ins) && index < |items| && !Placed(items[index])
    requires IsShifted(del, Rank(ins, index), s)
    ensures items[index].origin == Some(s)
  {
    assert Stayed(n, items[index], index, del, ins);
    ShiftedUnique(del, Rank(ins, index), s, items[index].origin.value);
  }

  lemma {:induction false} EraseInserted(items: seq<Item>, ins: seq<Range>, index: nat, ins': seq<Range>)
    requires Inserted(items, ins) && index < |items| && EraseSpec(ins, ins', index)
    ensures Inserted(Erase(items, index), ins')
  {
  }

  lemma {:induction false} EraseModified(items: seq<Item>, mods: seq<Range>, index: nat, mods': seq<Range>)
    requires Modified(items, mods) && index < |items| && EraseSpec(mods, mods', index)
    ensures Modified(Erase(items, index), mods')
  {
  }

  /** A new or moved row goes without a trace among the deletions. */
  lemma {:induction false} ErasePlaced(n: nat, items: seq<Item>, del: seq<Range>, ins: seq<Range>, index: nat,
                                       ins': seq<Range>)
    requires Ordered(ins) && Ordered(ins') && EraseSpec(ins, ins', index) && Inserted(items, ins)
    requires Tally(n, items, del, ins) && index < |items| && Placed(items[index])
    ensures Tally(n, Erase(items, index), del, ins')
  {
    hide EraseSpec;
    assert In(ins, index);
    var next := Erase(items, index);
    forall j | 0 <= j < |next| && !Placed(next[j]) ensures Stayed(n, next[j], j, del, ins') {
      EraseRanks(ins, ins', index, j);
      var was := if j < index then j else j + 1;
      assert Stayed(n, items[was], was, del, ins);
      CountStep(ins, index);
    }
    EraseRanks(ins, ins', index, |next|);
    CountStep(ins, index);
  }

  /** A row that stayed leaves its origin among the deletions. */
  lemma {:induction false} EraseStayed(n: nat, items: seq<Item>, del: seq<Range>, ins: seq<Range>, index: nat,
                                       del': seq<Range>, ins': seq<Range>)
    requires Ordered(ins) && Ordered(ins') && EraseSpec(ins, ins', index) && Inserted(items, ins)
    requires Tally(n, items, del, ins) && index < |items| && !Placed(items[index])
    requires Ordered(del) && Ordered(del') && AddSpec(del, del', items[index].origin.value)
    ensures Tally(n, Erase(items, index), del', ins')
  {
    hide EraseSpec;
    var o := items[index].origin.value;
    assert Stayed(n, items[index], index, del, ins) && !In(ins, index);
    var next := Erase(items, index);
    forall j | 0 <= j < |next| && !Placed(next[j]) ensures Stayed(n, next[j], j, del', ins') {
      var was := if j < index then j else j + 1;
      assert Stayed(n, items[was], was, del, ins) && !In(ins, was);
      StayedShifts(n, items[index], items[was], index, was, del, del', ins, ins');
    }
    EraseRanks(ins, ins', index, |next|);
    CountStep(ins, index);
    AddRanks(del, del', o, n);
  }

  lemma {:induction false} StayedShifts(n: nat, gone: Item, item: Item, index: nat, was: nat,
                                        del: seq<Range>, del': seq<Range>, ins: seq<Range>, ins': seq<Range>)
    requires Ordered(ins) && Ordered(ins') && EraseSpec(ins, ins', index) && !In(ins, index) && !In(ins, was)
    requires Ordered(del) && Ordered(del') && was != index
    requires Stayed(n, gone, index, del, ins) && Stayed(n, item, was, del, ins)
    requires AddSpec(del, del', gone.origin.value)
    ensures Stayed(n, item, if was < index then was else was - 1, del', ins')
  {
    hide EraseSpec;
    var o, p := gone.origin.value, item.origin.value;
    if was < index {
      RankMonotone(ins, was, index);
      if o <= p {
        RankMonotone(del, o, p);
      }
    } else {
      RankMonotone(ins, index, was);
      if p <= o {
        RankMonotone(del, p, o);
      }
    }
    assert (p < o <==> was < index) && p != o;
    AddRanks(del, del', o, p);
    EraseRanks(ins, ins', index, if was < index then was else was - 1);
    CountStep(ins, index);
  }

  lemma {:induction false} EraseSources(items: seq<Item>, del: seq<Range>, index: nat)
    requires Sources(items, del) && index < |items|
    ensures Sources(Erase(items, index), del)
  {
  }

  lemma {:induction false} MoreSources(items: seq<Item>, del: seq<Range>, del': seq<Range>, o: int)
    requires Sources(items, del) && AddSpec(del, del', o)
    ensures Sources(items, del')
  {
  }

  lemma {:induction false} InsertInserted(items: seq<Item>, ins: seq<Range>, index: nat, xs: seq<Item>, ins': seq<Range>)
    requires Inserted(items, ins) && index <= |items| && InsertSpec(ins, ins', index, |xs|)
    requires forall k :: 0 <= k < |xs| ==> Placed(xs[k])
    ensures Inserted(Insert(items, index, xs), ins')
  {
    hide Placed;
    var next := Insert(items, index, xs);
    forall x {:trigger In(ins', x)} ensures In(ins', x) <==> 0 <= x < |next| && Placed(next[x]) {
      if 0 <= x < |next| {
        assert next[x] == if x < index then items[x] else if x < index + |xs| then xs[x - index] else items[x - |xs|];
      }
    }
  }

  lemma {:induction false} PartModified(items: seq<Item>, mods: seq<Range>, index: nat, xs: seq<Item>, mods': seq<Range>)
    requires Modified(items, mods) && index <= |items| && PartSpec(mods, mods', index, |xs|)
    requires forall k :: 0 <= k < |xs| ==> !xs[k].dirty
    ensures Modified(Insert(items, index, xs), mods')
  {
  }

  lemma {:induction false} InsertModified(items: seq<Item>, mods: seq<Range>, index: nat, xs: seq<Item>, mods': seq<Range>)
    requires Modified(items, mods) && index <= |items| && InsertSpec(mods, mods', index, |xs|)
    requires forall k :: 0 <= k < |xs| ==> xs[k].dirty
    ensures Modified(Insert(items, index, xs), mods')
  {
  }

  lemma {:induction false} InsertTally(n: nat, items: seq<Item>, del: seq<Range>, ins: seq<Range>, index: nat, xs: seq<Item>,
                                       ins': seq<Range>)
    requires Ordered(ins) && Ordered(ins') && InsertSpec(ins, ins', index, |xs|)
    requires Tally(n, items, del, ins) && index <= |items| && forall k :: 0 <= k < |xs| ==> Placed(xs[k])
    ensures Tally(n, Insert(items, index, xs), del, ins')
  {
    hide InsertSpec;
    var next := Insert(items, index, xs);
    forall j | 0 <= j < |next| && !Placed(next[j]) ensures Stayed(n, next[j], j, del, ins') {
      var was := if j < index then j else j - |xs|;
      assert 0 <= was < |items| && next[j] == items[was];
      assert Stayed(n, items[was], was, del, ins);
      InsertRanks(ins, ins', index, |xs|, j);
    }
    InsertRanks(ins, ins', index, |xs|, |next|);
  }

  lemma {:induction false} InsertSources(items: seq<Item>, del: seq<Range>, index: nat, xs: seq<Item>)
    requires Sources(items, del) && index <= |items|
    requires forall k :: 0 <= k < |xs| ==> !xs[k].moved
    ensures Sources(Insert(items, index, xs), del)
  {
  }

  lemma {:induction false} InsertSource(items: seq<Item>, del: seq<Range>, index: nat, x: Item)
    requires Sources(items, del) && index <= |items|
    requires x.moved ==> x.origin.Some? && In(del, x.origin.value)
    requires x.moved ==> forall j :: 0 <= j < |items| && items[j].moved ==> items[j].origin != x.origin
    ensures Sources(Insert(items, index, [x]), del)
  {
  }

  // ---------- what happens to the listed moves ----------

  function InsertMove(m: Move, index: nat, count: nat): Move {
    if m.to >= index then Move(m.from, m.to + count) else m
  }

  function InsertMoves(moves: seq<Move>, index: nat, count: nat): (r: seq<Move>)
    ensures |r| == |moves| && forall k :: 0 <= k < |r| ==> r[k] == InsertMove(moves[k], index, count)
  {
    seq(|moves|, k requires 0 <= k < |moves| => InsertMove(moves[k], index, count))
  }

  function EraseMoves(moves: seq<Move>, index: nat): seq<Move> {
    if moves == [] then []
    else
      var m := moves[|moves| - 1];
      EraseMoves(moves[..|moves| - 1], index) +
      if m.to == index then [] else if m.to > index then [Move(m.from, m.to - 1)] else [m]
  }

  function MoveMove(m: Move, from: nat, to: nat): Move {
    if m.to == from then Move(m.from, to)
    else if to <= m.to < from then Move(m.from, m.to + 1)
    else if from < m.to <= to then Move(m.from, m.to - 1)
    else m
  }

  function MoveMoves(moves: seq<Move>, from: nat, to: nat): (r: seq<Move>)
    ensures |r| == |moves| && forall k :: 0 <= k < |r| ==> r[k] == MoveMove(moves[k], from, to)
  {
    seq(|moves|, k requires 0 <= k < |moves| => MoveMove(moves[k], from, to))
  }

  lemma {:induction false} InsertedMoves(items: seq<Item>, moves: seq<Move>, index: nat, count: nat)
    requires MovesAre(items, moves) && index <= |items|
    ensures MovesAre(Insert(items, index, NewItems(count)), InsertMoves(moves, index, count))
  {
    var next, moves' := Insert(items, index, NewItems(count)), InsertMoves(moves, index, count);
    forall m: Move {:trigger m in moves'} {:trigger Moves(next, m)} ensures m in moves' <==> Moves(next, m) {
      if m in moves' {
        var k :| 0 <= k < |moves'| && moves'[k] == m;
        assert moves[k] in moves;
      }
      if Moves(next, m) {
        var was := if m.to < index then m else Move(m.from, m.to - count);
        assert Moves(items, was) && was in moves;
        var k :| 0 <= k < |moves| && moves[k] == was;
        assert moves'[k] == m;
      }
    }
    forall k, l | 0 <= k < l < |moves'| ensures moves'[k].to != moves'[l].to {
      assert moves[k].to != moves[l].to;
    }
  }

  lemma {:induction false} EraseMovesIn(moves: seq<Move>, index: nat, m: Move)
    ensures m in EraseMoves(moves, index) <==> if m.to < index then m in moves else Move(m.from, m.to + 1) in moves
  {
    if moves != [] {
      var init, last := moves[..|moves| - 1], moves[|moves| - 1];
      EraseMovesIn(init, index, m);
      assert moves == init + [last];
    }
  }

  lemma {:induction false} EraseMovesDistinct(moves: seq<Move>, index: nat)
    requires forall k, l :: 0 <= k < l < |moves| ==> moves[k].to != moves[l].to
    ensures var r := EraseMoves(moves, index); forall k, l :: 0 <= k < l < |r| ==> r[k].to != r[l].to
  {
    if moves != [] {
      var init, last := moves[..|moves| - 1], moves[|moves| - 1];
      EraseMovesDistinct(init, index);
      var r := EraseMoves(init, index);
      forall k | 0 <= k < |r| && last.to != index ensures r[k].to != if last.to > index then last.to - 1 else last.to {
        EraseMovesIn(init, index, r[k]);
        var was := if r[k].to < index then r[k] else Move(r[k].from, r[k].to + 1);
        var l :| 0 <= l < |init| && init[l] == was;
        assert moves[l].to != last.to;
      }
    }
  }

  lemma {:induction false} ErasedMoves(items: seq<Item>, moves: seq<Move>, index: nat)
    requires MovesAre(items, moves) && index < |items|
    ensures MovesAre(Erase(items, index), EraseMoves(moves, index))
  {
    var next, moves' := Erase(items, index), EraseMoves(moves, index);
    EraseMovesDistinct(moves, index);
    forall m: Move {:trigger m in moves'} {:trigger Moves(next, m)} ensures m in moves' <==> Moves(next, m) {
      EraseMovesIn(moves, index, m);
      var was := if m.to < index then m else Move(m.from, m.to + 1);
      assert was in moves <==> Moves(items, was);
    }
  }

  /** The list after a move, position by position. */
  lemma {:induction false} MovedItem(items: seq<Item>, from: nat, to: nat, x: Item, j: nat)
    requires from < |items| && to < |items| && j < |items|
    ensures var next := Insert(Erase(items, from), to, [x]);
      |next| == |items| && next[to] == x && (j != from ==> next[MoveMove(Move(0, j), from, to).to] == items[j])
  {
  }

  function MoveBack(j: nat, from: nat, to: nat): nat {
    if j == to then from else if to < j <= from then j - 1 else if from <= j < to then j + 1 else j
  }

  /** After a move the listed moves follow their rows; a row that had stayed gets a
      move of its own. */
  lemma {:induction false} MovedMoves(items: seq<Item>, moves: seq<Move>, from: nat, to: nat)
    requires MovesAre(items, moves) && from < |items| && to < |items| && from != to
    requires items[from].moved ==> items[from].origin.Some?
    ensures var x := items[from].(moved := items[from].origin.Some?);
      MovesAre(Insert(Erase(items, from), to, [x]),
               MoveMoves(moves, from, to) + if Placed(items[from]) then [] else [Move(items[from].origin.value, to)])
  {
    hide Insert, Erase, MovesAre;
    var x := items[from].(moved := items[from].origin.Some?);
    var next, mapped := Insert(Erase(items, from), to, [x]), MoveMoves(moves, from, to);
    var extra := if Placed(items[from]) then [] else [Move(items[from].origin.value, to)];
    forall m: Move ensures m in mapped + extra <==> Moves(next, m) {
      MovedMove(items, moves, from, to, m);
    }
    MovedDistinct(items, moves, from, to);
    MovesAreMeans(next, mapped + extra);
  }

  lemma {:induction false} MovesAreMeans(items: seq<Item>, moves: seq<Move>)
    requires forall m: Move :: m in moves <==> Moves(items, m)
    requires forall k, l :: 0 <= k < l < |moves| ==> moves[k].to != moves[l].to
    ensures MovesAre(items, moves)
  {
  }

  lemma {:induction false} MovedMove(items: seq<Item>, moves: seq<Move>, from: nat, to: nat, m: Move)
    requires MovesAre(items, moves) && from < |items| && to < |items| && from != to
    requires items[from].moved ==> items[from].origin.Some?
    ensures var x := items[from].(moved := items[from].origin.Some?);
      m in MoveMoves(moves, from, to) + (if Placed(items[from]) then [] else [Move(items[from].origin.value, to)])
      <==> Moves(Insert(Erase(items, from), to, [x]), m)
  {
    hide Insert, Erase;
    var x := items[from].(moved := items[from].origin.Some?);
    var next, mapped := Insert(Erase(items, from), to, [x]), MoveMoves(moves, from, to);
    var was := Move(m.from, MoveBack(m.to, from, to));
    assert MoveMove(was, from, to) == m && MoveMove(Move(0, was.to), from, to).to == m.to;
    if was.to < |items| {
      MovedItem(items, from, to, x, was.to);
    }
    MovedItem(items, from, to, x, 0);
    if m in mapped {
      var k :| 0 <= k < |mapped| && mapped[k] == m;
      assert moves[k] in moves && moves[k] == was;
    }
    if was in moves {
      var k :| 0 <= k < |moves| && moves[k] == was;
      assert mapped[k] == m;
    }
    assert m in mapped <==> Moves(items, was);
  }

  lemma {:induction false} MovedDistinct(items: seq<Item>, moves: seq<Move>, from: nat, to: nat)
    requires MovesAre(items, moves) && from < |items| && to < |items| && from != to
    ensures var r := MoveMoves(moves, from, to) + if Placed(items[from]) then [] else [Move(items[from].origin.value, to)];
      forall k, l :: 0 <= k < l < |r| ==> r[k].to != r[l].to
  {
    var mapped := MoveMoves(moves, from, to);
    forall k | 0 <= k < |mapped|
      ensures MoveBack(mapped[k].to, from, to) == moves[k].to
      ensures !Placed(items[from]) ==> mapped[k].to != to
    {
      assert moves[k] in moves && Moves(items, moves[k]);
    }
    forall k, l | 0 <= k < l < |mapped| ensures mapped[k].to != mapped[l].to {
      assert moves[k].to != moves[l].to;
    }
  }

  // ---------- moves that turn out to be none ----------

  /** The two ends of the move meet once the other changes are discounted. */
  ghost predicate Stale(m: Move, del: seq<Range>, ins: seq<Range>) {
    Rank(del, m.from) == Rank(ins, m.to)
  }

  function Unmoved(items: seq<Item>, j: nat): seq<Item>
    requires j < |items|
  {
    items[j := items[j].(moved := false)]
  }

  lemma {:induction false} RemoveRanks(was: seq<Range>, now: seq<Range>, index: nat, x: nat)
    requires Ordered(was) && Ordered(now) && RemoveSpec(was, now, index, 1) && In(was, index)
    ensures Rank(now, x) == Rank(was, x) + if index < x then 1 else 0
  {
    AddRanks(now, was, index, x);
  }

  /** A stale move can be forgotten together with its deletion and its insertion. */
  lemma {:induction false} ForgetTally(n: nat, items: seq<Item>, m: Move, del: seq<Range>, ins: seq<Range>,
                                       del': seq<Range>, ins': seq<Range>)
    requires Ordered(del) && Ordered(ins) && Ordered(del') && Ordered(ins')
    requires Tally(n, items, del, ins) && Inserted(items, ins) && Moves(items, m) && In(del, m.from)
    requires Stale(m, del, ins) && RemoveSpec(del, del', m.from, 1) && RemoveSpec(ins, ins', m.to, 1)
    ensures Tally(n, Unmoved(items, m.to), del', ins')
  {
    hide RemoveSpec;
    var next := Unmoved(items, m.to);
    assert In(ins, m.to);
    assert !In(del', m.from) && forall x {:trigger In(del', x)} :: In(del', x) ==> In(del, x) by {
      Removed(del, del', m.from);
    }
    forall j | 0 <= j < |next| && !Placed(next[j]) ensures Stayed(n, next[j], j, del', ins') {
      RemoveRanks(ins, ins', m.to, j);
      if j == m.to {
        RemoveRanks(del, del', m.from, m.from);
      } else {
        assert Stayed(n, items[j], j, del, ins) && !In(ins, j);
        var o := items[j].origin.value;
        SameSide(m, del, ins, o, j);
        RemoveRanks(del, del', m.from, o);
      }
    }
    RemoveRanks(del, del', m.from, n);
    RemoveRanks(ins, ins', m.to, |items|);
  }

  lemma {:induction false} Removed(was: seq<Range>, now: seq<Range>, index: nat)
    requires RemoveSpec(was, now, index, 1)
    ensures !In(now, index) && forall x {:trigger In(now, x)} :: In(now, x) ==> In(was, x)
  {
  }

  /** A row that stayed lies beyond the move's source exactly when it lies beyond
      its destination. */
  lemma {:induction false} SameSide(m: Move, del: seq<Range>, ins: seq<Range>, o: nat, j: nat)
    requires Ordered(del) && Ordered(ins) && Stale(m, del, ins) && In(del, m.from) && In(ins, m.to)
    requires !In(del, o) && !In(ins, j) && Rank(del, o) == Rank(ins, j)
    ensures m.from < o <==> m.to < j
  {
    if m.from < o {
      RankMonotone(del, m.from, o);
    } else {
      RankMonotone(del, o, m.from);
    }
    if m.to < j {
      RankMonotone(ins, m.to, j);
    } else {
      RankMonotone(ins, j, m.to);
    }
  }

  /** Forgetting one stale move makes no other move stale. */
  lemma {:induction false} StillNotStale(m: Move, other: Move, del: seq<Range>, ins: seq<Range>,
                                         del': seq<Range>, ins': seq<Range>)
    requires Ordered(del) && Ordered(ins) && Ordered(del') && Ordered(ins')
    requires In(del, m.from) && In(ins, m.to) && Stale(m, del, ins) && !Stale(other, del, ins)
    requires RemoveSpec(del, del', m.from, 1) && RemoveSpec(ins, ins', m.to, 1)
    ensures !Stale(other, del', ins')
  {
    hide RemoveSpec;
    RemoveRanks(del, del', m.from, other.from);
    RemoveRanks(ins, ins', m.to, other.to);
    if m.from < other.from && other.to <= m.to {
      RankMonotone(del, m.from, other.from);
      RankMonotone(ins, other.to, m.to);
    } else if other.from <= m.from && m.to < other.to {
      RankMonotone(del, other.from, m.from);
      RankMonotone(ins, m.to, other.to);
    }
  }

  lemma {:induction false} ForgetInserted(items: seq<Item>, m: Move, ins: seq<Range>, ins': seq<Range>)
    requires Inserted(items, ins) && Moves(items, m) && RemoveSpec(ins, ins', m.to, 1)
    ensures Inserted(Unmoved(items, m.to), ins')
  {
  }

  lemma {:induction false} ForgetSources(items: seq<Item>, m: Move, del: seq<Range>, del': seq<Range>)
    requires Sources(items, del) && Moves(items, m) && RemoveSpec(del, del', m.from, 1)
    ensures Sources(Unmoved(items, m.to), del') && In(del, m.from)
  {
  }

  lemma {:induction false} ForgetMove(items: seq<Item>, kept: seq<Move>, m: Move, rest: seq<Move>)
    requires MovesAre(items, kept + [m] + rest)
    ensures Moves(items, m) && MovesAre(Unmoved(items, m.to), kept + rest)
  {
    var all := kept + [m] + rest;
    assert all[|kept|] == m && m in all;
    var next := Unmoved(items, m.to);
    forall k | 0 <= k < |kept + rest| ensures (kept + rest)[k].to != m.to {
      assert (kept + rest)[k] == all[if k < |kept| then k else k + 1];
    }
    forall x: Move ensures x in kept + rest <==> Moves(next, x) {
      assert x in all <==> x in kept + rest || x == m;
      assert x in all <==> Moves(items, x);
      if x in kept + rest {
        var k :| 0 <= k < |kept + rest| && (kept + rest)[k] == x;
      }
    }
    forall k, l | 0 <= k < l < |kept + rest| ensures (kept + rest)[k].to != (kept + rest)[l].to {
      assert (kept + rest)[k] == all[if k < |kept| then k else k + 1];
      assert (kept + rest)[l] == all[if l < |kept| then l else l + 1];
    }
    MovesAreMeans(next, kept + rest);
  }

  /** Same rows, with some moves forgotten. */
  ghost predicate Settled(was: seq<Item>, now: seq<Item>) {
    && |now| == |was|
    && forall j :: 0 <= j < |was| ==> now[j].origin == was[j].origin && now[j].dirty == was[j].dirty
                                      && (now[j].moved ==> was[j].moved)
  }

  // ---------- what the change set is good for ----------

  /** The rows at indices outside the set, in order. */
  ghost function Survivors<T>(s: seq<T>, gone: seq<Range>): seq<T> {
    if s == [] then []
    else Survivors(s[..|s| - 1], gone) + if In(gone, |s| - 1) then [] else [s[|s| - 1]]
  }

  lemma {:induction false} SurvivorsCount<T>(s: seq<T>, gone: seq<Range>)
    requires Ordered(gone)
    ensures |Survivors(s, gone)| == Rank(gone, |s|)
  {
    if s == [] {
      RankZero(gone);
    } else {
      SurvivorsCount(s[..|s| - 1], gone);
      CountStep(gone, |s| - 1);
    }
  }

  /** A survivor's place is its rank. */
  lemma {:induction false} SurvivorAt<T>(s: seq<T>, gone: seq<Range>, j: nat)
    requires Ordered(gone) && j < |s| && !In(gone, j)
    ensures 0 <= Rank(gone, j) < |Survivors(s, gone)| && Survivors(s, gone)[Rank(gone, j)] == s[j]
  {
    var init := s[..|s| - 1];
    SurvivorsCount(init, gone);
    if j < |init| {
      SurvivorAt(init, gone, j);
    } else {
      RankZero(gone);
      RankMonotone(gone, 0, j);
    }
  }

  lemma {:induction false} SurvivorFrom<T>(s: seq<T>, gone: seq<Range>, k: nat) returns (j: nat)
    requires Ordered(gone) && k < |Survivors(s, gone)|
    ensures j < |s| && !In(gone, j) && Rank(gone, j) == k && Survivors(s, gone)[k] == s[j]
  {
    var init := s[..|s| - 1];
    SurvivorsCount(init, gone);
    if k < |Survivors(init, gone)| {
      j := SurvivorFrom(init, gone, k);
    } else {
      j := |init|;
    }
  }

  /** Taking the deletions out of the old list and the insertions out of the new
      list leaves the same rows in the same order. */
  lemma {:induction false} SameRemainder<T>(old_: seq<T>, rows: seq<T>, items: seq<Item>, del: seq<Range>, ins: seq<Range>)
    requires Ordered(del) && Ordered(ins)
    requires Tracks(old_, rows, items) && Tally(|old_|, items, del, ins) && Inserted(items, ins)
    ensures Survivors(old_, del) == Survivors(rows, ins)
  {
    SurvivorsCount(old_, del);
    SurvivorsCount(rows, ins);
    forall k | 0 <= k < |Survivors(rows, ins)| ensures Survivors(rows, ins)[k] == Survivors(old_, del)[k] {
      var j := SurvivorFrom(rows, ins, k);
      assert Stayed(|old_|, items[j], j, del, ins);
      SurvivorAt(old_, del, items[j].origin.value);
    }
  }

  /** The new rows put in one by one, at ascending indices. */
  ghost function Refilled<T>(left: seq<T>, rows: seq<T>, ins: seq<Range>, k: nat): seq<T>
    requires k <= |rows|
  {
    if k == 0 then left
    else
      var s := Refilled(left, rows, ins, k - 1);
      if In(ins, k - 1) && k - 1 <= |s| then Insert(s, k - 1, [rows[k - 1]]) else s
  }

  lemma {:induction false} RefilledUpTo<T>(rows: seq<T>, ins: seq<Range>, k: nat)
    requires Ordered(ins) && k <= |rows|
    ensures 0 <= Rank(ins, k) <= |Survivors(rows, ins)|
    ensures Refilled(Survivors(rows, ins), rows, ins, k) == rows[..k] + Survivors(rows, ins)[Rank(ins, k)..]
  {
    hide Survivors, In, Rank, Insert;
    var left := Survivors(rows, ins);
    SurvivorsCount(rows, ins);
    RankWithin(ins, k, |rows|);
    if k > 0 {
      RefilledUpTo(rows, ins, k - 1);
      RankAfter(ins, k - 1);
      if In(ins, k - 1) {
        PutBack(rows, left, k - 1, Rank(ins, k));
      } else {
        SurvivorAt(rows, ins, k - 1);
        PassOver(rows, left, k - 1, Rank(ins, k - 1));
      }
    }
  }

  lemma {:induction false} RankWithin(rs: seq<Range>, x: nat, y: nat)
    requires Ordered(rs) && x <= y
    ensures Rank(rs, 0) == 0 && 0 <= Rank(rs, x) <= Rank(rs, y)
  {
    RankZero(rs);
    RankMonotone(rs, 0, x);
    RankMonotone(rs, x, y);
  }

  lemma {:induction false} RankAfter(rs: seq<Range>, x: int)
    requires Ordered(rs)
    ensures Rank(rs, x + 1) == Rank(rs, x) + if In(rs, x) then 0 else 1
  {
    CountStep(rs, x);
  }

  lemma {:induction false} PutBack<T>(rows: seq<T>, left: seq<T>, k: nat, r: nat)
    requires r <= |left| && k < |rows|
    ensures Insert(rows[..k] + left[r..], k, [rows[k]]) == rows[..k + 1] + left[r..]
  {
  }

  lemma {:induction false} PassOver<T>(rows: seq<T>, left: seq<T>, k: nat, r: nat)
    requires r < |left| && k < |rows| && left[r] == rows[k]
    ensures rows[..k] + left[r..] == rows[..k + 1] + left[r + 1..]
  {
  }

  /** Applying a change set that leaves the same rows on both sides gives the new list:
      deletions taken out, then insertions put in. */
  lemma {:induction false} AppliedGivesNew<T>(old_: seq<T>, rows: seq<T>, del: seq<Range>, ins: seq<Range>)
    requires Ordered(del) && Ordered(ins) && Survivors(old_, del) == Survivors(rows, ins)
    ensures Refilled(Survivors(old_, del), rows, ins, |rows|) == rows
  {
    RefilledUpTo(rows, ins, |rows|);
    SurvivorsCount(rows, ins);
    assert rows[..|rows|] == rows;
  }

  /** The deletions are exactly the old rows no row of the new list stayed from. */
  lemma {:induction false} DeletionsExact(n: nat, items: seq<Item>, del: seq<Range>, ins: seq<Range>, x: nat)
    requires Ordered(del) && Ordered(ins) && Tally(n, items, del, ins) && Inserted(items, ins)
    ensures In(del, x) <==>
      x < n && forall j :: 0 <= j < |items| && items[j].origin == Some(x) ==> items[j].moved
  {
    if x < n && !In(del, x) {
      RankMonotone(del, x, n);
      RankZero(del);
      RankMonotone(del, 0, x);
      SurvivorsCount(items, ins);
      var j := SurvivorFrom(items, ins, Rank(del, x));
      assert Stayed(n, items[j], j, del, ins);
      ShiftedUnique(del, Rank(del, x), x, items[j].origin.value);
    }
    forall j | 0 <= j < |items| && items[j].origin == Some(x) && !items[j].moved ensures !In(del, x) {
      assert Stayed(n, items[j], j, del, ins);
    }
  }
}
