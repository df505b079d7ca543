/** `CollectionChangeBuilder` for lists: three index sets and a list of moves, kept
    up to date change by change. */
module ChangeBuilder {
  import opened Common
  import opened Ranges
  import opened Chunks
  import opened RangeVectors
  import opened RangeOps
  import opened IndexSets
  import opened IndexCounts
  import opened Changes
  import opened Histories
  import opened SetOperations
  import opened Merges

  /** The members of the set fill `0..n`. */
  lemma {:induction false} AllDeleted(n: nat)
    ensures var del := if n == 0 then [] else [Range(0, n)];
      Separated(del) && Tally(n, [], del, []) && Sources([], del)
    ensures Inserted([], []) && Modified([], []) && MovesAre([], [])
  {
    var del := if n == 0 then [] else [Range(0, n)];
    if n > 0 {
      InOne(Range(0, n), 0);
      forall x {:trigger In(del, x)} ensures In(del, x) <==> 0 <= x < n {
        InOne(Range(0, n), x);
      }
      RankFull(del, 0, n);
      RankZero(del);
    }
  }

  /** `clear` finds the old list's length by counting. */
  lemma {:induction false} OldSize(n: nat, items: seq<Item>, del: seq<Range>, ins: seq<Range>)
    requires Ordered(del) && Ordered(ins) && Tally(n, items, del, ins) && Inserted(items, ins)
    ensures |items| + Total(del) - Total(ins) == n
  {
    TotalIsCount(del, n);
    TotalIsCount(ins, |items|);
  }

  lemma {:induction false} TotalIsCount(rs: seq<Range>, n: nat)
    requires Ordered(rs) && forall x {:trigger In(rs, x)} :: In(rs, x) ==> x < n
    ensures Total(rs) == n - Rank(rs, n)
  {
    forall i | 0 <= i < |rs| ensures rs[i].second <= n {
      IndexIn(rs, rs[i].second - 1, i);
    }
    CountAll(rs, n);
  }

  /** The total length of the ranges, one range at a time. */
  method Length(d: seq<Chunk>) returns (total: int)
    requires ChunksOk(d) && Separated(Flat(d))
    ensures total == Total(Flat(d))
  {
    hide ChunksOk, Separated, Flat;
    total := 0;
    BeginOk(d);
    var it := Begin(d);
    StopHere(d, it);
    TotalNone(Flat(d));
    while it != End(d)
      invariant Ok(d, it) && Pos(d, it) <= |Flat(d)| && total == Total(Flat(d)[..Pos(d, it)])
      decreases |Flat(d)| - Pos(d, it)
    {
      StopHere(d, it);
      NextPos(d, it);
      TotalNext(Flat(d), Pos(d, it));
      total := total + (At(d, it).second - At(d, it).first);
      it := Next(d, it);
      StopHere(d, it);
    }
    StopHere(d, it);
    assert Flat(d)[..|Flat(d)|] == Flat(d);
  }

  class CollectionChangeBuilder {
    const deletions: IndexSet
    const insertions: IndexSet
    const modifications: IndexSet
    var moves: seq<Move>
    /** The length of the list when the change set was empty. */
    ghost var oldSize: nat
    /** The account of the list's rows. */
    ghost var items: seq<Item>

    ghost predicate Separate()
      reads this
    {
      deletions.vec != insertions.vec && insertions.vec != modifications.vec && deletions.vec != modifications.vec
    }

    ghost predicate SetsValid()
      reads this, deletions.vec, insertions.vec, modifications.vec
    {
      deletions.Valid() && insertions.Valid() && modifications.Valid()
    }

    /** Deletions and insertions are exactly what the account says. */
    ghost predicate Stands()
      reads this, deletions.vec, insertions.vec, modifications.vec
    {
      && Separate() && SetsValid()
      && Tally(oldSize, items, deletions.Rs(), insertions.Rs())
      && Inserted(items, insertions.Rs())
      && Sources(items, deletions.Rs())
    }

    /** So are the moves. */
    ghost predicate Reports()
      reads this, deletions.vec, insertions.vec, modifications.vec
    {
      Stands() && MovesAre(items, moves)
    }

    /** So they are as sets, whatever counts are cached for the deletions. */
    ghost predicate Members()
      reads this, deletions.vec, insertions.vec, modifications.vec
    {
      && Separate() && insertions.Valid() && modifications.Valid() && Separated(deletions.Rs())
      && Tally(oldSize, items, deletions.Rs(), insertions.Rs())
      && Inserted(items, insertions.Rs())
      && Sources(items, deletions.Rs())
      && MovesAre(items, moves)
    }

    /** So are the modifications. */
    ghost predicate Valid()
      reads this, deletions.vec, insertions.vec, modifications.vec
    {
      Reports() && Modified(items, modifications.Rs())
    }

    constructor (ghost size: nat)
      ensures Valid() && fresh(deletions.vec) && fresh(insertions.vec) && fresh(modifications.vec)
      ensures deletions.Rs() == [] && insertions.Rs() == [] && modifications.Rs() == [] && moves == []
      ensures oldSize == size && items == OldItems(size)
    {
      deletions := new IndexSet();
      insertions := new IndexSet();
      modifications := new IndexSet();
      moves := [];
      oldSize := size;
      items := OldItems(size);
      new;
      NothingChanged(size);
    }

    method Modify(index: nat)
      requires Valid() && index < |items|
      modifies this, modifications.vec
      ensures Valid() && oldSize == old(oldSize)
      ensures items == old(items)[index := old(items)[index].(dirty := true)]
    {
      hide Tally, Sources, MovesAre, Inserted, Modified, AddSpec;
      modifications.Add(index);
      MarkedDirty(oldSize, items, deletions.Rs(), insertions.Rs(), moves, index);
      MarkedModified(items, old(modifications.Rs()), index, modifications.Rs());
      items := items[index := items[index].(dirty := true)];
    }

    method Insert(index: nat, count: nat)
      requires Valid() && index <= |items| && count > 0
      modifies this, insertions.vec, modifications.vec
      ensures Valid() && oldSize == old(oldSize)
      ensures items == Changes.Insert(old(items), index, NewItems(count))
    {
      hide Tally, Sources, MovesAre, Inserted, Modified, InsertSpec, PartSpec, Separated, ChunksOk, Changes.Insert;
      GapsKeepOrder(insertions.Rs());
      modifications.ShiftForInsertAt(index, count);
      insertions.InsertAt(index, count);
      GapsKeepOrder(insertions.Rs());
      PartModified(items, old(modifications.Rs()), index, NewItems(count), modifications.Rs());
      InsertInserted(items, old(insertions.Rs()), index, NewItems(count), insertions.Rs());
      InsertTally(oldSize, items, deletions.Rs(), old(insertions.Rs()), index, NewItems(count), insertions.Rs());
      InsertSources(items, deletions.Rs(), index, NewItems(count));
      InsertedMoves(items, moves, index, count);
      ShiftMoves(index, count);
      items := Changes.Insert(items, index, NewItems(count));
    }

    /** The loop of `insert`: moves to the inserted place or later end up further on. */
    method ShiftMoves(index: nat, count: nat)
      modifies this`moves
      ensures moves == InsertMoves(old(moves), index, count)
    {
      var i := 0;
      while i < |moves|
        invariant i <= |moves| == |old(moves)|
        invariant moves[..i] == InsertMoves(old(moves), index, count)[..i] && moves[i..] == old(moves)[i..]
      {
        assert moves[i] == moves[i..][0] == old(moves)[i];
        if moves[i].to >= index {
          moves := moves[i := Move(moves[i].from, moves[i].to + count)];
        }
        i := i + 1;
      }
    }

    method Erase(index: nat)
      requires Valid() && index < |items|
      modifies this, deletions.vec, insertions.vec, modifications.vec
      ensures Valid() && oldSize == old(oldSize)
      ensures items == Changes.Erase(old(items), index)
    {
      hide Tally, Sources, MovesAre, Modified, Inserted, EraseSpec, Separated, ChunksOk, Changes.Erase;
      modifications.EraseAt(index);
      EraseModified(items, old(modifications.Rs()), index, modifications.Rs());
      EraseFromSets(index);
      ErasedMoves(items, moves, index);
      DropMoves(index);
      items := Changes.Erase(items, index);
    }

    /** An inserted row goes without a trace, another one leaves a deletion at its origin. */
    method EraseFromSets(index: nat)
      requires Stands() && index < |items|
      modifies deletions.vec, insertions.vec
      ensures SetsValid() && Tally(oldSize, Changes.Erase(items, index), deletions.Rs(), insertions.Rs())
      ensures Inserted(Changes.Erase(items, index), insertions.Rs()) && Sources(Changes.Erase(items, index), deletions.Rs())
    {
      hide Tally, Sources, Inserted, Placed, EraseSpec, AddSpec, Separated, ChunksOk, Changes.Erase, IsShifted;
      GapsKeepOrder(insertions.Rs());
      GapsKeepOrder(deletions.Rs());
      var unshifted := insertions.EraseOrUnshift(index);
      GapsKeepOrder(insertions.Rs());
      EraseInserted(items, old(insertions.Rs()), index, insertions.Rs());
      EraseSources(items, deletions.Rs(), index);
      PlacedIsIn(items, old(insertions.Rs()), index);
      if unshifted.Some? {
        var shifted := deletions.AddShifted(unshifted.value);
        GapsKeepOrder(deletions.Rs());
        OriginFound(oldSize, items, old(deletions.Rs()), old(insertions.Rs()), index, shifted);
        EraseStayed(oldSize, items, old(deletions.Rs()), old(insertions.Rs()), index, deletions.Rs(), insertions.Rs());
        MoreSources(Changes.Erase(items, index), old(deletions.Rs()), deletions.Rs(), shifted);
      } else {
        ErasePlaced(oldSize, items, deletions.Rs(), old(insertions.Rs()), index, insertions.Rs());
      }
    }

    /** The loop of `erase`: forgets the move to the erased row and follows the others. */
    method DropMoves(index: nat)
      modifies this`moves
      ensures moves == EraseMoves(old(moves), index)
    {
      hide Dropped;
      var i := 0;
      ghost var seen, rest := [], moves;
      DropStart(moves, index);
      while i < |moves|
        invariant Dropped(old(moves), seen, rest, index, i, moves)
        decreases |rest|
      {
        DropStep(old(moves), seen, rest, index, i, moves);
        if moves[i].to == index {
          moves := moves[..i] + moves[i + 1..];
          i := i - 1;
        } else if moves[i].to > index {
          moves := moves[i := Move(moves[i].from, moves[i].to - 1)];
        }
        i := i + 1;
        seen, rest := seen + [rest[0]], rest[1..];
      }
      DropEnd(old(moves), seen, rest, index, i, moves);
    }

    method MoveTo(from: nat, to: nat)
      requires Valid() && from < |items| && to < |items| && from != to
      modifies this, deletions.vec, insertions.vec, modifications.vec
      ensures Valid() && oldSize == old(oldSize)
      ensures items == Changes.Insert(Changes.Erase(old(items), from), to,
                                      [old(items)[from].(moved := old(items)[from].origin.Some?)])
    {
      hide Tally, Inserted, Sources, MovesAre, Modified, Separated, ChunksOk, Changes.Insert, Changes.Erase;
      ghost var next := Moved(items, from, to);
      AtStart(MoveMoves(moves, from, to));
      SourceFacts(items, deletions.Rs(), from);
      MovedMoves(items, moves, from, to);
      MoveModifications(from, to);
      var updated := FollowMove(from, to);
      if updated {
        MovedSourcesKept(items, deletions.Rs(), from, to);
      } else {
        TakeAway(from, to);
      }
      MovedOnMeans(oldSize, items, deletions.Rs(), insertions.Rs(), from, to);
      items := next;
    }

    /** The last part of `move`: the mark of a modified row goes with it. */
    method MoveModifications(from: nat, to: nat)
      requires Separate() && SetsValid() && from < |items| && to < |items| && Modified(items, modifications.Rs())
      modifies modifications.vec
      ensures SetsValid()
      ensures Modified(Changes.Insert(Changes.Erase(items, from), to, [items[from].(moved := items[from].origin.Some?)]),
                       modifications.Rs())
    {
      hide EraseSpec, InsertSpec, PartSpec, Separated, ChunksOk, Changes.Insert, Changes.Erase;
      ghost var x := items[from].(moved := items[from].origin.Some?);
      var modified := modifications.Contains(from);
      modifications.EraseAt(from);
      ghost var mid := modifications.Rs();
      EraseModified(items, old(modifications.Rs()), from, mid);
      if modified {
        modifications.InsertAt(to, 1);
        InsertModified(Changes.Erase(items, from), mid, to, [x], modifications.Rs());
      } else {
        modifications.ShiftForInsertAt(to, 1);
        PartModified(Changes.Erase(items, from), mid, to, [x], modifications.Rs());
      }
    }

    /** The loop of `move`: every listed move follows its row; if the moved row has a
        move already, that one is redirected and the insertion goes with it. */
    method FollowMove(from: nat, to: nat) returns (updated: bool)
      requires Separate() && SetsValid() && from < |items| && to < |items| && from != to
      requires Tally(oldSize, items, deletions.Rs(), insertions.Rs()) && Inserted(items, insertions.Rs())
      requires MovesAre(items, moves)
      modifies this`moves, insertions.vec
      ensures SetsValid() && moves == MoveMoves(old(moves), from, to)
      ensures updated <==> items[from].moved && items[from].origin.Some?
      ensures !updated ==> insertions.Rs() == old(insertions.Rs())
      ensures updated ==> MovedOn(oldSize, items, deletions.Rs(), insertions.Rs(), from, to)
    {
      hide Tally, Inserted, Separated, ChunksOk, MovedOn, EraseSpec, InsertSpec, In;
      updated := false;
      ghost var hit := 0;
      var i := 0;
      while i < |moves|
        invariant i <= |moves| == |old(moves)| && SetsValid()
        invariant forall k :: 0 <= k < i ==> moves[k] == MoveMove(old(moves)[k], from, to)
        invariant forall k :: i <= k < |moves| ==> moves[k] == old(moves)[k]
        invariant updated ==> items[from].moved && items[from].origin.Some?
        invariant updated ==> hit < i && old(moves)[hit].to == from
        invariant !updated ==> forall k :: 0 <= k < i ==> old(moves)[k].to != from
        invariant !updated ==> insertions.Rs() == old(insertions.Rs())
        invariant updated ==> MovedOn(oldSize, items, deletions.Rs(), insertions.Rs(), from, to)
      {
        if moves[i].to != from {
          if to <= moves[i].to < from {
            moves := moves[i := Move(moves[i].from, moves[i].to + 1)];
          } else if from < moves[i].to <= to {
            moves := moves[i := Move(moves[i].from, moves[i].to - 1)];
          }
        } else {
          assert !updated;
          hit := i;
          assert old(moves)[i] in old(moves) && Moves(items, old(moves)[i]);
          moves := moves[i := Move(moves[i].from, to)];
          updated := true;
          RedirectInsertion(from, to);
        }
        i := i + 1;
      }
      if items[from].moved && items[from].origin.Some? {
        assert Moves(items, Move(items[from].origin.value, from));
        ghost var k :| 0 <= k < |old(moves)| && old(moves)[k] == Move(items[from].origin.value, from);
      }
    }

    /** `insertions.erase_at(from); insertions.insert_at(to)`. */
    method RedirectInsertion(from: nat, to: nat)
      requires Separate() && SetsValid() && from < |items| && to < |items|
      requires Tally(oldSize, items, deletions.Rs(), insertions.Rs()) && Inserted(items, insertions.Rs())
      requires Placed(items[from])
      modifies insertions.vec
      ensures SetsValid() && MovedOn(oldSize, items, deletions.Rs(), insertions.Rs(), from, to)
    {
      hide Tally, Inserted, Separated, ChunksOk, MovedOn, EraseSpec, InsertSpec, In, Placed;
      GapsKeepOrder(insertions.Rs());
      insertions.EraseAt(from);
      ghost var mid := insertions.Rs();
      GapsKeepOrder(mid);
      insertions.InsertAt(to, 1);
      GapsKeepOrder(insertions.Rs());
      RelocatePlaced(oldSize, items, deletions.Rs(), old(insertions.Rs()), mid, insertions.Rs(), from, to);
    }

    /** The other branch of `move`: an insertion at the new place and, unless the row
        was itself new, a deletion at its origin and a move. */
    method TakeAway(from: nat, to: nat)
      requires Separate() && SetsValid() && from < |items| && to < |items| && from != to
      requires Tally(oldSize, items, deletions.Rs(), insertions.Rs()) && Inserted(items, insertions.Rs())
      requires Sources(items, deletions.Rs()) && !items[from].moved
      modifies this`moves, deletions.vec, insertions.vec
      ensures SetsValid() && MovedOn(oldSize, items, deletions.Rs(), insertions.Rs(), from, to)
      ensures Sources(Moved(items, from, to), deletions.Rs())
      ensures moves == old(moves) + if Placed(items[from]) then [] else [Move(items[from].origin.value, to)]
    {
      hide Tally, Sources, Separated, ChunksOk, MovedOn, Moved, EraseSpec, InsertSpec, AddSpec, IsShifted;
      GapsKeepOrder(insertions.Rs());
      GapsKeepOrder(deletions.Rs());
      var unshifted := insertions.EraseOrUnshift(from);
      ghost var mid := insertions.Rs();
      GapsKeepOrder(mid);
      insertions.InsertAt(to, 1);
      GapsKeepOrder(insertions.Rs());
      if unshifted.Some? {
        var shifted := deletions.AddShifted(unshifted.value);
        GapsKeepOrder(deletions.Rs());
        OriginFound(oldSize, items, old(deletions.Rs()), old(insertions.Rs()), from, shifted);
        RelocateStayed(oldSize, items, old(deletions.Rs()), deletions.Rs(), old(insertions.Rs()), mid, insertions.Rs(),
                       from, to);
        moves := moves + [Move(shifted, to)];
      } else {
        RelocatePlaced(oldSize, items, deletions.Rs(), old(insertions.Rs()), mid, insertions.Rs(), from, to);
        MovedSourcesKept(items, deletions.Rs(), from, to);
      }
    }

    /** `size + deletions.count() - insertions.count()`. */
    method OldLength(size: nat) returns (n: nat)
      requires Stands() && size == |items|
      ensures n == oldSize
    {
      hide Tally, Inserted, Sources, Separated, ChunksOk, Total;
      GapsKeepOrder(insertions.Rs());
      GapsKeepOrder(deletions.Rs());
      OldSize(oldSize, items, deletions.Rs(), insertions.Rs());
      var deleted := Length(deletions.vec.data);
      var inserted := Length(insertions.vec.data);
      n := size + deleted - inserted;
    }

    /** Starts over with every old row deleted; the old length is found by counting. */
    method Clear(size: nat)
      requires Valid() && size == |items|
      modifies this, deletions.vec, insertions.vec, modifications.vec
      ensures Valid() && oldSize == old(oldSize) && items == []
    {
      hide Tally, Sources, MovesAre, Modified, Inserted, Separated, ChunksOk, Flat;
      AllDeleted(oldSize);
      var n := OldLength(size);
      modifications.Clear();
      insertions.Clear();
      moves := [];
      deletions.SetTo(n);
      items := [];
    }

    /** Drops the moves that amount to nothing, with their deletions and insertions.
        One pass is enough: none is left. Without moves nothing is counted. */
    method CleanUpStaleMoves()
      requires Members() && (deletions.Valid() || moves == [])
      modifies this`items, this`moves, deletions.vec, insertions.vec
      ensures Members() && Settled(old(items), items)
      ensures old(deletions.Valid()) ==> Reports()
      ensures Modified(old(items), modifications.Rs()) ==> Modified(items, modifications.Rs())
      ensures Tidy()
    {
      hide Tally, Sources, MovesAre, Modified, Inserted, Separated, ChunksOk, RemoveSpec, Stale, Settled, Unmoved, Moves;
      SettledSame(items);
      var kept: seq<Move> := [];
      var i := 0;
      AtStart(moves);
      assert moves[0..] == moves;
      while i < |moves|
        invariant i <= |moves| && moves == old(moves) && Separate() && insertions.Valid() && modifications.Valid()
        invariant Separated(deletions.Rs()) && (moves != [] || old(deletions.Valid()) ==> deletions.Valid())
        invariant Tally(oldSize, items, deletions.Rs(), insertions.Rs()) && Inserted(items, insertions.Rs())
        invariant Sources(items, deletions.Rs())
        invariant MovesAre(items, kept + moves[i..]) && Settled(old(items), items)
        invariant NoneStale(kept, deletions.Rs(), insertions.Rs())
      {
        var move := moves[i];
        assert kept + moves[i..] == kept + [move] + moves[i + 1..];
        var deleted := Count(deletions.vec.data, 0, move.from);
        var inserted := Count(insertions.vec.data, 0, move.to);
        StaleTest(deletions.vec.data, insertions.vec.data, move, deleted, inserted);
        if move.from - deleted != move.to - inserted {
          KeepMove(kept, move, deletions.Rs(), insertions.Rs());
          kept := kept + [move];
        } else {
          Forget(move, kept, moves[i + 1..]);
        }
        i := i + 1;
      }
      assert moves[i..] == [];
      AtStart(kept);
      NoneStaleMeans(kept, deletions.Rs(), insertions.Rs());
      SettledModified(old(items), items, modifications.Rs());
      moves := kept;
    }

    /** `deletions.remove(move.from); insertions.remove(move.to)`. */
    method Forget(move: Move, ghost kept: seq<Move>, ghost rest: seq<Move>)
      requires Separate() && SetsValid()
      requires Tally(oldSize, items, deletions.Rs(), insertions.Rs()) && Inserted(items, insertions.Rs())
      requires Sources(items, deletions.Rs())
      requires MovesAre(items, kept + [move] + rest) && NoneStale(kept, deletions.Rs(), insertions.Rs())
      requires Stale(move, deletions.Rs(), insertions.Rs())
      modifies this`items, deletions.vec, insertions.vec
      ensures SetsValid()
      ensures Tally(oldSize, items, deletions.Rs(), insertions.Rs()) && Inserted(items, insertions.Rs())
      ensures Sources(items, deletions.Rs())
      ensures MovesAre(items, kept + rest) && NoneStale(kept, deletions.Rs(), insertions.Rs())
      ensures forall was :: Settled(was, old(items)) ==> Settled(was, items)
    {
      hide Tally, Sources, MovesAre, Inserted, Separated, ChunksOk, RemoveSpec, Stale, Settled, Unmoved, Moves;
      GapsKeepOrder(insertions.Rs());
      GapsKeepOrder(deletions.Rs());
      ForgetMove(items, kept, move, rest);
      deletions.Remove(move.from, 1);
      insertions.Remove(move.to, 1);
      GapsKeepOrder(insertions.Rs());
      GapsKeepOrder(deletions.Rs());
      ForgetInserted(items, move, old(insertions.Rs()), insertions.Rs());
      ForgetSources(items, move, old(deletions.Rs()), deletions.Rs());
      ForgetTally(oldSize, items, move, old(deletions.Rs()), old(insertions.Rs()), deletions.Rs(), insertions.Rs());
      MovePlaces(items, move, old(insertions.Rs()));
      NoneStaleKept(kept, move, old(deletions.Rs()), old(insertions.Rs()), deletions.Rs(), insertions.Rs());
      SettledNext(items, move.to);
      items := Unmoved(items, move.to);
    }

    // ---------- merging ----------

    ghost predicate Unshared(c: CollectionChangeBuilder)
      reads this, c
    {
      this != c && {deletions.vec, insertions.vec, modifications.vec} !! {c.deletions.vec, c.insertions.vec, c.modifications.vec}
    }

    ghost predicate Blank()
      reads this, deletions.vec, insertions.vec, modifications.vec
    {
      deletions.Rs() == [] && insertions.Rs() == [] && modifications.Rs() == [] && moves == []
    }

    /** No move listed comes to nothing. */
    ghost predicate Tidy()
      reads this, deletions.vec, insertions.vec
    {
      forall m :: m in moves ==> !Stale(m, deletions.Rs(), insertions.Rs())
    }

    method Empty() returns (b: bool)
      requires SetsValid()
      ensures b <==> Blank()
    {
      hide Separated, Flat;
      EmptyFlat(deletions.vec.data);
      EmptyFlat(insertions.vec.data);
      EmptyFlat(modifications.vec.data);
      b := deletions.vec.data == [] && insertions.vec.data == [] && modifications.vec.data == [] && moves == [];
    }

    /** Both change sets, and how they fit together. */
    ghost predicate Fits(c: CollectionChangeBuilder)
      reads this, deletions.vec, insertions.vec, modifications.vec
      reads c, c.deletions.vec, c.insertions.vec, c.modifications.vec
    {
      && Unshared(c) && Stands() && c.Stands() && c.oldSize == |items|
      && OriginsDistinct(items) && OriginsDistinct(c.items) && Joins(items, c.items)
    }

    /** First step: old moves follow their rows; a row that was moved again takes the
        second move over, and its modification mark goes along. */
    method FollowMoves(c: CollectionChangeBuilder)
      requires Fits(c) && MovesAre(items, moves) && MovesAre(c.items, c.moves)
      modifies this`moves, c`moves, c.modifications.vec
      ensures SetsValid() && c.SetsValid()
      ensures Carried(c.items, old(moves), moves) && Unclaimed(old(c.moves), old(moves), c.moves)
      ensures MarksMoved(c.items, modifications.Rs(), old(c.modifications.Rs()), Tos(old(moves)), c.modifications.Rs())
    {
      hide Tally, Inserted, Sources, Modified, Separated, ChunksOk, Carried, Unclaimed, MarksMoved, Tos, OriginsDistinct, AddSpec;
      hide MovesAre, IsShifted, Lies, Joins, Flat;
      EmptyFlat(c.deletions.vec.data);
      EmptyFlat(c.insertions.vec.data);
      if c.moves == [] && c.deletions.vec.data == [] && c.insertions.vec.data == [] {
        InPlace(c.oldSize, items, c.items, c.deletions.Rs(), c.insertions.Rs(), moves, modifications.Rs(), c.modifications.Rs());
        return;
      }
      FollowEach(c);
    }

    method FollowEach(c: CollectionChangeBuilder)
      requires Fits(c) && MovesAre(items, moves) && MovesAre(c.items, c.moves)
      modifies this`moves, c`moves, c.modifications.vec
      ensures SetsValid() && c.SetsValid()
      ensures Carried(c.items, old(moves), moves) && Unclaimed(old(c.moves), old(moves), c.moves)
      ensures MarksMoved(c.items, modifications.Rs(), old(c.modifications.Rs()), Tos(old(moves)), c.modifications.Rs())
    {
      hide Tally, Inserted, Sources, Modified, Separated, ChunksOk, Carried, Unclaimed, MarksMoved, Tos, OriginsDistinct, AddSpec;
      hide MovesAre, IsShifted, Lies, Joins;
      ghost var b, mods, mods2, moves2 := c.items, modifications.Rs(), c.modifications.Rs(), c.moves;
      MovesDistinct(b, moves2);
      MovesDistinct(items, moves);
      FollowStart(b, mods, mods2, moves2);
      GapsKeepOrder(c.insertions.Rs());
      GapsKeepOrder(c.deletions.Rs());
      var kept: seq<Move> := [];
      var i := 0;
      while i < |moves|
        invariant i <= |moves| && moves == old(moves) && SetsValid() && c.SetsValid()
        invariant Carried(b, moves[..i], kept) && Unclaimed(moves2, moves[..i], c.moves)
        invariant MarksMoved(b, mods, mods2, Tos(moves[..i]), c.modifications.Rs())
      {
        var w := moves[i];
        ghost var seen := moves[..i];
        SeenNext(items, moves, i);
        TosNext(seen, w);
        var k := FindMove(c.moves, w.to);
        if k < |c.moves| {
          FollowMoved(items, b, seen, w, kept, moves2, c.moves, k);
          c.TakeMark(modifications, c.moves[k], mods2, Tos(seen));
          kept := kept + [Move(w.from, c.moves[k].to)];
          c.moves := c.moves[k := c.moves[|c.moves| - 1]][..|c.moves| - 1];
        } else {
          FollowOther(b, seen, w, moves2, c.moves);
          MarkNone(b, mods, mods2, Tos(seen), c.modifications.Rs(), w.to);
          var to := NewPlace(c, w.to);
          if to.None? {
            FollowGone(b, seen, w, kept);
          } else {
            CarriedNext(b, seen, w, kept, to.value);
            kept := kept + [Move(w.from, to.value)];
          }
        }
        i := i + 1;
      }
      assert moves[..i] == moves;
      moves := kept;
    }

    /** Where a row that was not moved again is now: gone if it was deleted, or else at
        `c.insertions.shift(c.deletions.unshift(old.to))`. */
    method NewPlace(c: CollectionChangeBuilder, o: nat) returns (to: Option<nat>)
      requires c.Stands() && o < c.oldSize && forall j: nat :: Lies(c.items, o, j) ==> !c.items[j].moved
      ensures to.None? ==> forall j: nat :: !Lies(c.items, o, j)
      ensures to.Some? ==> Lies(c.items, o, to.value)
    {
      hide Separated, ChunksOk, IsShifted, Lies, Tally, Inserted, Sources;
      GapsKeepOrder(c.deletions.Rs());
      GapsKeepOrder(c.insertions.Rs());
      StayedLies(c.oldSize, c.items, c.deletions.Rs(), c.insertions.Rs(), o);
      var gone := c.deletions.Contains(o);
      if gone {
        return None;
      }
      var r := Unshift(c.deletions.vec.data, o);
      RankPositive(c.deletions.Rs(), o);
      var s := c.insertions.Shift(r);
      to := Some(s);
    }

    /** `if (col.contains(it->from)) other.add(it->to)`, on the second change set. */
    method TakeMark(first: IndexSet, m: Move, ghost mods2: seq<Range>, ghost some: set<nat>)
      requires first.Valid() && SetsValid() && Separate() && first.vec != modifications.vec
      requires OriginsDistinct(items) && Moves(items, m)
      requires MarksMoved(items, first.Rs(), mods2, some, modifications.Rs())
      modifies modifications.vec
      ensures SetsValid() && MarksMoved(items, first.Rs(), mods2, some + {m.from}, modifications.Rs())
    {
      hide Separated, ChunksOk, MarksMoved, OriginsDistinct, Moves, AddSpec;
      var marked := first.Contains(m.from);
      ghost var now := modifications.Rs();
      if marked {
        modifications.Add(m.to);
      }
      MarkNext(items, first.Rs(), mods2, some, now, modifications.Rs(), m);
    }

    /** Second step: moves of rows inserted before are ignored. */
    method DropInserted(first: IndexSet)
      requires first.Valid() && DistinctTos(moves)
      modifies this`moves
      ensures NotInserted(old(moves), first.Rs(), moves)
    {
      hide Separated, ChunksOk, In, Flat;
      EmptyFlat(first.vec.data);
      if first.vec.data == [] || moves == [] {
        NoneInserted(moves, first.Rs());
        return;
      }
      var kept: seq<Move> := [];
      var i := 0;
      while i < |moves|
        invariant i <= |moves| && moves == old(moves) && NotInserted(moves[..i], first.Rs(), kept)
      {
        var inserted := first.Contains(moves[i].from);
        DropNext(moves, i, first.Rs(), kept);
        if !inserted {
          kept := kept + [moves[i]];
        }
        i := i + 1;
      }
      assert moves[..i] == moves;
      moves := kept;
    }

    /** Third step: the marks of rows modified before go with the remaining moves. */
    method MarkMoves(first: IndexSet, ghost mods2: seq<Range>, ghost some: set<nat>)
      requires first.Valid() && SetsValid() && Separate() && first.vec != modifications.vec
      requires OriginsDistinct(items) && forall m :: m in moves ==> Moves(items, m)
      requires MarksMoved(items, first.Rs(), mods2, some, modifications.Rs())
      modifies modifications.vec
      ensures SetsValid() && MarksMoved(items, first.Rs(), mods2, some + Froms(moves), modifications.Rs())
    {
      hide Separated, ChunksOk, MarksMoved, OriginsDistinct, Moves, Froms, Flat;
      EmptyFlat(first.vec.data);
      FromsNone();
      assert some + {} == some;
      if first.vec.data == [] || moves == [] {
        NoMarks(items, first.Rs(), mods2, some, some + Froms(moves), modifications.Rs());
        return;
      }
      var i := 0;
      while i < |moves|
        invariant i <= |moves| && SetsValid()
        invariant MarksMoved(items, first.Rs(), mods2, some + Froms(moves[..i]), modifications.Rs())
      {
        assert moves[i] in moves;
        TakeMark(first, moves[i], mods2, some + Froms(moves[..i]));
        TosNext(moves[..i], moves[i]);
        assert moves[..i + 1] == moves[..i] + [moves[i]];
        assert some + Froms(moves[..i]) + {moves[i].from} == some + Froms(moves[..i + 1]);
        i := i + 1;
      }
      assert moves[..i] == moves;
    }

    /** Fourth step: the remaining moves start from where their rows were in the
        beginning. */
    method TraceBack(c: CollectionChangeBuilder)
      requires Fits(c) && DistinctTos(c.moves)
      requires forall m :: m in c.moves ==> m.from < |items| && !Placed(items[m.from])
      modifies c`moves
      ensures Traced(items, old(c.moves), c.moves)
    {
      hide Tally, Inserted, Sources, MovesAre, Modified, Separated, ChunksOk, OriginsDistinct, IsShifted, Placed, Joins, Flat;
      EmptyFlat(deletions.vec.data);
      EmptyFlat(insertions.vec.data);
      if deletions.vec.data == [] && insertions.vec.data == [] {
        AllInPlace(oldSize, items, deletions.Rs(), insertions.Rs());
        TracedInPlace(items, c.moves);
        return;
      }
      GapsKeepOrder(insertions.Rs());
      GapsKeepOrder(deletions.Rs());
      var i := 0;
      while i < |c.moves|
        invariant i <= |c.moves| == |old(c.moves)|
        invariant c.moves[i..] == old(c.moves)[i..]
        invariant forall k :: 0 <= k < i ==> TracedOne(items, old(c.moves)[k], c.moves[k])
      {
        var m := c.moves[i];
        assert m == c.moves[i..][0] == old(c.moves)[i];
        assert m in old(c.moves);
        PlacedIsIn(items, insertions.Rs(), m.from);
        var r := Unshift(insertions.vec.data, m.from);
        RankPositive(insertions.Rs(), m.from);
        var from := deletions.Shift(r);
        OriginFound(oldSize, items, deletions.Rs(), insertions.Rs(), m.from, from);
        c.moves := c.moves[i := Move(from, m.to)];
        i := i + 1;
      }
      TracedEach(items, old(c.moves), c.moves);
    }

    /** All four steps; what they leave in `moves` is what the composed account says. */
    method MergeMoves(c: CollectionChangeBuilder) returns (ghost some: set<nat>)
      requires Fits(c) && MovesAre(items, moves) && MovesAre(c.items, c.moves)
      modifies this`moves, c`moves, c.modifications.vec
      ensures SetsValid() && c.SetsValid()
      ensures MovesAre(Composed(items, c.items), moves)
      ensures MarksMoved(c.items, modifications.Rs(), old(c.modifications.Rs()), some, c.modifications.Rs())
      ensures Followed(items, c.items, some)
    {
      hide Tally, Inserted, Sources, Modified, MovesAre, Separated, ChunksOk, Carried, Unclaimed, MarksMoved, Tos, Froms;
      hide OriginsDistinct, Joins, NotInserted, Traced, Followed, Moves;
      ghost var a, b, mods2, moves1, moves2 := items, c.items, c.modifications.Rs(), moves, c.moves;
      MovesDistinct(b, moves2);
      FollowMoves(c);
      ghost var unclaimed := c.moves;
      UnclaimedDistinct(moves2, moves1, unclaimed);
      c.DropInserted(insertions);
      ghost var dropped := c.moves;
      DroppedFacts(a, b, moves1, moves2, insertions.Rs(), unclaimed, dropped, deletions.Rs());
      c.MarkMoves(modifications, mods2, Tos(moves1));
      TraceBack(c);
      TracedAll(a, b, moves1, moves2, insertions.Rs(), unclaimed, dropped, c.moves);
      MergedMoves(a, b, moves1, moves2, moves, unclaimed, c.moves);
      moves := moves + c.moves;
      some := Tos(moves1) + Froms(dropped);
    }

    /** The index sets of deletions and insertions. The members are always right, the
        cached counts exactly under the condition given. */
    method MergeSets(c: CollectionChangeBuilder)
      requires Fits(c)
      modifies deletions.vec, insertions.vec
      ensures insertions.Valid() && modifications.Valid() && Separated(deletions.Rs())
      ensures deletions.Valid() <==> CountsKept(old(deletions.Rs()), old(insertions.Rs()), c.deletions.Rs())
      ensures Tally(oldSize, Composed(items, c.items), deletions.Rs(), insertions.Rs())
      ensures Inserted(Composed(items, c.items), insertions.Rs()) && Sources(Composed(items, c.items), deletions.Rs())
    {
      hide Tally, Inserted, Sources, Separated, ChunksOk, OriginsDistinct, Joins, AddedShifted, ErasedAll, OpenedAll, CountsKept;
      hide Composed, LongOpener, AllOrdered;
      ghost var del, ins, del2, ins2 := deletions.Rs(), insertions.Rs(), c.deletions.Rs(), c.insertions.Rs();
      AddShiftedBy(deletions, insertions, c.deletions);
      CountsKeptExactly(del, ins, del2, deletions.Rs());
      EraseAll(insertions, c.deletions);
      ghost var kept := insertions.Rs();
      InsertAll(insertions, c.insertions);
      SevenSeparated(del, ins, del2, ins2, kept, deletions.Rs(), insertions.Rs());
      MergedTally(oldSize, items, c.items, del, ins, del2, ins2, kept, deletions.Rs(), insertions.Rs());
      MergedInserted(items, c.items, ins, del2, ins2, kept, insertions.Rs());
      ComposedSources(oldSize, items, c.items, del, ins, del2, deletions.Rs());
    }

    /** The modifications go where their rows went. */
    method MergeModifications(c: CollectionChangeBuilder, ghost a: seq<Item>, ghost b: seq<Item>, ghost some: set<nat>,
                              ghost mods2: seq<Range>)
      requires Unshared(c) && Separate() && modifications.Valid() && c.Separate() && c.SetsValid()
      requires Modified(a, modifications.Rs()) && Modified(b, mods2) && Joins(a, b) && Followed(a, b, some)
      requires Tally(|a|, b, c.deletions.Rs(), c.insertions.Rs()) && Inserted(b, c.insertions.Rs())
      requires Sources(b, c.deletions.Rs())
      requires MarksMoved(b, modifications.Rs(), mods2, some, c.modifications.Rs())
      modifies modifications.vec
      ensures modifications.Valid() && Modified(Composed(a, b), modifications.Rs())
    {
      hide Tally, Inserted, Sources, Modified, Separated, ChunksOk, Joins, ErasedAll, OpenedAll, MarksMoved, Followed, Composed, Both;
      ghost var mods := modifications.Rs();
      EraseAll(modifications, c.deletions);
      ghost var kept := modifications.Rs();
      PartAll(modifications, c.insertions);
      ghost var spread := modifications.Rs();
      AddAll(modifications, c.modifications);
      MergedModified(a, b, c.deletions.Rs(), c.insertions.Rs(), mods, mods2, some, c.modifications.Rs(), kept, spread,
                     modifications.Rs());
    }

    /** `*this = std::move(c)`. */
    method TakeOver(c: CollectionChangeBuilder)
      requires Unshared(c) && Separate() && c.Separate() && c.Valid() && c.oldSize == oldSize
      modifies this, deletions.vec, insertions.vec, modifications.vec
      modifies c`moves, c.deletions.vec, c.insertions.vec, c.modifications.vec
      ensures Valid() && oldSize == old(oldSize) && items == old(c.items) && (old(c.Tidy()) ==> Tidy())
      ensures c.deletions.Rs() == [] && c.insertions.Rs() == [] && c.modifications.Rs() == [] && c.moves == []
    {
      hide Tally, Inserted, Sources, Modified, MovesAre, Separated, ChunksOk, Flat;
      deletions.vec.data := c.deletions.vec.data;
      insertions.vec.data := c.insertions.vec.data;
      modifications.vec.data := c.modifications.vec.data;
      moves := c.moves;
      items := c.items;
      c.Reset();
    }

    /** `c = {}`. */
    method Reset()
      requires Separate()
      modifies this`moves, deletions.vec, insertions.vec, modifications.vec
      ensures SetsValid() && deletions.Rs() == [] && insertions.Rs() == [] && modifications.Rs() == [] && moves == []
    {
      deletions.Clear();
      insertions.Clear();
      modifications.Clear();
      moves := [];
    }

    /** `merge`: the changes of `c`, made after these, become part of them. The members of
        all sets are right, and so are the cached counts if the sets keep them, which can be
        read off before the call (`MergeCounts.CountsKeptIff`). Only if there are moves are
        counts relied on, to drop those that come to nothing. */
    method Merge(c: CollectionChangeBuilder)
      requires Unshared(c) && Valid() && c.Valid() && c.oldSize == |items|
      requires CountsKept(deletions.Rs(), insertions.Rs(), c.deletions.Rs()) || (moves == [] && c.moves == [])
      modifies this, deletions.vec, insertions.vec, modifications.vec
      modifies c`moves, c.deletions.vec, c.insertions.vec, c.modifications.vec
      ensures Members() && Modified(items, modifications.Rs())
      ensures old(CountsKept(deletions.Rs(), insertions.Rs(), c.deletions.Rs())) ==> Valid()
      ensures oldSize == old(oldSize) && Joins(old(items), old(c.items))
      ensures Settled(Composed(old(items), old(c.items)), items)
      ensures old(!Blank() && !c.Blank()) || old(Tidy() && c.Tidy()) ==> Tidy()
      ensures c.deletions.Rs() == [] && c.insertions.Rs() == [] && c.modifications.Rs() == [] && c.moves == []
    {
      hide Tally, Inserted, Sources, Modified, MovesAre, Separated, ChunksOk, MarksMoved, OriginsDistinct, Joins, Followed;
      hide Settled, CountsKept, Composed;
      ghost var a, b := items, c.items;
      BothDistinct(oldSize, a, b, deletions.Rs(), insertions.Rs(), c.deletions.Rs(), c.insertions.Rs());
      SettledSame(Composed(a, b));
      var otherEmpty := c.Empty();
      if otherEmpty {
        NothingAfter(a, b, deletions.Rs(), c.deletions.Rs(), c.insertions.Rs(), c.modifications.Rs());
        return;
      }
      var empty := Empty();
      if empty {
        NothingBefore(oldSize, a, b, deletions.Rs(), insertions.Rs(), modifications.Rs(), c.deletions.Rs());
        TakeOver(c);
        return;
      }
      MergeBoth(c);
    }

    /** Neither change set is empty. */
    method MergeBoth(c: CollectionChangeBuilder)
      requires Fits(c) && Valid() && c.Valid()
      requires CountsKept(deletions.Rs(), insertions.Rs(), c.deletions.Rs()) || (moves == [] && c.moves == [])
      modifies this, deletions.vec, insertions.vec, modifications.vec
      modifies c`moves, c.deletions.vec, c.insertions.vec, c.modifications.vec
      ensures Members() && Modified(items, modifications.Rs()) && oldSize == old(oldSize)
      ensures deletions.Valid() <== old(CountsKept(deletions.Rs(), insertions.Rs(), c.deletions.Rs()))
      ensures Tidy()
      ensures Settled(Composed(old(items), old(c.items)), items)
      ensures c.deletions.Rs() == [] && c.insertions.Rs() == [] && c.modifications.Rs() == [] && c.moves == []
    {
      hide Tally, Inserted, Sources, Modified, MovesAre, Separated, ChunksOk, MarksMoved, OriginsDistinct, Joins, Followed;
      hide Settled, CountsKept, Composed, Stale;
      ghost var a, b, mods2 := items, c.items, c.modifications.Rs();
      NoMovesComposed(a, b, moves, c.moves);
      ghost var some := MergeMoves(c);
      NoMovesListed(Composed(a, b), moves);
      MergeSets(c);
      items := Composed(a, b);
      CleanUpStaleMoves();
      MergeModifications(c, a, b, some, mods2);
      SettledModified(Composed(a, b), items, modifications.Rs());
      c.Reset();
    }

    // ---------- finishing ----------

    /** `finalize`: modifications by old index, of rows that stayed; and rows reported
        inserted are not reported modified as well. */
    method Finalize() returns (inOld: IndexSet)
      requires Stands() && Modified(items, modifications.Rs())
      modifies modifications.vec
      ensures fresh(inOld) && fresh(inOld.vec) && inOld.Valid() && modifications.Valid()
      ensures ModifiedInOld(items, inOld.Rs())
      ensures forall x {:trigger In(modifications.Rs(), x)} ::
                In(modifications.Rs(), x) <==> 0 <= x < |items| && items[x].dirty && !Placed(items[x])
    {
      hide Tally, Inserted, Sources, Modified, Separated, ChunksOk, ErasedAll, OpenedAll, Without, ModifiedInOld, In, Placed;
      inOld := new IndexSet();
      inOld.vec.data := modifications.vec.data;
      EraseAll(inOld, insertions);
      ghost var kept := inOld.Rs();
      PartAll(inOld, deletions);
      FinalInOld(oldSize, items, deletions.Rs(), insertions.Rs(), modifications.Rs(), kept, inOld.Rs());
      RemoveAll(modifications, insertions);
      FinalInNew(items, insertions.Rs(), old(modifications.Rs()), modifications.Rs());
    }
  }

  ghost predicate NoneMoved(items: seq<Item>) {
    forall j :: 0 <= j < |items| ==> !items[j].moved || items[j].origin.None?
  }

  lemma {:induction false} NoMovesComposed(a: seq<Item>, b: seq<Item>, moves: seq<Move>, moves2: seq<Move>)
    requires MovesAre(a, moves) && MovesAre(b, moves2) && Joins(a, b)
    ensures moves == [] && moves2 == [] ==> NoneMoved(Composed(a, b))
  {
    if moves == [] && moves2 == [] {
      forall j | 0 <= j < |a| && a[j].origin.Some? ensures !a[j].moved {
        assert Move(a[j].origin.value, j) !in moves;
      }
      forall j | 0 <= j < |b| && b[j].origin.Some? ensures !b[j].moved {
        assert Move(b[j].origin.value, j) !in moves2;
      }
    }
  }

  lemma {:induction false} NoMovesListed(items: seq<Item>, moves: seq<Move>)
    requires MovesAre(items, moves)
    ensures NoneMoved(items) ==> moves == []
  {
    if moves != [] {
      assert moves[0] in moves && Moves(items, moves[0]);
    }
  }

  /** `find_if` over the moves by their source. */
  method FindMove(moves: seq<Move>, from: nat) returns (k: nat)
    ensures k <= |moves| && (forall l :: 0 <= l < k ==> moves[l].from != from)
    ensures k < |moves| ==> moves[k].from == from
  {
    k := 0;
    while k < |moves| && moves[k].from != from
      invariant k <= |moves| && forall l :: 0 <= l < k ==> moves[l].from != from
    {
      k := k + 1;
    }
  }

  // ---------- steps of the proofs ----------

  lemma {:induction false} MarkedDirty(n: nat, items: seq<Item>, del: seq<Range>, ins: seq<Range>, moves: seq<Move>, index: nat)
    requires index < |items| && Tally(n, items, del, ins) && Inserted(items, ins)
    requires Sources(items, del) && MovesAre(items, moves)
    ensures var next := items[index := items[index].(dirty := true)];
      Tally(n, next, del, ins) && Inserted(next, ins) && Sources(next, del) && MovesAre(next, moves)
  {
  }

  lemma {:induction false} MarkedModified(items: seq<Item>, mods: seq<Range>, index: nat, mods': seq<Range>)
    requires index < |items| && Modified(items, mods) && AddSpec(mods, mods', index)
    ensures Modified(items[index := items[index].(dirty := true)], mods')
  {
  }

  lemma {:induction false} PlacedIsIn(items: seq<Item>, ins: seq<Range>, index: nat)
    requires Inserted(items, ins) && index < |items|
    ensures In(ins, index) <==> Placed(items[index])
  {
  }

  /** How far the loop of `erase` has come: `seen` is dealt with, `rest` is not. */
  ghost predicate Dropped(was: seq<Move>, seen: seq<Move>, rest: seq<Move>, index: nat, i: int, now: seq<Move>) {
    was == seen + rest && i == |EraseMoves(seen, index)| && now == EraseMoves(seen, index) + rest
  }

  lemma {:induction false} AtStart<T>(s: seq<T>)
    ensures [] + s == s && s + [] == s
  {
  }

  lemma {:induction false} DropStart(moves: seq<Move>, index: nat)
    ensures Dropped(moves, [], moves, index, 0, moves)
  {
  }

  lemma {:induction false} DropStep(was: seq<Move>, seen: seq<Move>, rest: seq<Move>, index: nat, i: int, now: seq<Move>)
    requires Dropped(was, seen, rest, index, i, now) && i < |now|
    ensures 0 <= i && rest != []
    ensures var m, seen', rest' := now[i], seen + [rest[0]], rest[1..];
      if m.to == index then Dropped(was, seen', rest', index, i, now[..i] + now[i + 1..])
      else if m.to > index then Dropped(was, seen', rest', index, i + 1, now[i := Move(m.from, m.to - 1)])
      else Dropped(was, seen', rest', index, i + 1, now)
  {
  }

  lemma {:induction false} DropEnd(was: seq<Move>, seen: seq<Move>, rest: seq<Move>, index: nat, i: int, now: seq<Move>)
    requires Dropped(was, seen, rest, index, i, now) && |now| <= i
    ensures now == EraseMoves(was, index)
  {
    AtStart(seen);
    AtStart(now);
  }

  // ---------- moving a row ----------

  ghost function Moved(items: seq<Item>, from: nat, to: nat): seq<Item>
    requires from < |items| && to < |items|
  {
    Changes.Insert(Changes.Erase(items, from), to, [items[from].(moved := items[from].origin.Some?)])
  }

  ghost predicate MovedOn(n: nat, items: seq<Item>, del: seq<Range>, ins: seq<Range>, from: nat, to: nat)
    requires from < |items| && to < |items|
  {
    Tally(n, Moved(items, from, to), del, ins) && Inserted(Moved(items, from, to), ins)
  }

  lemma {:induction false} MovedOnMeans(n: nat, items: seq<Item>, del: seq<Range>, ins: seq<Range>, from: nat, to: nat)
    requires from < |items| && to < |items| && MovedOn(n, items, del, ins, from, to)
    ensures Tally(n, Moved(items, from, to), del, ins) && Inserted(Moved(items, from, to), ins)
  {
  }

  lemma {:induction false} SourceFacts(items: seq<Item>, del: seq<Range>, index: nat)
    requires Sources(items, del) && index < |items|
    ensures items[index].moved ==> items[index].origin.Some? && In(del, items[index].origin.value)
  {
  }

  lemma {:induction false} RelocatePlaced(n: nat, items: seq<Item>, del: seq<Range>, ins: seq<Range>, mid: seq<Range>,
                                          ins': seq<Range>, from: nat, to: nat)
    requires from < |items| && to < |items| && Placed(items[from])
    requires Ordered(ins) && Ordered(mid) && Ordered(ins')
    requires Tally(n, items, del, ins) && Inserted(items, ins)
    requires EraseSpec(ins, mid, from) && InsertSpec(mid, ins', to, 1)
    ensures MovedOn(n, items, del, ins', from, to)
  {
    hide Tally, Inserted, EraseSpec, InsertSpec, Changes.Insert, Changes.Erase;
    var x := items[from].(moved := items[from].origin.Some?);
    var rest := Changes.Erase(items, from);
    EraseInserted(items, ins, from, mid);
    ErasePlaced(n, items, del, ins, from, mid);
    InsertInserted(rest, mid, to, [x], ins');
    InsertTally(n, rest, del, mid, to, [x], ins');
  }

  lemma {:induction false} RelocateStayed(n: nat, items: seq<Item>, del: seq<Range>, del': seq<Range>, ins: seq<Range>,
                                          mid: seq<Range>, ins': seq<Range>, from: nat, to: nat)
    requires from < |items| && to < |items| && !Placed(items[from])
    requires Ordered(ins) && Ordered(mid) && Ordered(ins') && Ordered(del) && Ordered(del')
    requires Tally(n, items, del, ins) && Inserted(items, ins) && Sources(items, del)
    requires EraseSpec(ins, mid, from) && InsertSpec(mid, ins', to, 1)
    requires AddSpec(del, del', items[from].origin.value)
    ensures MovedOn(n, items, del', ins', from, to) && Sources(Moved(items, from, to), del')
  {
    hide Tally, Inserted, EraseSpec, InsertSpec, AddSpec, Sources, Changes.Insert, Changes.Erase;
    var x := items[from].(moved := items[from].origin.Some?);
    var rest := Changes.Erase(items, from);
    EraseInserted(items, ins, from, mid);
    EraseStayed(n, items, del, ins, from, del', mid);
    InsertInserted(rest, mid, to, [x], ins');
    InsertTally(n, rest, del', mid, to, [x], ins');
    NotDeletedYet(n, items, del, ins, from);
    EraseSources(items, del, from);
    NewSource(items, del, del', from);
    MoreSources(rest, del, del', items[from].origin.value);
    InsertSource(rest, del', to, x);
  }

  lemma {:induction false} NotDeletedYet(n: nat, items: seq<Item>, del: seq<Range>, ins: seq<Range>, index: nat)
    requires index < |items| && !Placed(items[index]) && Tally(n, items, del, ins)
    ensures !In(del, items[index].origin.value)
  {
  }

  lemma {:induction false} NewSource(items: seq<Item>, del: seq<Range>, del': seq<Range>, from: nat)
    requires from < |items| && !Placed(items[from]) && Sources(items, del)
    requires !In(del, items[from].origin.value) && AddSpec(del, del', items[from].origin.value)
    ensures In(del', items[from].origin.value)
    ensures var rest := Changes.Erase(items, from);
      forall j :: 0 <= j < |rest| && rest[j].moved ==> rest[j].origin != items[from].origin
  {
  }

  lemma {:induction false} MovedSourcesKept(items: seq<Item>, del: seq<Range>, from: nat, to: nat)
    requires from < |items| && to < |items| && Placed(items[from]) && Sources(items, del)
    ensures Sources(Moved(items, from, to), del)
  {
    hide Sources;
    var x := items[from].(moved := items[from].origin.Some?);
    var rest := Changes.Erase(items, from);
    EraseSources(items, del, from);
    SourceFacts(items, del, from);
    if x.moved {
      OneSource(items, del, from);
    }
    InsertSource(rest, del, to, x);
  }

  lemma {:induction false} OneSource(items: seq<Item>, del: seq<Range>, from: nat)
    requires from < |items| && Sources(items, del) && items[from].moved
    ensures var rest := Changes.Erase(items, from);
      forall j :: 0 <= j < |rest| && rest[j].moved ==> rest[j].origin != items[from].origin
  {
  }

  // ---------- dropping stale moves ----------

  ghost predicate NoneStale(moves: seq<Move>, del: seq<Range>, ins: seq<Range>) {
    forall k :: 0 <= k < |moves| ==> !Stale(moves[k], del, ins)
  }

  lemma {:induction false} NoneStaleMeans(moves: seq<Move>, del: seq<Range>, ins: seq<Range>)
    requires NoneStale(moves, del, ins)
    ensures forall m :: m in moves ==> !Stale(m, del, ins)
  {
  }

  lemma {:induction false} KeepMove(kept: seq<Move>, m: Move, del: seq<Range>, ins: seq<Range>)
    requires NoneStale(kept, del, ins) && !Stale(m, del, ins)
    ensures NoneStale(kept + [m], del, ins)
  {
  }

  lemma {:induction false} NoneStaleKept(kept: seq<Move>, m: Move, del: seq<Range>, ins: seq<Range>,
                                         del': seq<Range>, ins': seq<Range>)
    requires Ordered(del) && Ordered(ins) && Ordered(del') && Ordered(ins')
    requires In(del, m.from) && In(ins, m.to) && Stale(m, del, ins) && NoneStale(kept, del, ins)
    requires RemoveSpec(del, del', m.from, 1) && RemoveSpec(ins, ins', m.to, 1)
    ensures NoneStale(kept, del', ins')
  {
    hide RemoveSpec, Stale;
    forall k | 0 <= k < |kept| ensures !Stale(kept[k], del', ins') {
      StillNotStale(m, kept[k], del, ins, del', ins');
    }
  }

  lemma {:induction false} MovePlaces(items: seq<Item>, m: Move, ins: seq<Range>)
    requires Moves(items, m) && Inserted(items, ins)
    ensures In(ins, m.to)
  {
  }

  lemma {:induction false} SettledModified(was: seq<Item>, now: seq<Item>, mods: seq<Range>)
    requires Settled(was, now)
    ensures Modified(was, mods) ==> Modified(now, mods)
  {
  }

  lemma {:induction false} SettledSame(items: seq<Item>)
    ensures Settled(items, items)
  {
  }

  lemma {:induction false} SettledNext(items: seq<Item>, j: nat)
    requires j < |items|
    ensures forall was :: Settled(was, items) ==> Settled(was, Unmoved(items, j))
  {
  }

  lemma {:induction false} StaleTest(d: seq<Chunk>, e: seq<Chunk>, m: Move, deleted: int, inserted: int)
    requires ChunksOk(d) && Separated(Flat(d)) && ChunksOk(e) && Separated(Flat(e))
    requires deleted == Between(Flat(d), 0, m.from) - Overlooked(d, 0, m.from)
    requires inserted == Between(Flat(e), 0, m.to) - Overlooked(e, 0, m.to)
    ensures Stale(m, Flat(d), Flat(e)) <==> m.from - deleted == m.to - inserted
  {
    CountRightIff(d, 0, m.from);
    CountRightIff(e, 0, m.to);
    CountNone(Flat(d), 0);
    CountNone(Flat(e), 0);
  }

  // ---------- whole histories ----------

  method Record<T>(b: CollectionChangeBuilder, c: Change<T>, size: nat)
    requires b.Valid() && size == |b.items| && Allowed(size, c)
    modifies b, b.deletions.vec, b.insertions.vec, b.modifications.vec
    ensures b.Valid() && b.oldSize == old(b.oldSize) && b.items == Items(old(b.items), c)
  {
    match c
    case InsertRows(index, xs) => b.Insert(index, |xs|);
    case EraseRow(index) => b.Erase(index);
    case MoveRow(from, to) => b.MoveTo(from, to);
    case ModifyRow(index) => b.Modify(index);
    case ClearRows => b.Clear(size);
  }

  /** Moves are between equal rows, from a deletion to an insertion, one per place. */
  ghost predicate MovesSound<T>(old_: seq<T>, rows: seq<T>, del: seq<Range>, ins: seq<Range>, moves: seq<Move>) {
    && (forall m :: m in moves ==>
          m.from < |old_| && m.to < |rows| && old_[m.from] == rows[m.to] && In(del, m.from) && In(ins, m.to))
    && (forall k, l :: 0 <= k < l < |moves| ==> moves[k].from != moves[l].from && moves[k].to != moves[l].to)
  }

  /** The change set leads from the old rows to the new ones: without deletions and
      insertions both are the same, putting the insertions in gives the new rows, and
      moves are sound. */
  ghost predicate Leads<T>(old_: seq<T>, rows: seq<T>, del: seq<Range>, ins: seq<Range>, moves: seq<Move>) {
    && Survivors(old_, del) == Survivors(rows, ins)
    && Refilled(Survivors(old_, del), rows, ins, |rows|) == rows
    && MovesSound(old_, rows, del, ins, moves)
  }

  lemma {:induction false} AccountLeads<T>(old_: seq<T>, rows: seq<T>, items: seq<Item>, del: seq<Range>, ins: seq<Range>,
                                           moves: seq<Move>)
    requires Separated(del) && Separated(ins) && Tracks(old_, rows, items)
    requires Tally(|old_|, items, del, ins) && Inserted(items, ins) && Sources(items, del) && MovesAre(items, moves)
    ensures Leads(old_, rows, del, ins, moves)
  {
    hide Tally, Inserted, Sources, MovesAre, Tracks, Survivors, Refilled;
    GapsKeepOrder(del);
    GapsKeepOrder(ins);
    SameRemainder(old_, rows, items, del, ins);
    AppliedGivesNew(old_, rows, del, ins);
    MovesAreSound(old_, rows, items, del, ins, moves);
  }

  lemma {:induction false} MovesAreSound<T>(old_: seq<T>, rows: seq<T>, items: seq<Item>, del: seq<Range>, ins: seq<Range>,
                                            moves: seq<Move>)
    requires Tracks(old_, rows, items) && Inserted(items, ins) && Sources(items, del) && MovesAre(items, moves)
    ensures MovesSound(old_, rows, del, ins, moves)
  {
  }

  lemma {:induction false} SettledTracks<T>(old_: seq<T>, rows: seq<T>, was: seq<Item>, now: seq<Item>)
    requires Tracks(old_, rows, was) && Settled(was, now)
    ensures Tracks(old_, rows, now)
  {
  }

  /** Any history of a list, recorded and cleaned up, gives a change set that leads
      from the old rows to the new ones: deletions out, insertions in. */
  method RecordAll<T>(rows: seq<T>, cs: seq<Change<T>>) returns (b: CollectionChangeBuilder, ghost now: seq<T>)
    requires AllowedRun(OldItems(|rows|), cs)
    ensures b.Valid() && now == RunRows(rows, OldItems(|rows|), cs)
    ensures Leads(rows, now, b.deletions.Rs(), b.insertions.Rs(), b.moves)
    ensures b.Tidy()
    ensures Settled(RunItems(OldItems(|rows|), cs), b.items) && Tells(|rows|, cs, b.items)
  {
    hide AllowedRun, RunRows, RunItems, Tracks, Rows, Items, Leads, Settled, Stale, Tells;
    hide Tally, Inserted, Modified, Sources, MovesAre, Separated, ChunksOk;
    b := new CollectionChangeBuilder(|rows|);
    now := rows;
    var size := |rows|;
    OldTracks(rows);
    var i := 0;
    assert cs[0..] == cs;
    while i < |cs|
      invariant i <= |cs| && b.Valid() && fresh(b) && b.oldSize == |rows| && size == |b.items| == |now|
      invariant fresh(b.deletions.vec) && fresh(b.insertions.vec) && fresh(b.modifications.vec)
      invariant Tracks(rows, now, b.items) && AllowedRun(b.items, cs[i..])
      invariant RunItems(b.items, cs[i..]) == RunItems(OldItems(|rows|), cs)
      invariant RunRows(now, b.items, cs[i..]) == RunRows(rows, OldItems(|rows|), cs)
    {
      ghost var items := b.items;
      RunStep(now, items, cs[i..]);
      StepTracks(rows, now, items, cs[i]);
      Record(b, cs[i], size);
      size := match cs[i]
        case InsertRows(_, xs) => size + |xs|
        case EraseRow(_) => size - 1
        case ClearRows => 0
        case _ => size;
      now := Rows(now, cs[i]);
      assert cs[i..][1..] == cs[i + 1..];
      i := i + 1;
    }
    assert cs[i..] == [];
    RunNone(now, b.items);
    ghost var items := b.items;
    b.CleanUpStaleMoves();
    SettledTracks(rows, now, items, b.items);
    SettledTells(|rows|, cs, b.items);
    AccountLeads(rows, now, b.items, b.deletions.Rs(), b.insertions.Rs(), b.moves);
  }

  /** Merging the change set of a second history leads from the rows before both to the
      rows after both. */
  method MergeRows<T>(b: CollectionChangeBuilder, c: CollectionChangeBuilder, ghost old_: seq<T>, ghost mid: seq<T>,
                      ghost rows: seq<T>)
    requires b.Unshared(c) && b.Valid() && c.Valid() && b.oldSize == |old_| && c.oldSize == |mid|
    requires Tracks(old_, mid, b.items) && Tracks(mid, rows, c.items)
    requires CountsKept(b.deletions.Rs(), b.insertions.Rs(), c.deletions.Rs()) || (b.moves == [] && c.moves == [])
    modifies b, b.deletions.vec, b.insertions.vec, b.modifications.vec
    modifies c`moves, c.deletions.vec, c.insertions.vec, c.modifications.vec
    ensures b.Members() && Modified(b.items, b.modifications.Rs()) && b.oldSize == |old_| && Tracks(old_, rows, b.items)
    ensures old(CountsKept(b.deletions.Rs(), b.insertions.Rs(), c.deletions.Rs())) ==> b.Valid()
    ensures Leads(old_, rows, b.deletions.Rs(), b.insertions.Rs(), b.moves)
    ensures old(!b.Blank() && !c.Blank()) || old(b.Tidy() && c.Tidy()) ==> b.Tidy()
  {
    hide Leads, Settled, Tally, Inserted, Modified, Sources, MovesAre, Separated, ChunksOk, Composed, CountsKept;
    ComposedTracks(old_, mid, rows, b.items, c.items);
    ghost var both := Composed(b.items, c.items);
    b.Merge(c);
    SettledTracks(old_, rows, both, b.items);
    AccountLeads(old_, rows, b.items, b.deletions.Rs(), b.insertions.Rs(), b.moves);
  }

  // ---------- changes that undo each other ----------

  /** Every row is where it was, and unmarked. */
  ghost predicate Back(n: nat, items: seq<Item>) {
    |items| == n && forall j :: 0 <= j < n ==> items[j].origin == Some(j) && !items[j].dirty
  }

  /** Then moves come to nothing, and without those nothing is left to report. */
  lemma {:induction false} NothingLeft(n: nat, items: seq<Item>, del: seq<Range>, ins: seq<Range>, mods: seq<Range>, moves: seq<Move>)
    requires Separated(del) && Separated(ins) && Separated(mods) && Back(n, items)
    requires Tally(n, items, del, ins) && Inserted(items, ins) && Sources(items, del) && MovesAre(items, moves)
    requires Modified(items, mods) && forall m :: m in moves ==> !Stale(m, del, ins)
    ensures del == [] && ins == [] && mods == [] && moves == []
  {
    hide In, Rank, Stale;
    GapsKeepOrder(del);
    GapsKeepOrder(ins);
    forall x {:trigger In(del, x)} ensures In(del, x) <==> In(ins, x) {
      if x >= 0 {
        DeletionsExact(n, items, del, ins, x);
        assert x < n ==> items[x].origin == Some(x);
      }
    }
    forall x: nat ensures Rank(del, x) == Rank(ins, x) {
      SameRanks(del, ins, x);
    }
    StaleAtHome(n, items, del, ins, moves);
    forall j: nat | j < n ensures !items[j].moved {
      assert Move(j, j) !in moves;
    }
    NoMembers(del);
    NoMembers(ins);
    NoMembers(mods);
  }

  lemma {:induction false} StaleAtHome(n: nat, items: seq<Item>, del: seq<Range>, ins: seq<Range>, moves: seq<Move>)
    requires Back(n, items) && MovesAre(items, moves) && forall x: nat :: Rank(del, x) == Rank(ins, x)
    ensures moves != [] ==> exists m :: m in moves && Stale(m, del, ins)
  {
    hide Rank;
    if moves != [] {
      assert moves[0] in moves && Moves(items, moves[0]);
    }
  }

  lemma {:induction false} SameRanks(del: seq<Range>, ins: seq<Range>, x: nat)
    requires Ordered(del) && Ordered(ins) && forall y {:trigger In(del, y)} :: 0 <= y < x ==> (In(del, y) <==> In(ins, y))
    ensures Rank(del, x) == Rank(ins, x)
    decreases x
  {
    if x == 0 {
      RankZero(del);
      RankZero(ins);
    } else {
      SameRanks(del, ins, x - 1);
      CountStep(del, x - 1);
      CountStep(ins, x - 1);
    }
  }

  lemma {:induction false} NoMembers(rs: seq<Range>)
    requires Separated(rs) && forall x {:trigger In(rs, x)} :: !In(rs, x)
    ensures rs == []
  {
    if rs != [] {
      IndexIn(rs, rs[0].first, 0);
    }
  }

  /** Merging two change sets of which the second takes every row back leaves nothing. */
  method MergeUndone(b: CollectionChangeBuilder, c: CollectionChangeBuilder)
    requires b.Unshared(c) && b.Valid() && c.Valid() && c.oldSize == |b.items| && !b.Blank() && !c.Blank()
    requires CountsKept(b.deletions.Rs(), b.insertions.Rs(), c.deletions.Rs()) && Joins(b.items, c.items)
    requires Back(b.oldSize, Composed(b.items, c.items))
    modifies b, b.deletions.vec, b.insertions.vec, b.modifications.vec
    modifies c`moves, c.deletions.vec, c.insertions.vec, c.modifications.vec
    ensures b.Valid() && b.Blank() && c.Blank()
  {
    hide Settled, Tally, Inserted, Modified, Sources, MovesAre, Separated, ChunksOk, Composed, CountsKept, Back, Stale;
    ghost var both := Composed(b.items, c.items);
    b.Merge(c);
    StillBack(b.oldSize, both, b.items);
    NothingLeft(b.oldSize, b.items, b.deletions.Rs(), b.insertions.Rs(), b.modifications.Rs(), b.moves);
  }

  lemma {:induction false} StillBack(n: nat, was: seq<Item>, now: seq<Item>)
    requires Back(n, was) && Settled(was, now)
    ensures Back(n, now)
  {
  }

  /** A row moved, and moved back in a second change set. */
  method MoveAndBack(n: nat, from: nat, to: nat) returns (b: CollectionChangeBuilder)
    requires from < n && to < n && from != to
    ensures b.Valid() && b.Blank()
  {
    hide Settled, Tally, Inserted, Modified, Sources, MovesAre, Separated, ChunksOk, CountsKept, Stale, Joins, Insert, Erase;
    hide Back, Composed;
    b := new CollectionChangeBuilder(n);
    b.MoveTo(from, to);
    var c := new CollectionChangeBuilder(n);
    c.MoveTo(to, from);
    MovedOnly(n, b.items, b.deletions.Rs(), b.insertions.Rs(), b.moves, from, to);
    MovedOnly(n, c.items, c.deletions.Rs(), c.insertions.Rs(), c.moves, to, from);
    ApartKeepsCounts(b.deletions.Rs(), b.insertions.Rs(), c.deletions.Rs());
    ComesBack(n, b.items, c.items, from, to);
    MergeUndone(b, c);
  }

  /** One move of one row: its place is the only deletion. */
  lemma {:induction false} MovedOnly(n: nat, items: seq<Item>, del: seq<Range>, ins: seq<Range>, moves: seq<Move>, from: nat, to: nat)
    requires from < n && to < n && from != to && Separated(del) && Separated(ins)
    requires items == Insert(Erase(OldItems(n), from), to, [Item(Some(from), true, false)])
    requires Tally(n, items, del, ins) && Inserted(items, ins) && MovesAre(items, moves)
    ensures moves != [] && |items| == n && forall i :: 0 <= i < |del| ==> del[i].second - del[i].first == 1
  {
    hide In;
    GapsKeepOrder(del);
    GapsKeepOrder(ins);
    assert Moves(items, Move(from, to));
    forall x: nat {:trigger In(del, x)} | x < n && x != from ensures !In(del, x) {
      DeletionsExact(n, items, del, ins, x);
      SourceBack(from, to, x);
      AfterOneMove(n, from, to, SourceOf(to, from, x));
    }
    forall x {:trigger In(del, x)} | In(del, x) ensures x == from {
    }
    forall i | 0 <= i < |del| ensures del[i].second - del[i].first == 1 {
      IndexIn(del, del[i].first, i);
      IndexIn(del, del[i].second - 1, i);
    }
  }

  /** Which row is at a place after one move. */
  function SourceOf(from: nat, to: nat, j: nat): nat {
    if j == to then from
    else if j < to then (if j < from then j else j + 1)
    else if j - 1 < from then j - 1 else j
  }

  lemma {:induction false} AfterOneMove(n: nat, from: nat, to: nat, j: nat)
    requires from < n && to < n && from != to && j < n
    ensures var items := Insert(Erase(OldItems(n), from), to, [Item(Some(from), true, false)]);
      |items| == n && SourceOf(from, to, j) < n && items[j] == Item(Some(SourceOf(from, to, j)), j == to, false)
  {
  }

  lemma {:induction false} ComesBack(n: nat, a: seq<Item>, b: seq<Item>, from: nat, to: nat)
    requires from < n && to < n && from != to
    requires a == Insert(Erase(OldItems(n), from), to, [Item(Some(from), true, false)])
    requires b == Insert(Erase(OldItems(n), to), from, [Item(Some(to), true, false)])
    ensures Joins(a, b) && Back(n, Composed(a, b))
  {
    hide Insert, Erase, SourceOf, Composed;
    AfterOneMove(n, from, to, 0);
    AfterOneMove(n, to, from, 0);
    forall j | 0 <= j < n ensures b[j].origin.Some? && b[j].origin.value < n {
      AfterOneMove(n, to, from, j);
    }
    forall j | 0 <= j < n ensures Composed(a, b)[j].origin == Some(j) && !Composed(a, b)[j].dirty {
      AfterOneMove(n, to, from, j);
      SourceBack(from, to, j);
      AfterOneMove(n, from, to, SourceOf(to, from, j));
    }
  }

  lemma {:induction false} SourceBack(from: nat, to: nat, j: nat)
    requires from != to
    ensures SourceOf(from, to, SourceOf(to, from, j)) == j
  {
  }

  lemma {:induction false} OldTracks<T>(rows: seq<T>)
    ensures Tracks(rows, rows, OldItems(|rows|))
  {
  }

  lemma {:induction false} RunNone<T>(rows: seq<T>, items: seq<Item>)
    requires |rows| == |items|
    ensures AllowedRun<T>(items, []) && RunItems<T>(items, []) == items && RunRows(rows, items, []) == rows
  {
  }

  lemma {:induction false} RunStep<T>(rows: seq<T>, items: seq<Item>, cs: seq<Change<T>>)
    requires |rows| == |items| && AllowedRun(items, cs) && cs != []
    ensures Allowed(|items|, cs[0]) && AllowedRun(Items(items, cs[0]), cs[1..])
    ensures |Items(items, cs[0])| == |Rows(rows, cs[0])| == match cs[0]
        case InsertRows(_, xs) => |rows| + |xs|
        case EraseRow(_) => |rows| - 1
        case ClearRows => 0
        case _ => |rows|
    ensures RunItems(items, cs) == RunItems(Items(items, cs[0]), cs[1..])
    ensures RunRows(rows, items, cs) == RunRows(Rows(rows, cs[0]), Items(items, cs[0]), cs[1..])
  {
  }

  lemma {:induction false} MovesDistinct(items: seq<Item>, moves: seq<Move>)
    requires MovesAre(items, moves)
    ensures DistinctTos(moves)
  {
  }

  lemma {:induction false} SeenNext(items: seq<Item>, moves: seq<Move>, i: nat)
    requires MovesAre(items, moves) && i < |moves|
    ensures moves[..i + 1] == moves[..i] + [moves[i]] && DistinctTos(moves[..i] + [moves[i]])
    ensures moves[i].to < |items|
  {
    assert moves[i] in moves;
    assert moves[..i + 1] == moves[..i] + [moves[i]];
  }

  lemma {:induction false} DropNext(moves: seq<Move>, i: nat, ins: seq<Range>, kept: seq<Move>)
    requires i < |moves| && DistinctTos(moves) && NotInserted(moves[..i], ins, kept)
    ensures In(ins, moves[i].from) ==> NotInserted(moves[..i + 1], ins, kept)
    ensures !In(ins, moves[i].from) ==> NotInserted(moves[..i + 1], ins, kept + [moves[i]])
  {
    assert moves[..i + 1] == moves[..i] + [moves[i]];
    forall k | 0 <= k < |kept| ensures kept[k].to != moves[i].to {
      assert kept[k] in kept;
      var l :| 0 <= l < i && moves[..i][l] == kept[k];
      assert moves[l].to != moves[i].to;
    }
  }

  lemma {:induction false} FromsNone()
    ensures Froms([]) == {}
  {
  }

  ghost predicate TracedOne(a: seq<Item>, was: Move, now: Move) {
    was.from < |a| && a[was.from].origin == Some(now.from) && now.to == was.to
  }

  lemma {:induction false} TracedEach(a: seq<Item>, was: seq<Move>, now: seq<Move>)
    requires |was| == |now| && DistinctTos(was) && forall k :: 0 <= k < |now| ==> TracedOne(a, was[k], now[k])
    ensures Traced(a, was, now)
  {
  }

  lemma {:induction false} UnclaimedDistinct(moves2: seq<Move>, moves: seq<Move>, now: seq<Move>)
    requires Unclaimed(moves2, moves, now)
    ensures DistinctTos(now)
  {
  }

  lemma {:induction false} DroppedFacts(a: seq<Item>, b: seq<Item>, moves: seq<Move>, moves2: seq<Move>, ins: seq<Range>,
                                        unclaimed: seq<Move>, now: seq<Move>, del: seq<Range>)
    requires Joins(a, b) && Inserted(a, ins) && MovesAre(a, moves) && MovesAre(b, moves2) && Sources(a, del)
    requires Unclaimed(moves2, moves, unclaimed) && NotInserted(unclaimed, ins, now)
    ensures forall m :: m in now ==> m.from < |a| && !Placed(a[m.from]) && Moves(b, m)
    ensures DistinctTos(now) && Followed(a, b, Tos(moves) + Froms(now))
  {
    forall m | m in now ensures m.from < |a| && !Placed(a[m.from]) && Moves(b, m) {
      NotInsertedStayed(a, b, moves, moves2, ins, unclaimed, now, m);
    }
    FollowedAll(a, b, moves, moves2, ins, unclaimed, now);
  }

  /** Exactly the old places of modified rows that stayed. */
  ghost predicate ModifiedInOld(items: seq<Item>, mods: seq<Range>) {
    forall x {:trigger In(mods, x)} :: In(mods, x) <==>
      exists j :: 0 <= j < |items| && items[j].dirty && !Placed(items[j]) && items[j].origin.value == x
  }

  lemma {:induction false} FinalInOld(n: nat, items: seq<Item>, del: seq<Range>, ins: seq<Range>, mods: seq<Range>,
                                      kept: seq<Range>, inOld: seq<Range>)
    requires Separated(del) && Separated(ins) && Tally(n, items, del, ins) && Inserted(items, ins) && Modified(items, mods)
    requires ErasedAll(mods, ins, kept) && OpenedAll(kept, del, inOld, false)
    ensures ModifiedInOld(items, inOld)
  {
    hide In, Rank;
    GapsKeepOrder(del);
    GapsKeepOrder(ins);
    forall x {:trigger In(inOld, x)} ensures In(inOld, x) <==>
      exists j :: 0 <= j < |items| && items[j].dirty && !Placed(items[j]) && items[j].origin.value == x
    {
      if j :| 0 <= j < |items| && items[j].dirty && !Placed(items[j]) && items[j].origin.value == x {
        assert Stayed(n, items[j], j, del, ins) && !In(ins, j) && In(mods, j);
      }
      if In(inOld, x) {
        RankPositive(del, x);
        RankZero(ins);
        var j := NonMember(ins, Rank(del, x), 0);
        assert In(kept, Rank(ins, j)) && In(mods, j);
        assert Stayed(n, items[j], j, del, ins);
        ShiftedUnique(del, Rank(del, x), x, items[j].origin.value);
      }
    }
  }

  lemma {:induction false} FinalInNew(items: seq<Item>, ins: seq<Range>, was: seq<Range>, mods: seq<Range>)
    requires Inserted(items, ins) && Modified(items, was) && Without(was, ins, mods)
    ensures forall x {:trigger In(mods, x)} :: In(mods, x) <==> 0 <= x < |items| && items[x].dirty && !Placed(items[x])
  {
  }

  lemma {:induction false} InPlace(n: nat, a: seq<Item>, b: seq<Item>, del2: seq<Range>, ins2: seq<Range>, moves: seq<Move>,
                                   mods: seq<Range>, mods2: seq<Range>)
    requires Tally(n, b, del2, ins2) && Inserted(b, ins2) && Sources(b, del2) && del2 == [] && ins2 == [] && n == |a|
    requires MovesAre(a, moves)
    ensures Carried(b, moves, moves) && Unclaimed([], moves, []) && MarksMoved(b, mods, mods2, Tos(moves), mods2)
  {
    AllInPlace(n, b, del2, ins2);
    CarriedInPlace(a, b, moves);
    MarksInPlace(b, mods, mods2, Tos(moves));
  }

  lemma {:induction false} NoneInserted(moves: seq<Move>, ins: seq<Range>)
    requires DistinctTos(moves) && (ins == [] || moves == [])
    ensures NotInserted(moves, ins, moves)
  {
  }

  lemma {:induction false} NoMarks(b: seq<Item>, mods: seq<Range>, mods2: seq<Range>, some: set<nat>, more: set<nat>,
                                   now: seq<Range>)
    requires MarksMoved(b, mods, mods2, some, now) && (mods == [] || more == some)
    ensures MarksMoved(b, mods, mods2, more, now)
  {
  }

  lemma {:induction false} SevenSeparated(a: seq<Range>, b: seq<Range>, c: seq<Range>, d: seq<Range>, e: seq<Range>,
                                          f: seq<Range>, g: seq<Range>)
    requires Separated(a) && Separated(b) && Separated(c) && Separated(d) && Separated(e) && Separated(f) && Separated(g)
    ensures AllOrdered([a, b, c, d, e, f, g])
  {
  }

  lemma {:induction false} BothDistinct(n: nat, a: seq<Item>, b: seq<Item>, del: seq<Range>, ins: seq<Range>,
                                        del2: seq<Range>, ins2: seq<Range>)
    requires Separated(del) && Separated(ins) && Separated(del2) && Separated(ins2)
    requires Tally(n, a, del, ins) && Inserted(a, ins) && Sources(a, del)
    requires Tally(|a|, b, del2, ins2) && Inserted(b, ins2) && Sources(b, del2)
    ensures OriginsDistinct(a) && OriginsDistinct(b) && Joins(a, b)
  {
    GapsKeepOrder(del);
    GapsKeepOrder(ins);
    GapsKeepOrder(del2);
    GapsKeepOrder(ins2);
    OriginsAreDistinct(n, a, del, ins);
    OriginsAreDistinct(|a|, b, del2, ins2);
  }

  lemma {:induction false} NothingAfter(a: seq<Item>, b: seq<Item>, del: seq<Range>, del2: seq<Range>, ins2: seq<Range>,
                                        mods2: seq<Range>)
    requires Tally(|a|, b, del2, ins2) && Inserted(b, ins2) && Sources(b, del2) && Modified(b, mods2) && Joins(a, b)
    requires Sources(a, del) && del2 == [] && ins2 == [] && mods2 == []
    ensures Composed(a, b) == a
  {
    AllInPlace(|a|, b, del2, ins2);
  }

  lemma {:induction false} NothingBefore(n: nat, a: seq<Item>, b: seq<Item>, del: seq<Range>, ins: seq<Range>, mods: seq<Range>,
                                         del2: seq<Range>)
    requires Tally(n, a, del, ins) && Inserted(a, ins) && Sources(a, del) && Modified(a, mods) && Joins(a, b)
    requires Sources(b, del2) && del == [] && ins == [] && mods == []
    ensures Composed(a, b) == b && |a| == n
  {
    AllInPlace(n, a, del, ins);
  }
}
