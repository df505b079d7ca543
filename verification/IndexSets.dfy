/** `IndexSet`: a set of row indices kept as chunked ranges. Every operation is
    tied to its meaning for the members. */
module IndexSets {
  import opened Common
  import opened Ranges
  import opened Chunks
  import opened RangeVectors
  import opened RangeOps

  class IndexSet {
    const vec: RangeVector

    ghost predicate Valid()
      reads vec
    {
      ChunksOk(vec.data) && Separated(Flat(vec.data))
    }

    /** The flat list of ranges. */
    ghost function Rs(): seq<Range>
      reads vec
    {
      Flat(vec.data)
    }

    constructor ()
      ensures fresh(vec) && Valid() && Rs() == []
    {
      vec := new RangeVector();
    }

    method Clear()
      modifies vec
      ensures Valid() && Rs() == []
    {
      vec.Clear();
    }

    /** `set`: the set of all indices below `len`. */
    method SetTo(len: nat)
      modifies vec
      ensures Valid() && Rs() == (if len == 0 then [] else [Range(0, len)])
    {
      vec.Clear();
      if len != 0 {
        vec.PushBack(Range(0, len));
      }
    }

    method Contains(index: nat) returns (b: bool)
      requires Valid()
      ensures b <==> In(Rs(), index)
    {
      var it := vec.Find(index);
      StopHere(vec.data, it);
      AtStop(Rs(), index, Pos(vec.data, it));
      b := it != End(vec.data) && At(vec.data, it).first <= index;
    }

    /** `do_add`, with `it` where the search for the index stopped. */
    method DoAdd(it: Cursor, index: nat) returns (r: Cursor)
      requires Valid() && Ok(vec.data, it) && SearchStop(Rs(), index, Pos(vec.data, it))
      modifies vec
      ensures Valid() && AddSpec(old(Rs()), Rs(), index)
      ensures OnRange(vec.data, r) && Pos(vec.data, r) < |Rs()| && old(Pos(vec.data, it)) <= |old(Rs())|
      ensures TailKept(old(Rs()), old(Pos(vec.data, it)), Rs(), Pos(vec.data, r), index)
    {
      hide Separated, AddSpec, SearchStop, TailKept, ChunksOk, SameShape;
      ghost var rs, p := Rs(), Pos(vec.data, it);
      StopHere(vec.data, it);
      Edges(rs, index, p);
      var moreBefore, valid := it != Begin(vec.data), it != End(vec.data);
      if valid && At(vec.data, it).first <= index && At(vec.data, it).second > index {
        AddPresent(rs, p, index);
        return it;
      }
      if moreBefore {
        PrevHere(vec.data, it);
        if At(vec.data, Prev(vec.data, it)).second == index {
          r := Glue(it, Prev(vec.data, it), index);
          return;
        }
      }
      r := AddClear(it, index);
    }

    /** The range before, if any, ends below the index. */
    method AddClear(it: Cursor, index: nat) returns (r: Cursor)
      requires Valid() && Ok(vec.data, it) && StopEdges(Rs(), index, Pos(vec.data, it))
      requires Pos(vec.data, it) > 0 ==> Rs()[Pos(vec.data, it) - 1].second < index
      requires Pos(vec.data, it) < |Rs()| ==> index < Rs()[Pos(vec.data, it)].first
      modifies vec
      ensures Valid() && AddSpec(old(Rs()), Rs(), index)
      ensures OnRange(vec.data, r) && Pos(vec.data, r) < |Rs()| && old(Pos(vec.data, it)) <= |old(Rs())|
      ensures TailKept(old(Rs()), old(Pos(vec.data, it)), Rs(), Pos(vec.data, r), index)
    {
      hide Separated, AddSpec, TailKept, ChunksOk, SameShape;
      ghost var rs, p, d := Rs(), Pos(vec.data, it), vec.data;
      StopHere(d, it);
      if it != End(vec.data) && At(vec.data, it).first == index + 1 {
        AddBefore(rs, p, index);
        vec.Adjust(it, -1, 0);
        ShapePos(d, vec.data, it);
        return it;
      }
      AddAlone(rs, p, index);
      SeparatedIsOrdered(rs, p, index);
      r := vec.Insert(it, Range(index, index + 1));
    }

    /** The index extends the range before it, and may join the one after. */
    method Glue(it: Cursor, prev: Cursor, index: nat) returns (r: Cursor)
      requires Valid() && Ok(vec.data, it) && StopEdges(Rs(), index, Pos(vec.data, it))
      requires OnRange(vec.data, prev) && Pos(vec.data, prev) == Pos(vec.data, it) - 1
      requires Pos(vec.data, prev) < |Rs()| && At(vec.data, prev) == Rs()[Pos(vec.data, prev)]
      requires At(vec.data, prev).second == index
      requires Pos(vec.data, it) < |Rs()| ==> index < Rs()[Pos(vec.data, it)].first
      modifies vec
      ensures Valid() && AddSpec(old(Rs()), Rs(), index)
      ensures OnRange(vec.data, r) && Pos(vec.data, r) < |Rs()| && old(Pos(vec.data, it)) <= |old(Rs())|
      ensures TailKept(old(Rs()), old(Pos(vec.data, it)), Rs(), Pos(vec.data, r), index)
    {
      hide Separated, AddSpec, SearchStop, TailKept, ChunksOk, SameShape;
      ghost var rs, p, d := Rs(), Pos(vec.data, it), vec.data;
      StopHere(d, it);
      vec.Adjust(prev, 0, 1);
      ShapePos(d, vec.data, it);
      ShapePos(d, vec.data, prev);
      StopHere(vec.data, prev);
      StopHere(vec.data, it);
      if it != End(vec.data) && At(vec.data, prev).second == At(vec.data, it).first {
        r := JoinNext(it, prev, index, rs);
        return;
      }
      AddGrow(rs, p, index);
      return prev;
    }

    /** The grown range now touches the next one, which is merged into it. */
    method JoinNext(it: Cursor, prev: Cursor, index: nat, ghost rs: seq<Range>) returns (r: Cursor)
      requires ChunksOk(vec.data) && OnRange(vec.data, it) && OnRange(vec.data, prev)
      requires Pos(vec.data, prev) == Pos(vec.data, it) - 1
      requires Separated(rs) && 0 < Pos(vec.data, it) < |rs|
      requires rs[Pos(vec.data, it) - 1].second == index && rs[Pos(vec.data, it)].first == index + 1
      requires Rs() == rs[Pos(vec.data, prev) := Range(rs[Pos(vec.data, prev)].first, index + 1)]
      modifies vec
      ensures Valid() && AddSpec(rs, Rs(), index)
      ensures OnRange(vec.data, r) && Pos(vec.data, r) < |Rs()|
      ensures TailKept(rs, old(Pos(vec.data, it)), Rs(), Pos(vec.data, r), index)
    {
      hide Separated, AddSpec, SearchStop, TailKept, ChunksOk, SameShape;
      ghost var p, d := Pos(vec.data, it), vec.data;
      StopHere(d, it);
      StopHere(d, prev);
      AddJoin(rs, p, index);
      UpdateTwice(rs, p - 1, Range(rs[p - 1].first, index + 1), Range(rs[p - 1].first, rs[p].second));
      vec.Adjust(prev, 0, At(vec.data, it).second - At(vec.data, it).first);
      ShapePos(d, vec.data, it);
      r := vec.Erase(it);
      StopHere(vec.data, r);
      PrevHere(vec.data, r);
      r := Prev(vec.data, r);
    }

    method Add(index: nat)
      requires Valid()
      modifies vec
      ensures Valid() && AddSpec(old(Rs()), Rs(), index)
    {
      var it := vec.Find(index);
      var _ := DoAdd(it, index);
    }

    /** `for (; it != end; ++it) it.shift(distance)`. */
    method ShiftFrom(it: Cursor, distance: int)
      requires ChunksOk(vec.data) && Ok(vec.data, it) && Pos(vec.data, it) <= |Rs()|
      modifies vec
      ensures ChunksOk(vec.data) && SameShape(old(vec.data), vec.data)
      ensures old(Pos(vec.data, it)) <= |old(Rs())|
      ensures Rs() == MovedFrom(old(Rs()), old(Pos(vec.data, it)), distance)
    {
      hide ShiftPart, MovedFrom, ChunksOk, SameShape;
      ghost var rs, p, d := Rs(), Pos(vec.data, it), vec.data;
      var at := it;
      ShiftNone(rs, p, distance);
      ShapeSame(d);
      while at != End(vec.data)
        invariant ChunksOk(vec.data) && SameShape(d, vec.data) && Ok(vec.data, at)
        invariant p <= Pos(vec.data, at) <= |rs| == |Rs()|
        invariant Rs() == ShiftPart(rs, p, Pos(vec.data, at), distance)
        decreases |rs| - Pos(vec.data, at)
      {
        ghost var q, e := Pos(vec.data, at), vec.data;
        StopHere(vec.data, at);
        ShiftOne(rs, p, q, distance);
        vec.Shift(at, distance);
        ShapePos(e, vec.data, at);
        ShapeTransitive(d, e, vec.data);
        NextPos(vec.data, at);
        at := Next(vec.data, at);
        StopHere(vec.data, at);
      }
      StopHere(vec.data, at);
      ShiftDone(rs, p, distance);
    }

    /** Opens `count` new positions, all in the set, at the index. */
    method InsertAt(index: nat, count: nat)
      requires Valid() && count > 0
      modifies vec
      ensures Valid() && InsertSpec(old(Rs()), Rs(), index, count)
    {
      hide Separated, PartSpec, InsertSpec, FillSpec, MovedFrom, SearchStop, ChunksOk, SameShape;
      ghost var rs := Rs();
      GapsKeepOrder(rs);
      var pos := vec.Find(index);
      ghost var p, d := Pos(vec.data, pos), vec.data;
      StopHere(vec.data, pos);
      if pos != End(vec.data) && At(vec.data, pos).first <= index {
        InsertInside(rs, p, index, count);
        vec.Adjust(pos, 0, count);
        ShapePos(d, vec.data, pos);
        ShiftAfter(pos, count);
        return;
      }
      MakeRoom(pos, index, count);
      ghost var now := Rs();
      FillGap(pos, index, count);
      FilledIsInserted(rs, now, Rs(), index, count);
    }

    /** Outside the set: the range at `pos` and all later ones move up. */
    method MakeRoom(pos: Cursor, index: nat, count: nat)
      requires Valid() && Ok(vec.data, pos) && SearchStop(Rs(), index, Pos(vec.data, pos)) && count > 0
      requires Pos(vec.data, pos) < |Rs()| ==> index < Rs()[Pos(vec.data, pos)].first
      modifies vec
      ensures Valid() && PartSpec(old(Rs()), Rs(), index, count)
      ensures Ok(vec.data, pos) && SearchStop(Rs(), index, Pos(vec.data, pos))
      ensures Pos(vec.data, pos) < |Rs()| ==> index + count < Rs()[Pos(vec.data, pos)].first
    {
      hide Separated, PartSpec, InsertSpec, FillSpec, MovedFrom, SearchStop, ChunksOk, SameShape;
      ghost var rs, p, d := Rs(), Pos(vec.data, pos), vec.data;
      StopHere(d, pos);
      InsertOutside(rs, p, index, count);
      if pos != End(vec.data) {
        ShiftedFirst(rs, p, count);
        vec.Shift(pos, count);
        ShapePos(d, vec.data, pos);
        ShiftAfter(pos, count);
        ShapePos(d, vec.data, pos);
      } else {
        NothingToShift(rs, count);
      }
    }

    /** `for (it = next(pos); it != end; ++it) it.shift(count)`. */
    method ShiftAfter(pos: Cursor, count: int)
      requires ChunksOk(vec.data) && OnRange(vec.data, pos)
      modifies vec
      ensures ChunksOk(vec.data) && SameShape(old(vec.data), vec.data)
      ensures old(Pos(vec.data, pos)) < |old(Rs())|
      ensures Rs() == MovedFrom(old(Rs()), old(Pos(vec.data, pos)) + 1, count)
    {
      StopHere(vec.data, pos);
      NextPos(vec.data, pos);
      ShiftFrom(Next(vec.data, pos), count);
    }

    /** Adds the new positions one by one, each next to the one before. */
    method FillGap(start: Cursor, index: nat, count: nat)
      requires Valid() && Ok(vec.data, start) && SearchStop(Rs(), index, Pos(vec.data, start))
      requires Pos(vec.data, start) < |Rs()| ==> index + count < Rs()[Pos(vec.data, start)].first
      modifies vec
      ensures Valid() && FillSpec(old(Rs()), Rs(), index, count)
    {
      ghost var rs := Rs();
      var pos := start;
      var i := 0;
      while i < count
        invariant i <= count && Valid() && Ok(vec.data, pos)
        invariant SearchStop(Rs(), index + i, Pos(vec.data, pos))
        invariant Pos(vec.data, pos) < |Rs()| ==> index + count < Rs()[Pos(vec.data, pos)].first
        invariant FillSpec(rs, Rs(), index, i)
      {
        ghost var now, p := Rs(), Pos(vec.data, pos);
        StopHere(vec.data, pos);
        pos := DoAdd(pos, index + i);
        FillMore(rs, now, Rs(), index, i);
        NextStop(Rs(), Pos(vec.data, pos), now, p, index + i);
        NextPos(vec.data, pos);
        pos := Next(vec.data, pos);
        i := i + 1;
      }
    }

    /** Opens `count` new positions, none in the set, at the index. */
    method ShiftForInsertAt(index: nat, count: nat)
      requires Valid() && count > 0
      modifies vec
      ensures Valid() && PartSpec(old(Rs()), Rs(), index, count)
    {
      ghost var rs, d := Rs(), vec.data;
      var it := vec.Find(index);
      ghost var p := Pos(vec.data, it);
      StopHere(vec.data, it);
      PartMeans(rs, p, index, count);
      if it == End(vec.data) {
        NothingToShift(rs, count);
        return;
      }
      ShiftFrom(it, count);
      ShapePos(d, vec.data, it);
      StopHere(vec.data, it);
      if At(vec.data, it).first < index + count {
        SplitMoved(it, index, count, rs, p);
      }
    }

    /** The range that held the insertion point: its front goes back, its rest stays moved. */
    method SplitMoved(it: Cursor, index: nat, count: nat, ghost rs: seq<Range>, ghost p: nat)
      requires Separated(rs) && SearchStop(rs, index, p) && p < |rs| && rs[p].first < index && count > 0
      requires ChunksOk(vec.data) && OnRange(vec.data, it) && Pos(vec.data, it) == p
      requires Rs() == MovedFrom(rs, p, count)
      modifies vec
      ensures ChunksOk(vec.data) && Rs() == Parted(rs, p, index, count)
    {
      hide Separated, ChunksOk, SearchStop, MovedFrom, Parted, SameShape;
      StopFacts(rs, index, p);
      MovedAt(rs, p, count);
      ghost var d := vec.data;
      StopHere(d, it);
      FrontOrdered(rs, p, index, count);
      PartedIsSplit(rs, p, index, count);
      var oldSecond := At(vec.data, it).second;
      vec.SetRange(it, At(vec.data, it).first - count, index);
      assert Rs() == Front(rs, p, index, count);
      ShapePos(d, vec.data, it);
      NextPos(vec.data, it);
      var _ := vec.Insert(Next(vec.data, it), Range(index + count, oldSecond));
    }

    /** Takes the position at the index out, moving later ones down. */
    method EraseAt(index: nat)
      requires Valid()
      modifies vec
      ensures Valid() && EraseSpec(old(Rs()), Rs(), index)
    {
      var it := vec.Find(index);
      StopHere(vec.data, it);
      if it != End(vec.data) {
        DoErase(it, index);
      } else {
        ErasePastEnd(Rs(), index);
      }
    }

    method DoErase(it: Cursor, index: nat)
      requires Valid() && OnRange(vec.data, it) && SearchStop(Rs(), index, Pos(vec.data, it))
      modifies vec
      ensures Valid() && EraseSpec(old(Rs()), Rs(), index)
    {
      StopHere(vec.data, it);
      var at;
      if At(vec.data, it).first <= index {
        at := TakeOut(it, index);
      } else {
        at := CloseGap(it, index);
      }
      ShiftFrom(at, -1);
    }

    /** The index is in the range: drop the range or shorten it. */
    method TakeOut(it: Cursor, index: nat) returns (at: Cursor)
      requires Valid() && OnRange(vec.data, it) && SearchStop(Rs(), index, Pos(vec.data, it))
      requires At(vec.data, it).first <= index
      modifies vec
      ensures ChunksOk(vec.data) && Ok(vec.data, at) && Pos(vec.data, at) <= |Rs()|
      ensures Separated(MovedFrom(Rs(), Pos(vec.data, at), -1))
      ensures EraseSpec(old(Rs()), MovedFrom(Rs(), Pos(vec.data, at), -1), index)
    {
      hide Separated, EraseSpec, MovedFrom, SearchStop, ChunksOk, SameShape;
      ghost var rs, p, d := Rs(), Pos(vec.data, it), vec.data;
      StopHere(d, it);
      if At(vec.data, it).first + 1 == At(vec.data, it).second {
        EraseDropped(rs, p, index);
        at := vec.Erase(it);
        StopHere(vec.data, at);
      } else {
        EraseShrunk(rs, p, index);
        vec.Adjust(it, 0, -1);
        ShapePos(d, vec.data, it);
        NextPos(vec.data, it);
        at := Next(vec.data, it);
        StopHere(vec.data, at);
      }
    }

    /** The index is before the range: glue it to the one before when only that
        position lay between them. */
    method CloseGap(it: Cursor, index: nat) returns (at: Cursor)
      requires Valid() && OnRange(vec.data, it) && SearchStop(Rs(), index, Pos(vec.data, it))
      requires index < At(vec.data, it).first
      modifies vec
      ensures ChunksOk(vec.data) && Ok(vec.data, at) && Pos(vec.data, at) <= |Rs()|
      ensures Separated(MovedFrom(Rs(), Pos(vec.data, at), -1))
      ensures EraseSpec(old(Rs()), MovedFrom(Rs(), Pos(vec.data, at), -1), index)
    {
      hide Separated, EraseSpec, MovedFrom, SearchStop, ChunksOk, SameShape;
      StopHere(vec.data, it);
      if it != Begin(vec.data) {
        PrevHere(vec.data, it);
        if At(vec.data, Prev(vec.data, it)).second + 1 == At(vec.data, it).first {
          at := GlueGap(it, Prev(vec.data, it), index);
          return;
        }
      }
      EraseGap(Rs(), Pos(vec.data, it), index);
      return it;
    }

    method GlueGap(it: Cursor, prev: Cursor, index: nat) returns (at: Cursor)
      requires Valid() && OnRange(vec.data, it) && SearchStop(Rs(), index, Pos(vec.data, it))
      requires OnRange(vec.data, prev) && Pos(vec.data, prev) == Pos(vec.data, it) - 1
      requires index < At(vec.data, it).first && At(vec.data, prev).second + 1 == At(vec.data, it).first
      modifies vec
      ensures ChunksOk(vec.data) && Ok(vec.data, at) && Pos(vec.data, at) <= |Rs()|
      ensures Separated(MovedFrom(Rs(), Pos(vec.data, at), -1))
      ensures EraseSpec(old(Rs()), MovedFrom(Rs(), Pos(vec.data, at), -1), index)
    {
      hide Separated, EraseSpec, MovedFrom, SearchStop, ChunksOk, SameShape;
      ghost var d, rs, p := vec.data, Rs(), Pos(vec.data, it);
      StopHere(d, it);
      StopHere(d, prev);
      EraseGlued(rs, p, index);
      vec.Adjust(prev, 0, At(vec.data, it).second - At(vec.data, it).first);
      ShapePos(d, vec.data, it);
      ghost var joined := Rs();
      assert joined == rs[p - 1 := Range(rs[p - 1].first, rs[p - 1].second + (rs[p].second - rs[p].first))];
      at := vec.Erase(it);
      StopHere(vec.data, at);
      assert Rs() == joined[..p] + joined[p + 1..] && Pos(vec.data, at) == p;
    }

    /** Takes the indices `index..index + count` out of the set. */
    method Remove(index: nat, count: nat)
      requires Valid() && count > 0
      modifies vec
      ensures Valid() && RemoveSpec(old(Rs()), Rs(), index, count)
    {
      var it := vec.Find(index);
      var _ := DoRemove(it, index, index + count);
    }

    method DoRemove(start: Cursor, begin0: nat, end: nat) returns (it: Cursor)
      requires Valid() && Ok(vec.data, start) && begin0 < end
      requires EndBy(Rs(), Pos(vec.data, start), begin0)
      modifies vec
      ensures Valid() && RemoveSpec(old(Rs()), Rs(), begin0, end - begin0)
      ensures Ok(vec.data, it) && EndBy(Rs(), Pos(vec.data, it), end)
    {
      hide Separated, RemoveSpec, RemoveInv, RemoveKeeps, ChunksOk;
      ghost var rs := Rs();
      var begin := begin0;
      StartRemove(rs, begin0, end);
      GapsKeepOrder(rs);
      it := vec.FindFrom(begin, start);
      StopHere(vec.data, it);
      while it != End(vec.data) && At(vec.data, it).first < end
        invariant Valid() && Ok(vec.data, it) && SearchStop(Rs(), begin, Pos(vec.data, it))
        invariant Pos(vec.data, it) <= |Rs()| && (it == End(vec.data) <==> Pos(vec.data, it) == |Rs()|)
        invariant OnRange(vec.data, it) ==> Pos(vec.data, it) < |Rs()| && At(vec.data, it) == Rs()[Pos(vec.data, it)]
        invariant begin0 <= begin < end
        invariant RemoveInv(rs, Rs(), begin0, begin, end) && RemoveKeeps(rs, Rs(), begin0, end)
        decreases LeftToRemove(Rs(), Pos(vec.data, it), end)
      {
        ghost var now, p, b := Rs(), Pos(vec.data, it), begin;
        StopFacts(now, b, p);
        begin := if At(vec.data, it).first < begin then begin else At(vec.data, it).first;
        it := TrimAt(it, b, begin, end);
        RemoveRound(rs, now, Rs(), begin0, b, end, p, begin, Min(now[p].second, end));
        GapsKeepOrder(Rs());
        BeforeTrim(now, Rs(), b, p, begin, end);
        it := vec.FindFrom(begin, it);
        StopHere(vec.data, it);
        LessLeft(now, Rs(), p, Pos(vec.data, it), begin, end);
      }
      RemoveEnd(rs, Rs(), begin0, begin, end, Pos(vec.data, it));
      StopEnds(Rs(), begin, Pos(vec.data, it), end);
    }

    /** Splits, drops or shortens the range the stretch overlaps first. */
    method TrimAt(it: Cursor, ghost b: nat, begin: nat, end: nat) returns (at: Cursor)
      requires Valid() && OnRange(vec.data, it) && Pos(vec.data, it) < |Rs()|
      requires SearchStop(Rs(), b, Pos(vec.data, it)) && begin < end
      requires At(vec.data, it) == Rs()[Pos(vec.data, it)] && At(vec.data, it).first < end
      requires begin == Max(At(vec.data, it).first, b)
      modifies vec
      ensures Valid() && Ok(vec.data, at)
      ensures old(At(vec.data, it)) == old(Rs())[old(Pos(vec.data, it))]
      ensures RemoveSpec(old(Rs()), Rs(), begin, Min(old(At(vec.data, it)).second, end) - begin)
      ensures Pos(vec.data, at) == old(Pos(vec.data, it)) <= |Rs()|
      ensures Trimmed(old(Rs()), Rs(), old(Pos(vec.data, it)), begin, end)
    {
      hide Separated, RemoveSpec, ChunksOk, SearchStop, Trimmed;
      ghost var rs, p, d := Rs(), Pos(vec.data, it), vec.data;
      var r := At(vec.data, it);
      StopFacts(rs, b, p);
      if r.first < begin && r.second > end {
        at := SplitAt(it, begin, end);
      } else if begin == r.first && end >= r.second {
        DropRange(rs, p);
        TrimmedDrop(rs, p, begin, end);
        at := vec.Erase(it);
        StopHere(vec.data, at);
      } else if begin == r.first {
        CutRange(rs, p, Range(end, r.second), begin, end);
        TrimmedCut(rs, p, Range(end, r.second), begin, end);
        vec.SetRange(it, end, r.second);
        ShapePos(d, vec.data, it);
        return it;
      } else {
        CutRange(rs, p, Range(r.first, begin), begin, r.second);
        TrimmedCut(rs, p, Range(r.first, begin), begin, end);
        vec.SetRange(it, r.first, begin);
        ShapePos(d, vec.data, it);
        return it;
      }
    }

    method SplitAt(it: Cursor, begin: nat, end: nat) returns (at: Cursor)
      requires Valid() && OnRange(vec.data, it) && Pos(vec.data, it) < |Rs()|
      requires At(vec.data, it) == Rs()[Pos(vec.data, it)]
      requires At(vec.data, it).first < begin < end < At(vec.data, it).second
      modifies vec
      ensures Valid() && Ok(vec.data, at)
      ensures RemoveSpec(old(Rs()), Rs(), begin, end - begin)
      ensures Pos(vec.data, at) == old(Pos(vec.data, it)) <= |Rs()|
      ensures Trimmed(old(Rs()), Rs(), old(Pos(vec.data, it)), begin, end)
    {
      hide Separated, RemoveSpec, ChunksOk, Trimmed, SameShape;
      ghost var rs, p, d := Rs(), Pos(vec.data, it), vec.data;
      var r := At(vec.data, it);
      SplitRange(rs, p, begin, end);
      TrimmedSplit(rs, p, begin, end);
      vec.SetRange(it, r.first, begin);
      ShapePos(d, vec.data, it);
      NextPos(vec.data, it);
      StopHere(vec.data, Next(vec.data, it));
      GapsKeepOrder(Rs());
      at := vec.Insert(Next(vec.data, it), Range(end, r.second));
      StopHere(vec.data, at);
      PrevHere(vec.data, at);
      at := Prev(vec.data, at);
    }

    /** Adds an index given with all members taken out of the counting; returns the
        real one, the non-member with that many non-members below it. */
    method AddShifted(index: nat) returns (shifted: nat)
      requires Valid()
      modifies vec
      ensures Valid() && IsShifted(old(Rs()), index, shifted) && AddSpec(old(Rs()), Rs(), shifted)
    {
      var it;
      it, shifted := SkipShifted(vec.data, index);
      GapsKeepOrder(Rs());
      ShiftStop(Rs(), index, Pos(vec.data, it), shifted);
      var _ := DoAdd(it, shifted);
    }

    /** `shift`: where an index ends up when every member is inserted before it. */
    method Shift(index: nat) returns (shifted: nat)
      requires Valid()
      ensures IsShifted(Rs(), index, shifted)
    {
      GapsKeepOrder(Rs());
      BeginOk(vec.data);
      StopHere(vec.data, Begin(vec.data));
      EndByNone(Rs(), index);
      TotalNone(Rs());
      var it;
      it, shifted := SkipRanges(vec.data, Begin(vec.data), index, index);
      ShiftStop(Rs(), index, Pos(vec.data, it), shifted);
    }

    /** Takes a position out; unless it was a member, also returns its index once
        all members are gone. */
    method EraseOrUnshift(index: nat) returns (unshifted: Option<nat>)
      requires Valid()
      modifies vec
      ensures Valid() && EraseSpec(old(Rs()), Rs(), index)
      ensures unshifted == if In(old(Rs()), index) then None else Some(index - CountBelow(old(Rs()), index))
    {
      hide Separated, ChunksOk, EraseSpec;
      GapsKeepOrder(Rs());
      CountBounded(Rs(), index);
      var it, shifted := SkipBelow(vec.data, index);
      StopHere(vec.data, it);
      AtStop(Rs(), index, Pos(vec.data, it));
      if it == End(vec.data) {
        ErasePastEnd(Rs(), index);
        return Some(shifted);
      }
      unshifted := if At(vec.data, it).first <= index then None else Some(shifted);
      DoErase(it, index);
    }
  }

  // ---------- steps of the proofs ----------

  /** The cursor is at its position's range, or at the end. */
  lemma {:induction false} StopHere(d: seq<Chunk>, it: Cursor)
    requires ChunksOk(d) && Ok(d, it)
    ensures Pos(d, it) <= |Flat(d)| && (it == End(d) <==> Pos(d, it) == |Flat(d)|)
    ensures it == Begin(d) <==> Pos(d, it) == 0
    ensures OnRange(d, it) ==> Pos(d, it) < |Flat(d)| && At(d, it) == Flat(d)[Pos(d, it)]
  {
    PosInjective(d, it, it);
    EndPos(d);
    if OnRange(d, it) {
      AtPos(d, it);
    }
  }

  lemma {:induction false} PrevHere(d: seq<Chunk>, it: Cursor)
    requires ChunksOk(d) && Ok(d, it) && it != Begin(d)
    ensures OnRange(d, Prev(d, it)) && Pos(d, Prev(d, it)) == Pos(d, it) - 1
    ensures Pos(d, Prev(d, it)) < |Flat(d)| && At(d, Prev(d, it)) == Flat(d)[Pos(d, Prev(d, it))]
  {
    PrevPos(d, it);
    AtPos(d, Prev(d, it));
  }

  lemma {:induction false} SeparatedIsOrdered(rs: seq<Range>, p: nat, index: int)
    requires Separated(rs) && p <= |rs|
    requires p > 0 ==> rs[p - 1].second < index
    requires p < |rs| ==> index + 1 < rs[p].first
    ensures Ordered(rs) && FitsAt(rs, p, Range(index, index + 1))
  {
  }

  /** The ranges `p..q` moved, the rest in place. */
  ghost function ShiftPart(rs: seq<Range>, p: nat, q: nat, d: int): seq<Range>
    requires p <= q <= |rs|
  {
    rs[..p] + ShiftAll(rs[p..q], d) + rs[q..]
  }

  lemma {:induction false} ShiftNone(rs: seq<Range>, p: nat, d: int)
    requires p <= |rs|
    ensures ShiftPart(rs, p, p, d) == rs
  {
  }

  lemma {:induction false} ShiftOne(rs: seq<Range>, p: nat, q: nat, d: int)
    requires p <= q < |rs|
    ensures |ShiftPart(rs, p, q, d)| == |rs| && ShiftPart(rs, p, q, d)[q] == rs[q]
    ensures ShiftPart(rs, p, q, d)[q := Range(rs[q].first + d, rs[q].second + d)] == ShiftPart(rs, p, q + 1, d)
  {
  }

  lemma {:induction false} ShiftDone(rs: seq<Range>, p: nat, d: int)
    requires p <= |rs|
    ensures ShiftPart(rs, p, |rs|, d) == MovedFrom(rs, p, d)
  {
  }

  lemma {:induction false} NothingToShift(rs: seq<Range>, d: int)
    ensures MovedFrom(rs, |rs|, d) == rs
  {
  }

  /** After an addition that stayed clear of the next range, the search for the
      following index stops right behind it. */
  lemma {:induction false} NextStop(now: seq<Range>, r: nat, was: seq<Range>, p: nat, index: int)
    requires Separated(now) && r < |now| && p <= |was|
    requires now[r + 1..] == was[p..] && now[r].second == index + 1
    requires p < |was| ==> index + 1 < was[p].first < was[p].second
    ensures SearchStop(now, index + 1, r + 1)
    ensures r + 1 < |now| ==> p < |was| && now[r + 1] == was[p]
  {
  }

  lemma {:induction false} MovedAt(rs: seq<Range>, p: nat, count: int)
    requires p < |rs|
    ensures |MovedFrom(rs, p, count)| == |rs|
    ensures MovedFrom(rs, p, count)[p] == Range(rs[p].first + count, rs[p].second + count)
  {
  }

  ghost function Front(rs: seq<Range>, p: nat, index: int, count: int): seq<Range>
    requires p < |rs|
  {
    MovedFrom(rs, p, count)[p := Range(rs[p].first, index)]
  }

  lemma {:induction false} FrontOrdered(rs: seq<Range>, p: nat, index: nat, count: nat)
    requires Separated(rs) && SearchStop(rs, index, p) && p < |rs| && rs[p].first < index && count > 0
    ensures Ordered(Front(rs, p, index, count))
    ensures FitsAt(Front(rs, p, index, count), p + 1, Range(index + count, rs[p].second + count))
  {
  }

  lemma {:induction false} PartedIsSplit(rs: seq<Range>, p: nat, index: nat, count: nat)
    requires p < |rs| && rs[p].first < index
    ensures var front := Front(rs, p, index, count);
      |front| == |rs|
      && front[..p + 1] + [Range(index + count, rs[p].second + count)] + front[p + 1..]
        == Parted(rs, p, index, count)
  {
  }

  // ---------- walks that use the chunks' cached numbers ----------

  lemma {:induction false} TotalNone(rs: seq<Range>)
    ensures Total(rs[..0]) == 0
  {
  }

  lemma {:induction false} TotalNext(rs: seq<Range>, p: nat)
    requires p < |rs|
    ensures Total(rs[..p + 1]) == Total(rs[..p]) + (rs[p].second - rs[p].first)
  {
    assert rs[..p + 1] == rs[..p] + [rs[p]];
    TotalSplit(rs[..p], [rs[p]]);
    TotalOne(rs[p]);
  }

  /** A whole chunk passed: its cached count is what its ranges add. */
  lemma {:induction false} ChunkPassed(d: seq<Chunk>, o: nat, bound: int)
    requires ChunksOk(d) && o < |d| && Ordered(Flat(d)) && d[o].end <= bound
    requires EndBy(Flat(d), Pos(d, FirstOfChunk(d, o)), bound)
    ensures OnRange(d, FirstOfChunk(d, o)) && Ok(d, FirstOfChunk(d, o + 1))
    ensures Pos(d, FirstOfChunk(d, o + 1)) <= |Flat(d)| && d[o].count >= 0
    ensures Total(Flat(d)[..Pos(d, FirstOfChunk(d, o + 1))])
      == Total(Flat(d)[..Pos(d, FirstOfChunk(d, o))]) + d[o].count
    ensures EndBy(Flat(d), Pos(d, FirstOfChunk(d, o + 1)), bound)
  {
    assert ChunkOk(d[o]);
    if o + 1 < |d| {
      assert ChunkOk(d[o + 1]);
    }
    ChunkEndsBy(d, o, bound);
    ChunkTotal(d, o);
    ChunkPositive(d, o);
    TotalNonNegative(d[o].data);
  }

  lemma {:induction false} ChunkTotal(d: seq<Chunk>, o: nat)
    requires o < |d|
    ensures |Flat(d[..o])| <= |Flat(d[..o + 1])| <= |Flat(d)|
    ensures Total(Flat(d)[..|Flat(d[..o + 1])|]) == Total(Flat(d)[..|Flat(d[..o])|]) + Total(d[o].data)
  {
    CutFlat(d, o);
    FlatPrefix(d, o);
    CutFlat(d, o + 1);
    var a, b := Flat(d[..o]), d[o].data;
    assert Flat(d)[..|a|] == a && Flat(d)[..|a| + |b|] == a + b;
    TotalSplit(a, b);
  }

  lemma {:induction false} ChunkPositive(d: seq<Chunk>, o: nat)
    requires o < |d| && Ordered(Flat(d))
    ensures forall a :: 0 <= a < |d[o].data| ==> d[o].data[a].first < d[o].data[a].second
  {
    forall a | 0 <= a < |d[o].data| ensures d[o].data[a].first < d[o].data[a].second {
      AtPos(d, Cursor(o, Some(a)));
    }
  }

  lemma {:induction false} TotalNonNegative(rs: seq<Range>)
    requires forall i :: 0 <= i < |rs| ==> rs[i].first < rs[i].second
    ensures Total(rs) >= 0
  {
    if rs != [] {
      TotalNonNegative(rs[1..]);
    }
  }

  /** Raising the bound keeps what ended by it. */
  lemma {:induction false} EndByHigher(rs: seq<Range>, q: nat, x: int, y: int)
    requires EndBy(rs, q, x) && x <= y
    ensures EndBy(rs, q, y)
  {
  }

  /** The walk of `add_shifted`: whole chunks first, then single ranges. */
  method SkipShifted(d: seq<Chunk>, index: nat) returns (it: Cursor, shifted: nat)
    requires ChunksOk(d) && Separated(Flat(d))
    ensures Ok(d, it) && SearchStop(Flat(d), shifted, Pos(d, it))
    ensures Pos(d, it) < |Flat(d)| ==> shifted < Flat(d)[Pos(d, it)].first
    ensures shifted == index + Total(Flat(d)[..Pos(d, it)])
  {
    hide ChunksOk, Separated, Ordered, Total, EndBy, Flat;
    GapsKeepOrder(Flat(d));
    shifted := index;
    var o := 0;
    BeginOk(d);
    StopHere(d, Begin(d));
    TotalNone(Flat(d));
    EndByNone(Flat(d), index);
    while o < |d| && d[o].end <= shifted
      invariant o <= |d| && Ok(d, FirstOfChunk(d, o)) && Pos(d, FirstOfChunk(d, o)) <= |Flat(d)|
      invariant shifted == index + Total(Flat(d)[..Pos(d, FirstOfChunk(d, o))])
      invariant EndBy(Flat(d), Pos(d, FirstOfChunk(d, o)), shifted)
    {
      ChunkPassed(d, o, shifted);
      EndByHigher(Flat(d), Pos(d, FirstOfChunk(d, o + 1)), shifted, shifted + d[o].count);
      shifted := shifted + d[o].count;
      o := o + 1;
    }
    it, shifted := SkipRanges(d, FirstOfChunk(d, o), index, shifted);
  }

  /** The single ranges that start at or below the index as it grows. */
  method SkipRanges(d: seq<Chunk>, from: Cursor, ghost index: nat, start: nat) returns (it: Cursor, shifted: nat)
    requires ChunksOk(d) && Ordered(Flat(d)) && Ok(d, from)
    requires EndBy(Flat(d), Pos(d, from), start)
    requires start == index + Total(Flat(d)[..Pos(d, from)])
    ensures Ok(d, it) && SearchStop(Flat(d), shifted, Pos(d, it))
    ensures Pos(d, it) < |Flat(d)| ==> shifted < Flat(d)[Pos(d, it)].first
    ensures shifted == index + Total(Flat(d)[..Pos(d, it)])
  {
    hide ChunksOk, Ordered, Total, EndBy, Flat;
    it := from;
    shifted := start;
    StopHere(d, it);
    while it != End(d) && At(d, it).first <= shifted
      invariant Ok(d, it) && Pos(d, it) <= |Flat(d)|
      invariant OnRange(d, it) ==> Pos(d, it) < |Flat(d)| && At(d, it) == Flat(d)[Pos(d, it)]
      invariant it == End(d) <==> Pos(d, it) == |Flat(d)|
      invariant shifted == index + Total(Flat(d)[..Pos(d, it)])
      invariant EndBy(Flat(d), Pos(d, it), shifted)
      decreases |Flat(d)| - Pos(d, it)
    {
      PositiveAt(Flat(d), Pos(d, it));
      TotalNext(Flat(d), Pos(d, it));
      var longer := shifted + (At(d, it).second - At(d, it).first);
      EndByNext(Flat(d), Pos(d, it), shifted, longer);
      shifted := longer;
      NextPos(d, it);
      it := Next(d, it);
      StopHere(d, it);
    }
    if it != End(d) {
      PositiveAt(Flat(d), Pos(d, it));
    }
    EndByStop(Flat(d), Pos(d, it), shifted);
  }

  lemma {:induction false} PositiveAt(rs: seq<Range>, p: nat)
    requires Ordered(rs) && p < |rs|
    ensures 0 <= rs[p].first < rs[p].second
  {
  }

  /** The walk of `erase_or_unshift`: subtracts everything that ends by the index. */
  method SkipBelow(d: seq<Chunk>, index: nat) returns (it: Cursor, rest: int)
    requires ChunksOk(d) && Separated(Flat(d))
    ensures Ok(d, it) && SearchStop(Flat(d), index, Pos(d, it))
    ensures rest == index - Total(Flat(d)[..Pos(d, it)])
  {
    hide ChunksOk, Separated, Ordered, Total, EndBy, Flat;
    GapsKeepOrder(Flat(d));
    rest := index;
    var o := 0;
    BeginOk(d);
    StopHere(d, Begin(d));
    TotalNone(Flat(d));
    EndByNone(Flat(d), index);
    while o < |d| && d[o].end <= index
      invariant o <= |d| && Ok(d, FirstOfChunk(d, o)) && Pos(d, FirstOfChunk(d, o)) <= |Flat(d)|
      invariant rest == index - Total(Flat(d)[..Pos(d, FirstOfChunk(d, o))])
      invariant EndBy(Flat(d), Pos(d, FirstOfChunk(d, o)), index)
    {
      ChunkPassed(d, o, index);
      rest := rest - d[o].count;
      o := o + 1;
    }
    it := FirstOfChunk(d, o);
    StopHere(d, it);
    while it != End(d) && At(d, it).second <= index
      invariant Ok(d, it) && Pos(d, it) <= |Flat(d)|
      invariant OnRange(d, it) ==> Pos(d, it) < |Flat(d)| && At(d, it) == Flat(d)[Pos(d, it)]
      invariant it == End(d) <==> Pos(d, it) == |Flat(d)|
      invariant rest == index - Total(Flat(d)[..Pos(d, it)])
      invariant EndBy(Flat(d), Pos(d, it), index)
      decreases |Flat(d)| - Pos(d, it)
    {
      TotalNext(Flat(d), Pos(d, it));
      EndByNext(Flat(d), Pos(d, it), index, index);
      rest := rest - (At(d, it).second - At(d, it).first);
      NextPos(d, it);
      it := Next(d, it);
      StopHere(d, it);
    }
    EndByStop(Flat(d), Pos(d, it), index);
  }

  /** There are never more members below an index than indices. */
  lemma {:induction false} CountBounded(rs: seq<Range>, x: nat)
    requires Ordered(rs)
    ensures CountBelow(rs, x) <= x
  {
    if x == 0 {
      CountNone(rs, 0);
    } else {
      CountBounded(rs, x - 1);
      CountStep(rs, x - 1);
    }
  }

  // ---------- the removal loop ----------

  lemma {:induction false} StartRemove(rs: seq<Range>, begin: int, end: int)
    ensures RemoveInv(rs, rs, begin, begin, end) && RemoveKeeps(rs, rs, begin, end)
  {
  }

  /** How many ranges the removal may still have to touch. */
  ghost function LeftToRemove(rs: seq<Range>, p: nat, end: int): int {
    if p < |rs| && rs[p].first < end then |rs| - p else 0
  }

  /** After a round the overlapped range ends by `begin`, or is gone, or what is
      left beyond starts at or after `end`. */
  ghost predicate Trimmed(was: seq<Range>, now: seq<Range>, p: nat, begin: int, end: int) {
    && p <= |was| && p <= |now| && now[..p] == was[..p]
    && (|| (|now| == |was| && p < |now| && now[p].second <= begin)
        || (|now| == |was| - 1)
        || (forall i :: p <= i < |now| && begin < now[i].second ==> end <= now[i].first))
  }

  lemma {:induction false} BeforeTrim(was: seq<Range>, now: seq<Range>, b: int, p: nat, begin: int, end: int)
    requires SearchStop(was, b, p) && Trimmed(was, now, p, begin, end) && b <= begin
    ensures EndBy(now, p, begin)
  {
  }

  lemma {:induction false} StopFacts(rs: seq<Range>, b: int, p: nat)
    requires Separated(rs) && SearchStop(rs, b, p) && p < |rs|
    ensures 0 <= rs[p].first < rs[p].second && b < rs[p].second
  {
  }

  lemma {:induction false} TrimmedDrop(rs: seq<Range>, p: nat, begin: int, end: int)
    requires p < |rs|
    ensures Trimmed(rs, rs[..p] + rs[p + 1..], p, begin, end)
  {
  }

  lemma {:induction false} TrimmedCut(rs: seq<Range>, p: nat, r: Range, begin: int, end: int)
    requires Separated(rs) && p < |rs| && r.first < r.second
    requires r.second <= begin || (r.first == end && r.second == rs[p].second)
    ensures Trimmed(rs, rs[p := r], p, begin, end)
  {
  }

  lemma {:induction false} TrimmedSplit(rs: seq<Range>, p: nat, begin: int, end: int)
    requires Separated(rs) && p < |rs| && rs[p].first < begin < end < rs[p].second
    ensures var front := rs[p := Range(rs[p].first, begin)];
      Trimmed(rs, front[..p + 1] + [Range(end, rs[p].second)] + front[p + 1..], p, begin, end)
  {
  }

  lemma {:induction false} LessLeft(was: seq<Range>, now: seq<Range>, p: nat, q: nat, begin: int, end: int)
    requires p < |was| && was[p].first < end && Trimmed(was, now, p, begin, end)
    requires SearchStop(now, begin, q) && p <= q
    ensures LeftToRemove(now, q, end) < LeftToRemove(was, p, end)
  {
  }
}
