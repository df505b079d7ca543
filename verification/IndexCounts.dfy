/** `IndexSet::count` with its shortcuts over whole chunks: what it returns for
    every input, and exactly when that is the number of members. */
module IndexCounts {
  import opened Common
  import opened Ranges
  import opened Chunks
  import opened RangeVectors
  import opened RangeOps
  import opened IndexSets

  /** The chunk a search for the index ends in: the first that ends after it. */
  function FoundIn(d: seq<Chunk>, index: int): nat {
    if d == [] || d[0].end > index then 0 else 1 + FoundIn(d[1..], index)
  }

  /** The start lies past the first index of its chunk, and the range that reaches
      the end is the first of the very next chunk. */
  predicate Overlooks(d: seq<Chunk>, start: int, end: int) {
    var o := FoundIn(d, start);
    o + 1 < |d| && |d[o + 1].data| > 0 && d[o].begin < start
    && d[o + 1].data[0].first < end <= d[o + 1].data[0].second
  }

  /** What is left out in that case. */
  function Overlooked(d: seq<Chunk>, start: int, end: int): int {
    if Overlooks(d, start, end) then end - d[FoundIn(d, start) + 1].data[0].first else 0
  }

  /** The members in `start..end`. */
  ghost function Between(rs: seq<Range>, start: int, end: int): int {
    CountBelow(rs, end) - CountBelow(rs, start)
  }

  /** Counting up to `x` when the ranges before `q` end by `x` and the next reaches it. */
  lemma {:induction false} PrefixCount(rs: seq<Range>, x: int, q: nat)
    requires Ordered(rs) && q <= |rs|
    requires forall i :: 0 <= i < q ==> rs[i].second <= x
    requires q < |rs| ==> x <= rs[q].second
    ensures CountBelow(rs, x) == Total(rs[..q]) + if q < |rs| then Max(0, x - rs[q].first) else 0
  {
    AroundSplit(rs, q, x);
    CountAll(rs[..q], x);
    if q < |rs| {
      var tail := rs[q..];
      forall i | 0 <= i < |tail[1..]| ensures x <= tail[1..][i].first {
        assert rs[q].second <= rs[q + 1 + i].first;
      }
      CountNone(tail[1..], x);
    }
  }

  lemma {:induction false} FoundInStop(d: seq<Chunk>, index: int, o: nat)
    requires o < |d| && d[o].end > index && forall i :: 0 <= i < o ==> d[i].end <= index
    ensures FoundIn(d, index) == o
  {
    if o > 0 {
      assert d[0].end <= index;
      forall i | 0 <= i < o - 1 ensures d[1..][i].end <= index {
        assert d[i + 1].end <= index;
      }
      FoundInStop(d[1..], index, o - 1);
    }
  }

  /** The cursor of a search is in the chunk `FoundIn` names; it stands past that
      chunk's first index exactly when the start does. */
  lemma {:induction false} SearchChunk(d: seq<Chunk>, index: int, it: Cursor)
    requires ChunksOk(d) && Separated(Flat(d)) && OnRange(d, it)
    requires SearchStop(Flat(d), index, Pos(d, it))
    ensures FoundIn(d, index) == it.outer
    ensures d[it.outer].begin < index <==> At(d, it).first < index || it.inner.value != 0
  {
    var o := it.outer;
    assert ChunkOk(d[o]);
    var front, back := Cursor(o, Some(0)), Cursor(o, Some(|d[o].data| - 1));
    AtPos(d, it);
    AtPos(d, front);
    AtPos(d, back);
    forall i | 0 <= i < o ensures d[i].end <= index {
      assert ChunkOk(d[i]);
      var last := Cursor(i, Some(|d[i].data| - 1));
      AtPos(d, last);
      PosOrder(d, last, it);
    }
    FoundInStop(d, index, o);
  }

  /** One range reaches from before the end past the start. */
  ghost predicate Straddled(rs: seq<Range>, start: int, end: int) {
    exists i :: 0 <= i < |rs| && rs[i].first < end && start < rs[i].second
  }

  /** The machine's sizes have 64 bits; a difference below zero wraps around. */
  const WORD: int := 0x1_0000_0000_0000_0000

  /** Same branches and shortcuts as the source. With the start past the end nothing is
      counted, unless one range holds both: then the difference wraps around. */
  method Count(d: seq<Chunk>, start: nat, end: nat) returns (ret: int)
    requires ChunksOk(d) && Separated(Flat(d))
    ensures start <= end ==> ret == Between(Flat(d), start, end) - Overlooked(d, start, end)
    ensures start > end ==> ret == if Straddled(Flat(d), start, end) then WORD - (start - end) else 0
  {
    hide ChunksOk, Separated, Total, CountBelow, SearchStop;
    ghost var rs := Flat(d);
    GapsKeepOrder(rs);
    var it := FindIn(d, start);
    StopHere(d, it);
    ghost var p := Pos(d, it);
    StartCount(rs, start, p);
    if it == End(d) || At(d, it).first >= end {
      if start <= end {
        NothingCounted(d, it, start, end);
      } else {
        NotStraddled(rs, start, end, p);
      }
      return 0;
    }
    SearchChunk(d, start, it);
    StraddledHere(rs, start, end, p);
    if At(d, it).second >= end {
      if start > end {
        return WORD + end - start;
      }
      OneRange(d, it, start, end);
      return Min(At(d, it).second, end) - Max(At(d, it).first, start);
    }
    ret := 0;
    if start > At(d, it).first || it.inner.value != 0 {
      var done;
      ret, it, done := RestOfChunk(d, it, start, end);
      if done {
        return;
      }
    } else {
      NotOverlooked(d, start, end);
    }
    ret := WholeChunks(d, it, start, end, ret);
  }

  lemma {:induction false} StraddledHere(rs: seq<Range>, start: int, end: int, p: nat)
    requires SearchStop(rs, start, p) && p < |rs| && rs[p].first < end
    ensures Straddled(rs, start, end) && start < rs[p].second
  {
  }

  lemma {:induction false} NotStraddled(rs: seq<Range>, start: int, end: int, p: nat)
    requires Ordered(rs) && SearchStop(rs, start, p) && end < start && (p < |rs| ==> end <= rs[p].first)
    ensures !Straddled(rs, start, end)
  {
  }

  method FindIn(d: seq<Chunk>, index: nat) returns (it: Cursor)
    requires ChunksOk(d) && Ordered(Flat(d))
    ensures Ok(d, it) && SearchStop(Flat(d), index, Pos(d, it))
  {
    var v := new RangeVector();
    v.data := d;
    it := v.Find(index);
  }

  /** Counted so far: everything before position `q`, less what lies below the start. */
  ghost predicate Counted(rs: seq<Range>, start: int, end: int, q: nat, ret: int) {
    EndBy(rs, q, end) && ret == Total(rs[..q]) - CountBelow(rs, start)
  }

  lemma {:induction false} StartCount(rs: seq<Range>, start: int, p: nat)
    requires Ordered(rs) && SearchStop(rs, start, p)
    ensures CountBelow(rs, start) == Total(rs[..p]) + if p < |rs| then Max(0, start - rs[p].first) else 0
  {
    PrefixCount(rs, start, p);
  }

  lemma {:induction false} NothingCounted(d: seq<Chunk>, it: Cursor, start: int, end: int)
    requires ChunksOk(d) && Separated(Flat(d)) && Ok(d, it) && start <= end
    requires SearchStop(Flat(d), start, Pos(d, it))
    requires it == End(d) || At(d, it).first >= end
    ensures Between(Flat(d), start, end) == 0 && Overlooked(d, start, end) == 0
  {
    var rs, p := Flat(d), Pos(d, it);
    StopHere(d, it);
    StartCount(rs, start, p);
    if it == End(d) {
      PrefixCount(rs, end, |rs|);
      if Overlooks(d, start, end) {
        var o := FoundIn(d, start);
        var next := Cursor(o + 1, Some(0));
        AtPos(d, next);
        assert rs[Pos(d, next)].second <= start;
        FoundBefore(d, start, o + 1);
      }
    } else {
      PrefixCount(rs, end, p);
      SearchChunk(d, start, it);
      NextChunkLater(d, it);
    }
  }

  /** A chunk after the one the search ends in cannot end by the index. */
  lemma {:induction false} FoundBefore(d: seq<Chunk>, index: int, o: nat)
    requires ChunksOk(d) && Separated(Flat(d)) && o < |d| && o > FoundIn(d, index)
    ensures d[o].data[0].second > index
  {
    var f := FoundIn(d, index);
    FoundEnds(d, index);
    assert ChunkOk(d[f]) && ChunkOk(d[o]);
    AtPos(d, Cursor(f, Some(|d[f].data| - 1)));
    AtPos(d, Cursor(o, Some(0)));
    PosOrder(d, Cursor(f, Some(|d[f].data| - 1)), Cursor(o, Some(0)));
  }

  lemma {:induction false} FoundEnds(d: seq<Chunk>, index: int)
    requires FoundIn(d, index) < |d|
    ensures d[FoundIn(d, index)].end > index
  {
    if d[0].end <= index {
      FoundEnds(d[1..], index);
    }
  }

  /** A range ends before the next chunk begins. */
  lemma {:induction false} NextChunkLater(d: seq<Chunk>, it: Cursor)
    requires ChunksOk(d) && Separated(Flat(d)) && OnRange(d, it)
    ensures it.outer + 1 < |d| ==>
      |d[it.outer + 1].data| > 0 && At(d, it).first < At(d, it).second < d[it.outer + 1].data[0].first
  {
    AtPos(d, it);
    if it.outer + 1 < |d| {
      assert ChunkOk(d[it.outer + 1]);
      AtPos(d, Cursor(it.outer + 1, Some(0)));
      PosOrder(d, it, Cursor(it.outer + 1, Some(0)));
    }
  }

  lemma {:induction false} OneRange(d: seq<Chunk>, it: Cursor, start: int, end: int)
    requires ChunksOk(d) && Separated(Flat(d)) && OnRange(d, it) && start <= end
    requires SearchStop(Flat(d), start, Pos(d, it))
    requires At(d, it).first < end <= At(d, it).second
    ensures Between(Flat(d), start, end) == end - Max(At(d, it).first, start)
    ensures Overlooked(d, start, end) == 0
  {
    var rs, p := Flat(d), Pos(d, it);
    StopHere(d, it);
    StartCount(rs, start, p);
    PrefixCount(rs, end, p);
    SearchChunk(d, start, it);
    NextChunkLater(d, it);
  }

  lemma {:induction false} NotOverlooked(d: seq<Chunk>, start: int, end: int)
    requires FoundIn(d, start) < |d| && d[FoundIn(d, start)].begin >= start
    ensures Overlooked(d, start, end) == 0
  {
  }

  lemma {:induction false} CountedNext(rs: seq<Range>, start: int, end: int, q: nat, ret: int)
    requires Counted(rs, start, end, q, ret) && q < |rs| && rs[q].second <= end
    ensures Counted(rs, start, end, q + 1, ret + (rs[q].second - rs[q].first))
  {
    TotalNext(rs, q);
  }

  /** The first range counts from the start on. */
  lemma {:induction false} CountedFirst(rs: seq<Range>, start: int, end: int, p: nat)
    requires Ordered(rs) && SearchStop(rs, start, p) && p < |rs| && rs[p].second <= end && start <= end
    ensures Counted(rs, start, end, p + 1, rs[p].second - Max(rs[p].first, start))
    ensures rs[p].first >= start ==> Counted(rs, start, end, p, 0)
  {
    StartCount(rs, start, p);
    TotalNext(rs, p);
    forall i | 0 <= i < p + 1 ensures rs[i].second <= end {
    }
  }

  /** Everything counted, with the last range in part. */
  lemma {:induction false} CountedAll(rs: seq<Range>, start: int, end: int, q: nat, ret: int)
    requires Ordered(rs) && Counted(rs, start, end, q, ret)
    requires q < |rs| ==> end <= rs[q].second
    ensures Between(rs, start, end) == ret + if q < |rs| then Max(0, end - rs[q].first) else 0
  {
    PrefixCount(rs, end, q);
  }

  /** From the middle of a chunk: count to the end of that chunk. The method is
      done when the end was reached; the range right after the chunk is then not
      looked at, even when the end falls into it. */
  method RestOfChunk(d: seq<Chunk>, first: Cursor, start: nat, end: nat)
    returns (ret: int, it: Cursor, done: bool)
    requires ChunksOk(d) && Separated(Flat(d)) && OnRange(d, first) && start <= end
    requires SearchStop(Flat(d), start, Pos(d, first)) && At(d, first).second < end
    requires FoundIn(d, start) == first.outer && d[first.outer].begin < start
    ensures Ok(d, it) && Pos(d, it) <= |Flat(d)|
    ensures done ==> ret == Between(Flat(d), start, end) - Overlooked(d, start, end)
    ensures !done ==> OnRange(d, it) && it.inner.value == 0 && Overlooked(d, start, end) == 0
    ensures !done ==> Counted(Flat(d), start, end, Pos(d, it), ret)
  {
    hide ChunksOk, Separated, Total, CountBelow, SearchStop, Counted, Overlooked, Overlooks;
    ghost var rs := Flat(d);
    GapsKeepOrder(rs);
    StopHere(d, first);
    CountedFirst(rs, start, end, Pos(d, first));
    ret := At(d, first).second - Max(At(d, first).first, start);
    NextPos(d, first);
    it := Next(d, first);
    StopHere(d, it);
    while it != End(d) && At(d, it).second < end && it.inner.value != 0
      invariant Ok(d, it) && Pos(d, it) <= |rs| && Counted(rs, start, end, Pos(d, it), ret)
      invariant OnRange(d, it) ==> Pos(d, it) < |rs| && At(d, it) == rs[Pos(d, it)]
      invariant it == End(d) <==> Pos(d, it) == |rs|
      invariant if it == End(d) then first.outer + 1 == |d|
                else it.outer == first.outer || (it.outer == first.outer + 1 && it.inner.value == 0)
      invariant OnRange(d, it) && it.outer == first.outer ==> it.inner.value != 0
      decreases |rs| - Pos(d, it)
    {
      CountedNext(rs, start, end, Pos(d, it), ret);
      ret := ret + (At(d, it).second - At(d, it).first);
      NextPos(d, it);
      it := Next(d, it);
      StopHere(d, it);
    }
    ghost var sofar := ret;
    if it != End(d) && At(d, it).first < end && it.inner.value != 0 {
      ret := ret + (end - At(d, it).first);
    }
    done := it == End(d) || At(d, it).second >= end;
    if done {
      CountedAll(rs, start, end, Pos(d, it), sofar);
      RestDone(d, first.outer, it, start, end);
    } else {
      RestGoesOn(d, first.outer, it, start, end);
    }
  }

  lemma {:induction false} RestDone(d: seq<Chunk>, o: nat, it: Cursor, start: int, end: int)
    requires ChunksOk(d) && Separated(Flat(d)) && Ok(d, it) && o < |d| && FoundIn(d, start) == o && d[o].begin < start
    requires if it == End(d) then o + 1 == |d|
             else (it.outer == o && it.inner.value != 0) || (it.outer == o + 1 && it.inner.value == 0)
    requires it != End(d) ==> At(d, it).second >= end
    ensures Overlooked(d, start, end) ==
      if it != End(d) && it.inner.value == 0 then Max(0, end - At(d, it).first) else 0
  {
    if it != End(d) {
      NextChunkLater(d, it);
    }
  }

  lemma {:induction false} RestGoesOn(d: seq<Chunk>, o: nat, it: Cursor, start: int, end: int)
    requires o < |d| && FoundIn(d, start) == o && OnRange(d, it)
    requires it.outer == o + 1 && it.inner.value == 0 && At(d, it).second < end
    ensures Overlooked(d, start, end) == 0
  {
  }

  /** From the start of a chunk: whole chunks by their cached counts, then ranges,
      then the part of the last one. */
  method WholeChunks(d: seq<Chunk>, from: Cursor, start: nat, end: nat, sofar: int) returns (ret: int)
    requires ChunksOk(d) && Separated(Flat(d)) && OnRange(d, from) && from.inner.value == 0
    requires Pos(d, from) <= |Flat(d)| && Counted(Flat(d), start, end, Pos(d, from), sofar)
    ensures ret == Between(Flat(d), start, end)
  {
    hide ChunksOk, Separated, Total, CountBelow, Counted, Ordered;
    ghost var rs := Flat(d);
    GapsKeepOrder(rs);
    ret := sofar;
    var o := from.outer;
    assert from == FirstOfChunk(d, o);
    while o < |d| && d[o].end <= end
      invariant o <= |d| && Ok(d, FirstOfChunk(d, o)) && Pos(d, FirstOfChunk(d, o)) <= |rs|
      invariant Counted(rs, start, end, Pos(d, FirstOfChunk(d, o)), ret)
    {
      CountedChunk(d, o, start, end, ret);
      ret := ret + d[o].count;
      o := o + 1;
    }
    var it := FirstOfChunk(d, o);
    StopHere(d, it);
    while it != End(d) && At(d, it).second <= end
      invariant Ok(d, it) && Pos(d, it) <= |rs| && Counted(rs, start, end, Pos(d, it), ret)
      invariant OnRange(d, it) ==> Pos(d, it) < |rs| && At(d, it) == rs[Pos(d, it)]
      invariant it == End(d) <==> Pos(d, it) == |rs|
      decreases |rs| - Pos(d, it)
    {
      CountedNext(rs, start, end, Pos(d, it), ret);
      ret := ret + (At(d, it).second - At(d, it).first);
      NextPos(d, it);
      it := Next(d, it);
      StopHere(d, it);
    }
    CountedAll(rs, start, end, Pos(d, it), ret);
    if it != End(d) && At(d, it).first < end {
      ret := ret + (end - At(d, it).first);
    }
  }

  lemma {:induction false} CountedChunk(d: seq<Chunk>, o: nat, start: int, end: int, ret: int)
    requires ChunksOk(d) && Separated(Flat(d)) && o < |d| && d[o].end <= end
    requires Ok(d, FirstOfChunk(d, o)) && Counted(Flat(d), start, end, Pos(d, FirstOfChunk(d, o)), ret)
    ensures Ok(d, FirstOfChunk(d, o + 1)) && Pos(d, FirstOfChunk(d, o + 1)) <= |Flat(d)|
    ensures Counted(Flat(d), start, end, Pos(d, FirstOfChunk(d, o + 1)), ret + d[o].count)
  {
    GapsKeepOrder(Flat(d));
    ChunkPassed(d, o, end);
  }

  /** `count` is right exactly when it does not overlook a range. */
  lemma {:induction false} CountRightIff(d: seq<Chunk>, start: nat, end: nat)
    requires ChunksOk(d) && Separated(Flat(d)) && start <= end
    ensures Between(Flat(d), start, end) - Overlooked(d, start, end) == Between(Flat(d), start, end)
      <==> !Overlooks(d, start, end)
    ensures start == 0 ==> !Overlooks(d, start, end)
  {
    if start == 0 && Overlooks(d, 0, end) {
      var o := FoundIn(d, 0);
      assert ChunkOk(d[o]);
      AtPos(d, Cursor(o, Some(0)));
    }
  }

  /** Two chunks of one range each: counting from inside the first into the second
      gives 5 where the set has 10 members. */
  lemma {:induction false} CountOverlooksARange()
    ensures var d := [Chunk([Range(10, 20)], 10, 20, 10), Chunk([Range(30, 40)], 30, 40, 10)];
      && ChunksOk(d) && Separated(Flat(d))
      && Between(Flat(d), 15, 35) == 10 && Overlooked(d, 15, 35) == 5
  {
    var d := [Chunk([Range(10, 20)], 10, 20, 10), Chunk([Range(30, 40)], 30, 40, 10)];
    TotalOne(Range(10, 20));
    TotalOne(Range(30, 40));
    FlatOne(d[1]);
    assert d[1..] == [d[1]];
    assert Flat(d) == [Range(10, 20), Range(30, 40)];
    var rs := Flat(d);
    assert rs[1..] == [Range(30, 40)] && rs[1..][1..] == [];
    assert CountBelow(rs[1..], 35) == 5 && CountBelow(rs[1..], 15) == 0;
    assert FoundIn(d, 15) == 0;
  }

  lemma {:induction false} OneChunkHolds(d: seq<Chunk>)
    requires ChunksOk(d)
    ensures |Flat(d)| > MAX_SIZE ==> |d| > 1
  {
    if |d| == 1 {
      FlatOne(d[0]);
      assert d == [d[0]];
    }
  }

  /** No chunk holds more than so many ranges, so a set of more ranges has a second chunk;
      if none of its ranges is a single index, some count is then wrong. */
  lemma {:induction false} WideSetsOverlook(d: seq<Chunk>)
    requires ChunksOk(d) && Separated(Flat(d)) && |Flat(d)| > MAX_SIZE
    requires forall i :: 0 <= i < |Flat(d)| ==> Flat(d)[i].second - Flat(d)[i].first > 1
    ensures exists start: nat, end: nat :: start <= end && Overlooks(d, start, end)
  {
    OneChunkHolds(d);
    assert ChunkOk(d[0]) && ChunkOk(d[1]);
    AtPos(d, Cursor(0, Some(0)));
    AtPos(d, Cursor(0, Some(|d[0].data| - 1)));
    AtPos(d, Cursor(1, Some(0)));
    PosOrder(d, Cursor(0, Some(|d[0].data| - 1)), Cursor(1, Some(0)));
    PosOrder(d, Cursor(0, Some(0)), Cursor(1, Some(0)));
    var start, end := d[0].begin + 1, d[1].data[0].first + 1;
    assert FoundIn(d, start) == 0;
    assert Overlooks(d, start, end);
  }

  /** Ranges of two indices, two apart. */
  function Pairs(n: nat): (rs: seq<Range>)
    ensures |rs| == n && forall i :: 0 <= i < n ==> rs[i] == Range(4 * i, 4 * i + 2)
  {
    seq(n, (i: nat) => Range(4 * i, 4 * i + 2))
  }

  /** Such a set comes about by adding indices one by one. */
  method AddPairs() returns (s: IndexSet)
    ensures s.Valid() && s.Rs() == Pairs(MAX_SIZE + 1)
    ensures exists start: nat, end: nat :: start <= end && Overlooks(s.vec.data, start, end)
  {
    hide ChunksOk, In, AddSpec;
    s := new IndexSet();
    var i := 0;
    PairsNone();
    while i < MAX_SIZE + 1
      invariant i <= MAX_SIZE + 1 && s.Valid() && s.Rs() == Pairs(i) && fresh(s.vec)
    {
      s.Add(4 * i);
      ghost var mid := s.Rs();
      s.Add(4 * i + 1);
      PairsNext(i, mid, s.Rs());
      i := i + 1;
    }
    WideSetsOverlook(s.vec.data);
  }

  lemma {:induction false} PairsNone()
    ensures Pairs(0) == []
  {
  }

  lemma {:induction false} PairsNext(n: nat, mid: seq<Range>, rs: seq<Range>)
    requires Separated(rs) && AddSpec(Pairs(n), mid, 4 * n) && AddSpec(mid, rs, 4 * n + 1)
    ensures rs == Pairs(n + 1)
  {
    hide In;
    var next := Pairs(n + 1);
    assert next == Pairs(n) + [Range(4 * n, 4 * n + 2)];
    forall x {:trigger In(rs, x)} {:trigger In(next, x)} ensures In(rs, x) <==> In(next, x) {
      InSplit(Pairs(n), [Range(4 * n, 4 * n + 2)], x);
      InOne(Range(4 * n, 4 * n + 2), x);
      assert In(mid, x) <==> In(Pairs(n), x) || x == 4 * n;
    }
    SeparatedUnique(rs, next);
  }

  /** `unshift` of a non-member: its index once every member is gone. */
  method Unshift(d: seq<Chunk>, index: nat) returns (r: int)
    requires ChunksOk(d) && Separated(Flat(d)) && !In(Flat(d), index)
    ensures r == index - CountBelow(Flat(d), index) && IsShifted(Flat(d), r, index)
  {
    var n := Count(d, 0, index);
    CountRightIff(d, 0, index);
    CountNone(Flat(d), 0);
    r := index - n;
  }
}
