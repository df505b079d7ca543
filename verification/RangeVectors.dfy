/** The chunked range vector: every change to it is a change to the flat list of
    ranges, and keeps each chunk's cached begin, end and count right. */
module RangeVectors {
  import opened Common
  import opened Ranges
  import opened Chunks

  /** Chunks of the same sizes, so that positions carry over. */
  ghost predicate SameShape(d: seq<Chunk>, e: seq<Chunk>) {
    |d| == |e| && forall i :: 0 <= i < |d| ==> |d[i].data| == |e[i].data|
  }

  lemma {:induction false} ShapeSame(d: seq<Chunk>)
    ensures SameShape(d, d)
  {
  }

  lemma {:induction false} ShapeTransitive(d: seq<Chunk>, e: seq<Chunk>, f: seq<Chunk>)
    requires SameShape(d, e) && SameShape(e, f)
    ensures SameShape(d, f)
  {
  }

  lemma {:induction false} ShapeLength(d: seq<Chunk>, e: seq<Chunk>)
    requires SameShape(d, e)
    ensures |Flat(d)| == |Flat(e)|
  {
    if d != [] {
      assert SameShape(d[1..], e[1..]);
      ShapeLength(d[1..], e[1..]);
    }
  }

  lemma {:induction false} ShapePos(d: seq<Chunk>, e: seq<Chunk>, c: Cursor)
    requires SameShape(d, e) && c.outer <= |d|
    ensures Pos(e, c) == Pos(d, c) && (Ok(d, c) <==> Ok(e, c)) && (OnRange(d, c) <==> OnRange(e, c))
  {
    assert SameShape(d[..c.outer], e[..c.outer]);
    ShapeLength(d[..c.outer], e[..c.outer]);
  }

  lemma {:induction false} TotalOne(r: Range)
    ensures Total([r]) == r.second - r.first
  {
  }

  lemma {:induction false} TotalUpdate(rs: seq<Range>, i: nat, r: Range)
    requires i < |rs|
    ensures Total(rs[i := r]) == Total(rs) - (rs[i].second - rs[i].first) + (r.second - r.first)
  {
    assert rs == rs[..i] + ([rs[i]] + rs[i + 1..]);
    assert rs[i := r] == rs[..i] + ([r] + rs[i + 1..]);
    TotalSplit(rs[..i], [rs[i]] + rs[i + 1..]);
    TotalSplit(rs[..i], [r] + rs[i + 1..]);
    TotalSplit([rs[i]], rs[i + 1..]);
    TotalSplit([r], rs[i + 1..]);
    TotalOne(rs[i]);
    TotalOne(r);
  }

  lemma {:induction false} TotalInsert(rs: seq<Range>, i: nat, r: Range)
    requires i <= |rs|
    ensures Total(rs[..i] + [r] + rs[i..]) == Total(rs) + (r.second - r.first)
  {
    assert rs == rs[..i] + rs[i..];
    assert rs[..i] + [r] + rs[i..] == rs[..i] + ([r] + rs[i..]);
    TotalSplit(rs[..i], rs[i..]);
    TotalSplit(rs[..i], [r] + rs[i..]);
    TotalSplit([r], rs[i..]);
    TotalOne(r);
  }

  lemma {:induction false} TotalErase(rs: seq<Range>, i: nat)
    requires i < |rs|
    ensures Total(rs[..i] + rs[i + 1..]) == Total(rs) - (rs[i].second - rs[i].first)
  {
    assert rs == rs[..i] + ([rs[i]] + rs[i + 1..]);
    TotalSplit(rs[..i], [rs[i]] + rs[i + 1..]);
    TotalSplit([rs[i]], rs[i + 1..]);
    TotalSplit(rs[..i], rs[i + 1..]);
    TotalOne(rs[i]);
  }

  // ---------- a chunk replaced, in the flat list ----------

  lemma {:induction false} SpliceMiddle(a: seq<Range>, m: seq<Range>, b: seq<Range>, i: nat, n: nat, w: seq<Range>)
    requires i <= n <= |m|
    ensures a + (m[..i] + w + m[n..]) + b == (a + m + b)[..|a| + i] + w + (a + m + b)[|a| + n..]
  {
  }

  /** Replacing ranges `i..n` of chunk `o` by `w` does the same to the flat list. */
  lemma {:induction false} ChunkSplice(d: seq<Chunk>, o: nat, i: nat, n: nat, w: seq<Range>, c: Chunk)
    requires o < |d| && i <= n <= |d[o].data| && c.data == d[o].data[..i] + w + d[o].data[n..]
    ensures |Flat(d[..o])| + n <= |Flat(d)|
    ensures Flat(d[o := c])
      == Flat(d)[..|Flat(d[..o])| + i] + w + Flat(d)[|Flat(d[..o])| + n..]
  {
    FlatAround(d, o);
    FlatReplace(d, o, c);
    SpliceMiddle(Flat(d[..o]), d[o].data, Flat(d[o + 1..]), i, n, w);
  }

  /** A chunk split in two leaves the flat list as it was. */
  lemma {:induction false} ChunkSplit(d: seq<Chunk>, o: nat, l: Chunk, r: Chunk)
    requires o < |d| && d[o].data == l.data + r.data
    ensures Flat(d[..o] + [l, r] + d[o + 1..]) == Flat(d)
    ensures Flat((d[..o] + [l, r] + d[o + 1..])[..o]) == Flat(d[..o])
    ensures Flat((d[..o] + [l, r] + d[o + 1..])[..o + 1]) == Flat(d[..o]) + l.data
  {
    var e := d[..o] + [l, r] + d[o + 1..];
    assert e[..o] == d[..o] && e[o] == l && e[o + 1] == r && e[o + 2..] == d[o + 1..];
    FlatAround(d, o);
    FlatPrefix(e, o);
    FlatPrefix(e, o + 1);
    CutFlat(e, o + 2);
  }

  lemma {:induction false} SplitOk(d: seq<Chunk>, o: nat, l: Chunk, r: Chunk)
    requires ChunksOk(d) && o < |d| && ChunkOk(l) && ChunkOk(r)
    ensures ChunksOk(d[..o] + [l, r] + d[o + 1..])
  {
  }

  /** An empty chunk dropped. */
  lemma {:induction false} ChunkDrop(d: seq<Chunk>, o: nat)
    requires o < |d|
    ensures Flat(d[..o] + d[o + 1..]) == Flat(d[..o]) + Flat(d[o + 1..])
  {
    FlatSplit(d[..o], d[o + 1..]);
  }

  class RangeVector {
    var data: seq<Chunk>

    constructor ()
      ensures data == []
    {
      data := [];
    }

    method Clear()
      modifies this
      ensures data == []
    {
      data := [];
    }

    /** Overwrites one range and keeps its chunk's cached numbers right. */
    method SetRange(pos: Cursor, front: int, back: int)
      requires ChunksOk(data) && OnRange(data, pos)
      modifies this
      ensures ChunksOk(data) && SameShape(old(data), data)
      ensures old(Pos(data, pos)) < |old(Flat(data))|
      ensures Flat(data) == old(Flat(data))[old(Pos(data, pos)) := Range(front, back)]
    {
      var c, i := data[pos.outer], pos.inner.value;
      var count := c.count - (c.data[i].second - c.data[i].first);
      var e := Chunk(c.data[i := Range(front, back)],
                     if i == 0 then front else c.begin,
                     if i == |c.data| - 1 then back else c.end,
                     count + (back - front));
      RangeReplaced(data, pos, Range(front, back), e);
      data := data[pos.outer := e];
    }

    /** Moves the two ends of a range. */
    method Adjust(pos: Cursor, front: int, back: int)
      requires ChunksOk(data) && OnRange(data, pos)
      modifies this
      ensures ChunksOk(data) && SameShape(old(data), data)
      ensures old(Pos(data, pos)) < |old(Flat(data))|
      ensures Flat(data) == var r := old(At(data, pos));
        old(Flat(data))[old(Pos(data, pos)) := Range(r.first + front, r.second + back)]
    {
      var c, i := data[pos.outer], pos.inner.value;
      var r := Range(c.data[i].first + front, c.data[i].second + back);
      assert ChunkOk(c);
      var e := Chunk(c.data[i := r],
                     if i == 0 then c.begin + front else c.begin,
                     if i == |c.data| - 1 then c.end + back else c.end,
                     c.count + (-front + back));
      RangeReplaced(data, pos, r, e);
      data := data[pos.outer := e];
    }

    /** Moves a range as a whole; its chunk's count stays. */
    method Shift(pos: Cursor, distance: int)
      requires ChunksOk(data) && OnRange(data, pos)
      modifies this
      ensures ChunksOk(data) && SameShape(old(data), data)
      ensures old(Pos(data, pos)) < |old(Flat(data))|
      ensures Flat(data) == var r := old(At(data, pos));
        old(Flat(data))[old(Pos(data, pos)) := Range(r.first + distance, r.second + distance)]
    {
      var c, i := data[pos.outer], pos.inner.value;
      var r := Range(c.data[i].first + distance, c.data[i].second + distance);
      assert ChunkOk(c);
      var e := Chunk(c.data[i := r],
                     if i == 0 then c.begin + distance else c.begin,
                     if i == |c.data| - 1 then c.end + distance else c.end,
                     c.count);
      RangeReplaced(data, pos, r, e);
      data := data[pos.outer := e];
    }

    /** Appends a range, opening a new chunk when the last one is full. */
    method PushBack(value: Range)
      requires ChunksOk(data)
      modifies this
      ensures ChunksOk(data) && Flat(data) == old(Flat(data)) + [value]
    {
      TotalOne(value);
      if data != [] && |data[|data| - 1].data| < MAX_SIZE {
        var o := |data| - 1;
        var c := data[o];
        assert ChunkOk(c);
        TotalSplit(c.data, [value]);
        FlatReplace(data, o, Chunk(c.data + [value], c.begin, value.second, c.count + value.second - value.first));
        FlatAround(data, o);
        data := data[o := Chunk(c.data + [value], c.begin, value.second, c.count + value.second - value.first)];
      } else {
        FlatSplit(data, [Chunk([value], value.first, value.second, value.second - value.first)]);
        data := data + [Chunk([value], value.first, value.second, value.second - value.first)];
      }
    }

    /** Splits a full chunk in half so that a range can be put before `pos`. */
    method EnsureSpace(pos: Cursor) returns (r: Cursor)
      requires ChunksOk(data) && OnRange(data, pos)
      modifies this
      ensures ChunksOk(data) && Flat(data) == old(Flat(data))
      ensures OnRange(data, r) && Pos(data, r) == old(Pos(data, pos))
      ensures |data[r.outer].data| < MAX_SIZE
    {
      var o, offset := pos.outer, pos.inner.value;
      var c := data[o];
      assert ChunkOk(c);
      if |c.data| + 1 <= MAX_SIZE {
        return pos;
      }
      r := Split(pos);
    }

    method Split(pos: Cursor) returns (r: Cursor)
      requires ChunksOk(data) && OnRange(data, pos) && |data[pos.outer].data| == MAX_SIZE
      modifies this
      ensures ChunksOk(data) && Flat(data) == old(Flat(data))
      ensures OnRange(data, r) && Pos(data, r) == old(Pos(data, pos))
      ensures |data[r.outer].data| < MAX_SIZE
    {
      hide Flat, ChunkOk;
      var o, offset := pos.outer, pos.inner.value;
      var c := data[o];
      assert ChunkOk(c);
      var toMove := MAX_SIZE / 2;
      var moved := c.data[|c.data| - toMove..];
      var kept := c.data[..|c.data| - toMove];
      var movedCount := SumLengths(moved);
      var prev := Chunk(kept, c.begin, kept[|kept| - 1].second, c.count - movedCount);
      var next := Chunk(moved, moved[0].first, moved[|moved| - 1].second, movedCount);
      HalvesOk(c, toMove, prev, next);
      ChunkSplit(data, o, prev, next);
      SplitOk(data, o, prev, next);
      data := data[..o] + [prev, next] + data[o + 1..];
      if offset >= toMove {
        r := Cursor(o + 1, Some(offset - toMove));
      } else {
        r := Cursor(o, Some(offset));
      }
    }

    /** Puts a range before `pos`, between neighbours it does not overlap. */
    method Insert(pos: Cursor, value: Range) returns (r: Cursor)
      requires ChunksOk(data) && Ok(data, pos)
      requires Ordered(Flat(data)) && FitsAt(Flat(data), Pos(data, pos), value)
      modifies this
      ensures ChunksOk(data)
      ensures Flat(data) == var p := old(Pos(data, pos));
        old(Flat(data))[..p] + [value] + old(Flat(data))[p..]
      ensures OnRange(data, r) && Pos(data, r) == old(Pos(data, pos))
    {
      hide FitsAt;
      ghost var rs, p := Flat(data), Pos(data, pos);
      EndPos(data);
      if pos.outer == |data| {
        PushBack(value);
        EndPos(data);
        BeginPos(data);
        PrevPos(data, End(data));
        r := Prev(data, End(data));
        assert rs[..p] == rs && rs[p..] == [];
        return;
      }
      r := EnsureSpace(pos);
      InsertInChunk(r, value);
    }

    method InsertInChunk(r: Cursor, value: Range)
      requires ChunksOk(data) && OnRange(data, r) && |data[r.outer].data| < MAX_SIZE
      requires Ordered(Flat(data)) && FitsAt(Flat(data), Pos(data, r), value)
      modifies this
      ensures ChunksOk(data)
      ensures Flat(data) == var p := old(Pos(data, r));
        old(Flat(data))[..p] + [value] + old(Flat(data))[p..]
      ensures OnRange(data, r) && Pos(data, r) == old(Pos(data, r))
    {
      hide Flat, FitsAt, ChunkOk;
      var o, i := r.outer, r.inner.value;
      var c := data[o];
      InsertCacheOk(data, r, value);
      var k := Chunk(c.data[..i] + [value] + c.data[i..], Min(c.begin, value.first),
                     Max(c.end, value.second), c.count + value.second - value.first);
      ChunkSplice(data, o, i, i, [value], k);
      assert data[o := k][..o] == data[..o];
      data := data[o := k];
    }

    /** Takes a range out; an emptied chunk goes with it. */
    method Erase(pos: Cursor) returns (r: Cursor)
      requires ChunksOk(data) && OnRange(data, pos)
      modifies this
      ensures ChunksOk(data)
      ensures old(Pos(data, pos)) < |old(Flat(data))|
      ensures Flat(data) == var p := old(Pos(data, pos));
        old(Flat(data))[..p] + old(Flat(data))[p + 1..]
      ensures Ok(data, r) && Pos(data, r) == old(Pos(data, pos))
    {
      AtPos(data, pos);
      var o, offset := pos.outer, pos.inner.value;
      var c := data[o];
      if |c.data| == 1 {
        DropOnly(data, pos);
        data := data[..o] + data[o + 1..];
        r := FirstOfChunk(data, o);
        return;
      }
      var rest := c.data[..offset] + c.data[offset + 1..];
      var k := Chunk(rest, rest[0].first, rest[|rest| - 1].second,
                     c.count - (c.data[offset].second - c.data[offset].first));
      EraseOne(data, pos, k);
      ErasePos(data, pos, k);
      data := data[o := k];
      if offset < |rest| {
        r := Cursor(o, Some(offset));
      } else {
        r := FirstOfChunk(data, o + 1);
      }
    }

    /** The first range at or after `begin` that ends after `index`. */
    method FindFrom(index: nat, begin: Cursor) returns (r: Cursor)
      requires ChunksOk(data) && Ok(data, begin) && Ordered(Flat(data))
      requires EndBy(Flat(data), Pos(data, begin), index)
      ensures Ok(data, r) && Pos(data, begin) <= Pos(data, r)
      ensures SearchStop(Flat(data), index, Pos(data, r))
    {
      hide Ordered, SearchStop, EndBy, ChunksOk, Flat;
      EndPos(data);
      var o := begin.outer;
      HintedChunk(data, begin, index);
      while o < |data| && data[o].end <= index
        invariant begin.outer <= o <= |data|
        invariant EndBy(Flat(data), |Flat(data[..o])|, index)
      {
        ChunkEndsBy(data, o, index);
        o := o + 1;
      }
      if o == |data| {
        SearchedAll(data, begin, index);
        return End(data);
      }
      if index < data[o].begin {
        r := Cursor(o, Some(0));
        BeforeChunk(data, o, begin, index);
        return;
      }
      ChunkSorted(data, o);
      var low := if o == begin.outer then begin.inner.value else 0;
      LowInChunk(data, o, begin, low);
      var i := LowerBound(data[o].data, low, index);
      r := Cursor(o, Some(i));
      FoundStop(data, r, low, begin, index);
    }

    method Find(index: nat) returns (r: Cursor)
      requires ChunksOk(data) && Ordered(Flat(data))
      ensures Ok(data, r) && SearchStop(Flat(data), index, Pos(data, r))
    {
      BeginOk(data);
      BeginPos(data);
      EndByNone(Flat(data), index);
      r := FindFrom(index, Begin(data));
    }
  }

  /** `std::lower_bound` with the predicate "ends by `index`". */
  method LowerBound(rs: seq<Range>, low: nat, index: nat) returns (i: nat)
    requires low < |rs| && index < rs[|rs| - 1].second
    requires forall a, b :: 0 <= a < b < |rs| ==> rs[a].second <= rs[b].second
    ensures low <= i < |rs| && index < rs[i].second
    ensures forall a :: low <= a < i ==> rs[a].second <= index
  {
    i := low;
    var high := |rs|;
    while i < high
      invariant low <= i <= high <= |rs| && i < |rs|
      invariant forall a :: low <= a < i ==> rs[a].second <= index
      invariant forall a :: high <= a < |rs| ==> index < rs[a].second
    {
      var mid := (i + high) / 2;
      if rs[mid].second <= index {
        i := mid + 1;
      } else {
        high := mid;
      }
    }
  }

  lemma {:induction false} HalvesOk(c: Chunk, toMove: nat, prev: Chunk, next: Chunk)
    requires ChunkOk(c) && 0 < toMove < |c.data|
    requires var k := |c.data| - toMove;
      && next == Chunk(c.data[k..], c.data[k].first, c.data[|c.data| - 1].second, Total(c.data[k..]))
      && prev == Chunk(c.data[..k], c.begin, c.data[k - 1].second, c.count - next.count)
    ensures ChunkOk(prev) && ChunkOk(next) && c.data == prev.data + next.data
  {
    var k := |c.data| - toMove;
    assert c.data == c.data[..k] + c.data[k..];
    TotalSplit(c.data[..k], c.data[k..]);
  }

  method SumLengths(rs: seq<Range>) returns (n: int)
    ensures n == Total(rs)
  {
    n := 0;
    var i := 0;
    while i < |rs|
      invariant i <= |rs| && n == Total(rs[..i])
    {
      assert rs[..i + 1] == rs[..i] + [rs[i]];
      TotalSplit(rs[..i], [rs[i]]);
      TotalOne(rs[i]);
      n := n + rs[i].second - rs[i].first;
      i := i + 1;
    }
    assert rs[..i] == rs;
  }

  lemma {:induction false} DropOnly(d: seq<Chunk>, pos: Cursor)
    requires ChunksOk(d) && OnRange(d, pos) && |d[pos.outer].data| == 1
    ensures var e := d[..pos.outer] + d[pos.outer + 1..];
      && ChunksOk(e) && Pos(d, pos) < |Flat(d)|
      && Flat(e) == Flat(d)[..Pos(d, pos)] + Flat(d)[Pos(d, pos) + 1..]
      && Ok(e, FirstOfChunk(e, pos.outer)) && Pos(e, FirstOfChunk(e, pos.outer)) == Pos(d, pos)
  {
    var o := pos.outer;
    var e := d[..o] + d[o + 1..];
    AtPos(d, pos);
    FlatAround(d, o);
    ChunkDrop(d, o);
    assert e[..o] == d[..o];
    if o < |e| {
      assert e[o] == d[o + 1] && ChunkOk(e[o]);
    }
  }

  /** A chunk after one of several ranges was erased. */
  ghost predicate CacheErased(c: Chunk, i: nat, k: Chunk)
    requires i < |c.data|
  {
    && |c.data| > 1
    && k.data == c.data[..i] + c.data[i + 1..]
    && k.begin == k.data[0].first && k.end == k.data[|k.data| - 1].second
    && k.count == c.count - (c.data[i].second - c.data[i].first)
  }

  lemma {:induction false} ErasedStaysOk(c: Chunk, i: nat, k: Chunk)
    requires i < |c.data| && ChunkOk(c) && CacheErased(c, i, k)
    ensures ChunkOk(k)
  {
    TotalErase(c.data, i);
  }

  lemma {:induction false} FlatErase(d: seq<Chunk>, pos: Cursor, k: Chunk)
    requires OnRange(d, pos)
    requires var m, i := d[pos.outer].data, pos.inner.value; k.data == m[..i] + m[i + 1..]
    ensures Pos(d, pos) < |Flat(d)|
    ensures Flat(d[pos.outer := k]) == Flat(d)[..Pos(d, pos)] + Flat(d)[Pos(d, pos) + 1..]
  {
    var m, i := d[pos.outer].data, pos.inner.value;
    AtPos(d, pos);
    assert k.data == m[..i] + [] + m[i + 1..];
    ChunkSplice(d, pos.outer, i, i + 1, [], k);
    DropEmpty(Flat(d)[..Pos(d, pos)], Flat(d)[Pos(d, pos) + 1..]);
  }

  lemma {:induction false} DropEmpty(a: seq<Range>, b: seq<Range>)
    ensures a + [] + b == a + b
  {
  }

  lemma {:induction false} EraseOne(d: seq<Chunk>, pos: Cursor, k: Chunk)
    requires ChunksOk(d) && OnRange(d, pos) && CacheErased(d[pos.outer], pos.inner.value, k)
    ensures ChunksOk(d[pos.outer := k]) && Pos(d, pos) < |Flat(d)|
    ensures Flat(d[pos.outer := k]) == Flat(d)[..Pos(d, pos)] + Flat(d)[Pos(d, pos) + 1..]
  {
    ErasedStaysOk(d[pos.outer], pos.inner.value, k);
    FlatErase(d, pos, k);
  }

  lemma {:induction false} ErasePos(d: seq<Chunk>, pos: Cursor, k: Chunk)
    requires OnRange(d, pos) && ChunksOk(d) && ChunksOk(d[pos.outer := k])
    requires |k.data| == |d[pos.outer].data| - 1
    ensures var e := d[pos.outer := k];
      var r := if pos.inner.value < |k.data| then pos else FirstOfChunk(e, pos.outer + 1);
      Ok(e, r) && Pos(e, r) == Pos(d, pos)
  {
    var o := pos.outer;
    var e := d[o := k];
    assert e[..o] == d[..o];
    FlatPrefix(e, o);
    if o + 1 < |e| {
      assert ChunkOk(d[o + 1]);
    }
  }

  /** The cached numbers after one range of a chunk was replaced. */
  ghost predicate CacheMoved(c: Chunk, i: nat, r: Range, e: Chunk)
    requires i < |c.data|
  {
    && e.data == c.data[i := r]
    && e.begin == (if i == 0 then r.first else c.begin)
    && e.end == (if i == |c.data| - 1 then r.second else c.end)
    && e.count == c.count - (c.data[i].second - c.data[i].first) + (r.second - r.first)
  }

  lemma {:induction false} CacheStaysOk(c: Chunk, i: nat, r: Range, e: Chunk)
    requires i < |c.data| && ChunkOk(c) && CacheMoved(c, i, r, e)
    ensures ChunkOk(e)
  {
    TotalUpdate(c.data, i, r);
  }

  lemma {:induction false} FlatUpdate(d: seq<Chunk>, pos: Cursor, r: Range, e: Chunk)
    requires OnRange(d, pos) && e.data == d[pos.outer].data[pos.inner.value := r]
    ensures Pos(d, pos) < |Flat(d)|
    ensures Flat(d[pos.outer := e]) == Flat(d)[Pos(d, pos) := r]
  {
    var c, i := d[pos.outer], pos.inner.value;
    AtPos(d, pos);
    assert e.data == c.data[..i] + [r] + c.data[i + 1..];
    ChunkSplice(d, pos.outer, i, i + 1, [r], e);
    UpdateIsSplice(Flat(d), Pos(d, pos), r);
  }

  lemma {:induction false} UpdateIsSplice(rs: seq<Range>, p: nat, r: Range)
    requires p < |rs|
    ensures rs[p := r] == rs[..p] + [r] + rs[p + 1..]
  {
  }

  /** A chunk with one range replaced and its cache recomputed. */
  lemma {:induction false} RangeReplaced(d: seq<Chunk>, pos: Cursor, r: Range, e: Chunk)
    requires ChunksOk(d) && OnRange(d, pos)
    requires CacheMoved(d[pos.outer], pos.inner.value, r, e)
    ensures ChunksOk(d[pos.outer := e]) && SameShape(d, d[pos.outer := e])
    ensures Pos(d, pos) < |Flat(d)|
    ensures Flat(d[pos.outer := e]) == Flat(d)[Pos(d, pos) := r]
  {
    CacheStaysOk(d[pos.outer], pos.inner.value, r, e);
    FlatUpdate(d, pos, r, e);
  }

  /** The flat neighbours bound the chunk's neighbours, so min and max keep the cache right. */
  lemma {:induction false} InsertCacheOk(d: seq<Chunk>, pos: Cursor, value: Range)
    requires ChunksOk(d) && OnRange(d, pos) && |d[pos.outer].data| < MAX_SIZE
    requires Ordered(Flat(d)) && FitsAt(Flat(d), Pos(d, pos), value)
    ensures var c, i := d[pos.outer], pos.inner.value;
      ChunkOk(Chunk(c.data[..i] + [value] + c.data[i..], Min(c.begin, value.first),
                    Max(c.end, value.second), c.count + value.second - value.first))
  {
    var c, i := d[pos.outer], pos.inner.value;
    assert ChunkOk(c);
    TotalInsert(c.data, i, value);
    NeighboursInChunk(d, pos, value);
  }

  lemma {:induction false} NeighboursInChunk(d: seq<Chunk>, pos: Cursor, value: Range)
    requires ChunksOk(d) && OnRange(d, pos)
    requires Ordered(Flat(d)) && FitsAt(Flat(d), Pos(d, pos), value)
    ensures pos.inner.value > 0 ==> d[pos.outer].begin <= value.first
    ensures pos.inner.value == 0 ==> value.second <= d[pos.outer].begin
    ensures value.second <= d[pos.outer].end
  {
    var c := d[pos.outer];
    assert ChunkOk(c);
    var front, back := Cursor(pos.outer, Some(0)), Cursor(pos.outer, Some(|c.data| - 1));
    AtPos(d, front);
    AtPos(d, back);
  }

  /** A chunk that ends by `index` holds only ranges that do. */
  lemma {:induction false} ChunkEndsBy(d: seq<Chunk>, o: nat, index: int)
    requires ChunksOk(d) && o < |d| && Ordered(Flat(d)) && d[o].end <= index
    requires EndBy(Flat(d), |Flat(d[..o])|, index)
    ensures |Flat(d[..o])| < |Flat(d[..o + 1])| <= |Flat(d)|
    ensures EndBy(Flat(d), |Flat(d[..o + 1])|, index)
  {
    var rs := Flat(d);
    var last := Cursor(o, Some(|d[o].data| - 1));
    assert ChunkOk(d[o]);
    FlatPrefix(d, o);
    CutFlat(d, o + 1);
    AtPos(d, last);
    forall i | 0 <= i < |Flat(d[..o + 1])| ensures rs[i].second <= index {
      if |Flat(d[..o])| <= i < Pos(d, last) {
        assert rs[i].second <= rs[Pos(d, last)].first;
      }
    }
  }

  lemma {:induction false} HintedChunk(d: seq<Chunk>, begin: Cursor, index: int)
    requires Ok(d, begin) && EndBy(Flat(d), Pos(d, begin), index)
    ensures EndBy(Flat(d), |Flat(d[..begin.outer])|, index)
  {
  }

  lemma {:induction false} SearchedAll(d: seq<Chunk>, begin: Cursor, index: int)
    requires ChunksOk(d) && Ok(d, begin) && EndBy(Flat(d), |Flat(d[..|d|])|, index)
    ensures Pos(d, begin) <= Pos(d, End(d)) && SearchStop(Flat(d), index, Pos(d, End(d)))
  {
    EndPos(d);
    PosOrder(d, begin, End(d));
  }

  lemma {:induction false} LowInChunk(d: seq<Chunk>, o: nat, begin: Cursor, low: nat)
    requires ChunksOk(d) && o < |d| && Ok(d, begin) && d[o].begin <= d[o].end
    requires low == if o == begin.outer then begin.inner.value else 0
    ensures low < |d[o].data| && d[o].data[|d[o].data| - 1].second == d[o].end
  {
  }

  lemma {:induction false} ChunkSorted(d: seq<Chunk>, o: nat)
    requires o < |d| && Ordered(Flat(d))
    ensures forall a, b :: 0 <= a < b < |d[o].data| ==> d[o].data[a].second <= d[o].data[b].second
  {
    forall a, b | 0 <= a < b < |d[o].data| ensures d[o].data[a].second <= d[o].data[b].second {
      AtPos(d, Cursor(o, Some(a)));
      AtPos(d, Cursor(o, Some(b)));
    }
  }

  /** A search stopping in front of a chunk: a hint inside that chunk can only be its start. */
  lemma {:induction false} BeforeChunk(d: seq<Chunk>, o: nat, begin: Cursor, index: nat)
    requires ChunksOk(d) && Ok(d, begin) && begin.outer <= o < |d| && index < d[o].begin
    requires Ordered(Flat(d))
    requires EndBy(Flat(d), Pos(d, begin), index) && EndBy(Flat(d), |Flat(d[..o])|, index)
    ensures OnRange(d, Cursor(o, Some(0))) && Pos(d, begin) <= Pos(d, Cursor(o, Some(0)))
    ensures SearchStop(Flat(d), index, Pos(d, Cursor(o, Some(0))))
  {
    assert ChunkOk(d[o]);
    AtPos(d, Cursor(o, Some(0)));
    PosOrder(d, begin, Cursor(o, Some(0)));
  }

  lemma {:induction false} FoundStop(d: seq<Chunk>, r: Cursor, low: nat, begin: Cursor, index: nat)
    requires ChunksOk(d) && Ok(d, begin) && OnRange(d, r) && begin.outer <= r.outer
    requires low == if r.outer == begin.outer then begin.inner.value else 0
    requires low <= r.inner.value && index < At(d, r).second
    requires forall a :: low <= a < r.inner.value ==> d[r.outer].data[a].second <= index
    requires EndBy(Flat(d), Pos(d, begin), index) && EndBy(Flat(d), |Flat(d[..r.outer])|, index)
    ensures Pos(d, begin) <= Pos(d, r) && SearchStop(Flat(d), index, Pos(d, r))
  {
    AtPos(d, r);
    PosOrder(d, begin, Cursor(r.outer, Some(0)));
    var base := |Flat(d[..r.outer])|;
    forall i | 0 <= i < Pos(d, r) ensures Flat(d)[i].second <= index {
      if base + low <= i {
        AtPos(d, Cursor(r.outer, Some(i - base)));
      }
    }
  }
}
