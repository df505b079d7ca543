/** Ranges stored in chunks, and positions in them. */
module Chunks {
  import opened Common
  import opened Ranges

  /** `max_size` outside debug builds: 4096 / sizeof(pair of size_t). */
  const MAX_SIZE: nat := 256

  datatype Chunk = Chunk(data: seq<Range>, begin: int, end: int, count: int)

  /** The per-chunk part of `verify`. */
  ghost predicate ChunkOk(c: Chunk) {
    && 0 < |c.data| <= MAX_SIZE
    && c.begin == c.data[0].first
    && c.end == c.data[|c.data| - 1].second
    && c.count == Total(c.data)
  }

  ghost predicate ChunksOk(d: seq<Chunk>) {
    forall i :: 0 <= i < |d| ==> ChunkOk(d[i])
  }

  /** All ranges in order. */
  function Flat(d: seq<Chunk>): seq<Range> {
    if d == [] then [] else d[0].data + Flat(d[1..])
  }

  lemma {:induction false} FlatSplit(a: seq<Chunk>, b: seq<Chunk>)
    ensures Flat(a + b) == Flat(a) + Flat(b)
  {
    if a == [] {
      assert a + b == b;
    } else {
      assert (a + b)[1..] == a[1..] + b;
      FlatSplit(a[1..], b);
    }
  }

  lemma {:induction false} FlatOne(c: Chunk)
    ensures Flat([c]) == c.data
  {
  }

  lemma {:induction false} FlatPrefix(d: seq<Chunk>, o: nat)
    requires o < |d|
    ensures Flat(d[..o + 1]) == Flat(d[..o]) + d[o].data
  {
    assert d[..o + 1] == d[..o] + [d[o]];
    FlatSplit(d[..o], [d[o]]);
    FlatOne(d[o]);
  }

  /** The ranges before, in and after chunk `o`. */
  lemma {:induction false} FlatAround(d: seq<Chunk>, o: nat)
    requires o < |d|
    ensures Flat(d) == Flat(d[..o]) + d[o].data + Flat(d[o + 1..])
  {
    FlatPrefix(d, o);
    CutFlat(d, o + 1);
  }

  lemma {:induction false} CutFlat(d: seq<Chunk>, o: nat)
    requires o <= |d|
    ensures Flat(d) == Flat(d[..o]) + Flat(d[o..])
  {
    var a, b := d[..o], d[o..];
    FlatSplit(a, b);
    assert a + b == d;
  }

  lemma {:induction false} FlatReplace(d: seq<Chunk>, o: nat, c: Chunk)
    requires o < |d|
    ensures Flat(d[o := c]) == Flat(d[..o]) + c.data + Flat(d[o + 1..])
  {
    var e := d[o := c];
    FlatAround(e, o);
    assert e[..o] == d[..o] && e[o + 1..] == d[o + 1..];
  }

  // ---------- positions ----------

  /** `m_outer` and `m_inner`: a chunk index, and an offset in that chunk or null. */
  datatype Cursor = Cursor(outer: nat, inner: Option<nat>)

  predicate OnRange(d: seq<Chunk>, c: Cursor) {
    c.outer < |d| && c.inner.Some? && c.inner.value < |d[c.outer].data|
  }

  function End(d: seq<Chunk>): Cursor { Cursor(|d|, None) }

  function Begin(d: seq<Chunk>): Cursor {
    if d == [] then End(d) else Cursor(0, Some(0))
  }

  predicate Ok(d: seq<Chunk>, c: Cursor) {
    c == End(d) || OnRange(d, c)
  }

  /** How many ranges precede the position. */
  ghost function Pos(d: seq<Chunk>, c: Cursor): nat
    requires c.outer <= |d|
  {
    |Flat(d[..c.outer])| + if c.inner.Some? then c.inner.value else 0
  }

  function At(d: seq<Chunk>, c: Cursor): Range
    requires OnRange(d, c)
  {
    d[c.outer].data[c.inner.value]
  }

  function FirstOfChunk(d: seq<Chunk>, o: nat): Cursor
    requires o <= |d|
  {
    Cursor(o, if o != |d| then Some(0) else None)
  }

  /** `operator++`. */
  function Next(d: seq<Chunk>, c: Cursor): Cursor
    requires OnRange(d, c)
  {
    if c.inner.value + 1 == |d[c.outer].data| then FirstOfChunk(d, c.outer + 1)
    else Cursor(c.outer, Some(c.inner.value + 1))
  }

  /** `operator--`. */
  function Prev(d: seq<Chunk>, c: Cursor): Cursor
    requires ChunksOk(d) && Ok(d, c) && c != Begin(d)
  {
    if c.inner.None? || c.inner.value == 0 then Cursor(c.outer - 1, Some(|d[c.outer - 1].data| - 1))
    else Cursor(c.outer, Some(c.inner.value - 1))
  }

  /** The range under the cursor is the one at its position. */
  lemma {:induction false} AtPos(d: seq<Chunk>, c: Cursor)
    requires OnRange(d, c)
    ensures Pos(d, c) < |Flat(d)| && Flat(d)[Pos(d, c)] == At(d, c)
  {
    FlatAround(d, c.outer);
  }

  lemma {:induction false} EndPos(d: seq<Chunk>)
    ensures Pos(d, End(d)) == |Flat(d)|
  {
    assert d[..|d|] == d;
  }

  lemma {:induction false} BeginOk(d: seq<Chunk>)
    requires ChunksOk(d)
    ensures Ok(d, Begin(d))
  {
  }

  lemma {:induction false} BeginPos(d: seq<Chunk>)
    ensures Pos(d, Begin(d)) == 0
  {
  }

  /** Every position is where exactly one cursor stands. */
  lemma {:induction false} PosInjective(d: seq<Chunk>, a: Cursor, b: Cursor)
    requires ChunksOk(d) && Ok(d, a) && Ok(d, b)
    ensures Pos(d, a) == Pos(d, b) <==> a == b
    ensures Pos(d, a) == 0 <==> a == Begin(d)
    ensures Pos(d, a) == |Flat(d)| <==> a == End(d)
  {
    PosOrder(d, a, b);
    PosOrder(d, b, a);
    EndPos(d);
    BeginPos(d);
    PosOrder(d, a, End(d));
    if d != [] {
      PosOrder(d, Begin(d), a);
    }
  }

  lemma {:induction false} PosOrder(d: seq<Chunk>, a: Cursor, b: Cursor)
    requires ChunksOk(d) && Ok(d, a) && Ok(d, b)
    ensures a.outer < b.outer ==> Pos(d, a) < Pos(d, b)
  {
    if a.outer < b.outer {
      FlatPrefix(d, a.outer);
      assert d[..b.outer] == d[..a.outer + 1] + d[a.outer + 1..b.outer];
      FlatSplit(d[..a.outer + 1], d[a.outer + 1..b.outer]);
    }
  }

  lemma {:induction false} NextPos(d: seq<Chunk>, c: Cursor)
    requires ChunksOk(d) && OnRange(d, c)
    ensures Ok(d, Next(d, c)) && Pos(d, Next(d, c)) == Pos(d, c) + 1
  {
    FlatPrefix(d, c.outer);
    if c.outer + 1 < |d| {
      assert ChunkOk(d[c.outer + 1]);
    }
  }

  lemma {:induction false} PrevPos(d: seq<Chunk>, c: Cursor)
    requires ChunksOk(d) && Ok(d, c) && c != Begin(d)
    ensures OnRange(d, Prev(d, c)) && Pos(d, Prev(d, c)) == Pos(d, c) - 1
  {
    if c.inner.None? || c.inner.value == 0 {
      assert ChunkOk(d[c.outer - 1]);
      FlatPrefix(d, c.outer - 1);
    }
  }

  /** Stepping forward and then back returns to the same place, across chunk
      boundaries and from the end; and the other way round. */
  lemma {:induction false} StepsUndo(d: seq<Chunk>, c: Cursor)
    requires ChunksOk(d) && Ok(d, c)
    ensures OnRange(d, c) ==> Ok(d, Next(d, c)) && Next(d, c) != Begin(d) && Prev(d, Next(d, c)) == c
    ensures c != Begin(d) ==> OnRange(d, Prev(d, c)) && Next(d, Prev(d, c)) == c
  {
  }

  // ---------- the iterator object ----------

  /** `ChunkedRangeVectorIterator` over chunks that do not change meanwhile. */
  class ChunkedRangeVectorIterator {
    const chunks: seq<Chunk>
    var outer: nat
    var inner: Option<nat>

    ghost predicate Valid()
      reads this
    {
      ChunksOk(chunks) && Ok(chunks, Here())
    }

    function Here(): Cursor
      reads this
    {
      Cursor(outer, inner)
    }

    constructor (chunks: seq<Chunk>)
      requires ChunksOk(chunks)
      ensures Valid() && this.chunks == chunks && Here() == Begin(chunks)
    {
      this.chunks := chunks;
      outer := 0;
      inner := if chunks == [] then None else Some(0);
    }

    method NextChunk()
      requires Valid() && outer < |chunks|
      modifies this
      ensures Valid() && Here() == FirstOfChunk(chunks, old(outer) + 1)
    {
      outer := outer + 1;
      inner := if outer != |chunks| then Some(0) else None;
    }

    method Increment()
      requires Valid() && OnRange(chunks, Here())
      modifies this
      ensures Valid() && Here() == Next(chunks, old(Here()))
      ensures Pos(chunks, Here()) == old(Pos(chunks, Here())) + 1
    {
      NextPos(chunks, Here());
      ghost var was := Here();
      inner := Some(inner.value + 1);
      if inner.value == |chunks[outer].data| {
        outer := outer + 1;
        inner := if outer != |chunks| then Some(0) else None;
      }
      assert Here() == Next(chunks, was);
    }

    method Decrement()
      requires Valid() && Here() != Begin(chunks)
      modifies this
      ensures Valid() && Here() == Prev(chunks, old(Here()))
      ensures Pos(chunks, Here()) == old(Pos(chunks, Here())) - 1
    {
      PrevPos(chunks, Here());
      ghost var was := Here();
      if inner.None? || inner.value == 0 {
        outer := outer - 1;
        inner := Some(|chunks[outer].data| - 1);
      } else {
        inner := Some(inner.value - 1);
      }
      assert Here() == Prev(chunks, was);
    }
  }

  /** A full pass visits the concatenation of all chunks. */
  method VisitAll(chunks: seq<Chunk>) returns (visited: seq<Range>)
    requires ChunksOk(chunks)
    ensures visited == Flat(chunks)
  {
    visited := [];
    var it := new ChunkedRangeVectorIterator(chunks);
    BeginPos(chunks);
    EndPos(chunks);
    while it.Here() != End(chunks)
      invariant fresh(it) && it.Valid() && it.chunks == chunks
      invariant Pos(chunks, it.Here()) <= |Flat(chunks)|
      invariant visited == Flat(chunks)[..Pos(chunks, it.Here())]
      decreases |Flat(chunks)| - Pos(chunks, it.Here())
    {
      AtPos(chunks, it.Here());
      visited := visited + [At(chunks, it.Here())];
      it.Increment();
    }
  }

  // ---------- iterating over single indices ----------

  /** The indices of one range. */
  function Indices(r: Range): (s: seq<int>)
    ensures |s| == Max(0, r.second - r.first) && forall i :: 0 <= i < |s| ==> s[i] == r.first + i
  {
    seq(Max(0, r.second - r.first), i requires 0 <= i => r.first + i)
  }

  /** The indices of all ranges in order. */
  ghost function AllIndices(rs: seq<Range>): seq<int> {
    if rs == [] then [] else AllIndices(rs[..|rs| - 1]) + Indices(rs[|rs| - 1])
  }

  /** `IndexIterator`: a range position and an offset in that range. */
  datatype IndexCursor = IndexCursor(range: Cursor, offset: nat)

  function IndexNext(d: seq<Chunk>, c: IndexCursor): IndexCursor
    requires OnRange(d, c.range)
  {
    if At(d, c.range).first + c.offset + 1 == At(d, c.range).second then IndexCursor(Next(d, c.range), 0)
    else IndexCursor(c.range, c.offset + 1)
  }

  /** The object behind `as_indexes()`. Equality compares the ranges only. */
  class IndexIterator {
    const chunks: seq<Chunk>
    var here: IndexCursor

    constructor (chunks: seq<Chunk>, at: Cursor)
      ensures this.chunks == chunks && here == IndexCursor(at, 0)
    {
      this.chunks := chunks;
      here := IndexCursor(at, 0);
    }

    function Value(): int
      reads this
      requires OnRange(chunks, here.range)
    {
      At(chunks, here.range).first + here.offset
    }

    predicate SamePlace(at: Cursor)
      reads this
    {
      here.range == at
    }

    method Increment()
      requires OnRange(chunks, here.range)
      modifies this
      ensures here == IndexNext(chunks, old(here))
    {
      here := here.(offset := here.offset + 1);
      if At(chunks, here.range).first + here.offset == At(chunks, here.range).second {
        here := IndexCursor(Next(chunks, here.range), 0);
      }
    }
  }

  /** The indices of the first `p` ranges and of the first `k` places of the next. */
  ghost function UpTo(rs: seq<Range>, p: nat, k: nat): seq<int>
    requires p <= |rs|
  {
    AllIndices(rs[..p]) + if p < |rs| then Indices(Range(rs[p].first, rs[p].first + k)) else []
  }

  /** One step of an index iterator in terms of the range position. */
  lemma {:induction false} UpToStep(rs: seq<Range>, p: nat, k: nat)
    requires p < |rs|
    ensures UpTo(rs, p, k + 1) == UpTo(rs, p, k) + [rs[p].first + k]
  {
  }

  lemma {:induction false} UpToNext(rs: seq<Range>, p: nat, k: nat)
    requires p < |rs|
    requires rs[p].first + k == rs[p].second
    ensures UpTo(rs, p + 1, 0) == UpTo(rs, p, k)
  {
    var q := rs[..p + 1];
    assert q[..|q| - 1] == rs[..p] && q[|q| - 1] == rs[p];
    assert rs[p] == Range(rs[p].first, rs[p].first + k);
    assert UpTo(rs, p + 1, 0) == AllIndices(q);
  }

  /** The step an index iterator makes: within a range, or on to the next one. */
  lemma {:induction false} UpToAdvance(rs: seq<Range>, p: nat, k: nat, q: nat, l: nat)
    requires p < |rs|
    requires if rs[p].first + k + 1 == rs[p].second then q == p + 1 && l == 0 else q == p && l == k + 1
    ensures UpTo(rs, q, l) == UpTo(rs, p, k) + [rs[p].first + k]
  {
    UpToStep(rs, p, k);
    if q == p + 1 {
      UpToNext(rs, p, k + 1);
    }
  }

  lemma {:induction false} UpToEnds(rs: seq<Range>, k: nat)
    ensures UpTo(rs, 0, 0) == []
    ensures UpTo(rs, |rs|, k) == AllIndices(rs)
  {
    assert rs[..|rs|] == rs;
    if rs != [] {
      assert Indices(Range(rs[0].first, rs[0].first)) == [];
    }
  }

  /** What an index position means over the flat ranges. */
  ghost predicate IndexAt(d: seq<Chunk>, c: IndexCursor, p: nat) {
    && Ok(d, c.range) && p == Pos(d, c.range) && p <= |Flat(d)|
    && (OnRange(d, c.range) <==> p < |Flat(d)|)
    && (if p < |Flat(d)| then Flat(d)[p] == At(d, c.range) && Flat(d)[p].first + c.offset < Flat(d)[p].second
        else c.offset == 0)
  }

  lemma {:induction false} CursorAt(d: seq<Chunk>, c: Cursor)
    requires ChunksOk(d) && Separated(Flat(d)) && Ok(d, c)
    ensures IndexAt(d, IndexCursor(c, 0), Pos(d, c))
  {
    EndPos(d);
    if OnRange(d, c) {
      AtPos(d, c);
      assert Flat(d)[Pos(d, c)].first < Flat(d)[Pos(d, c)].second;
    }
  }

  lemma {:induction false} IndexNextAt(d: seq<Chunk>, c: IndexCursor, p: nat)
    requires ChunksOk(d) && Separated(Flat(d)) && IndexAt(d, c, p) && p < |Flat(d)|
    ensures var r := Flat(d)[p];
      if r.first + c.offset + 1 == r.second then
        IndexNext(d, c).offset == 0 && IndexAt(d, IndexNext(d, c), p + 1)
      else
        IndexNext(d, c).offset == c.offset + 1 && IndexAt(d, IndexNext(d, c), p)
  {
    NextPos(d, c.range);
    CursorAt(d, Next(d, c.range));
  }

  /** What is visited before an index position. */
  ghost function Visited(d: seq<Chunk>, c: IndexCursor, p: nat): seq<int>
    requires p <= |Flat(d)|
  {
    UpTo(Flat(d), p, c.offset)
  }

  /** How much of the current range is still to be visited. */
  ghost function Rest(d: seq<Chunk>, c: IndexCursor): int {
    if OnRange(d, c.range) then At(d, c.range).second - At(d, c.range).first - c.offset else 0
  }

  lemma {:induction false} IndexStart(d: seq<Chunk>)
    requires ChunksOk(d) && Separated(Flat(d))
    ensures IndexAt(d, IndexCursor(Begin(d), 0), 0) && Visited(d, IndexCursor(Begin(d), 0), 0) == []
  {
  }

  lemma {:induction false} IndexAdvance(d: seq<Chunk>, c: IndexCursor, p: nat) returns (q: nat)
    requires ChunksOk(d) && Separated(Flat(d)) && IndexAt(d, c, p) && OnRange(d, c.range)
    ensures IndexAt(d, IndexNext(d, c), q)
    ensures Visited(d, IndexNext(d, c), q) == Visited(d, c, p) + [At(d, c.range).first + c.offset]
    ensures p <= q && (p == q ==> Rest(d, IndexNext(d, c)) < Rest(d, c))
  {
    IndexNextAt(d, c, p);
    var r := Flat(d)[p];
    q := if r.first + c.offset + 1 == r.second then p + 1 else p;
    UpToAdvance(Flat(d), p, c.offset, q, IndexNext(d, c).offset);
  }

  lemma {:induction false} IndexEnd(d: seq<Chunk>, c: IndexCursor, p: nat)
    requires ChunksOk(d) && Separated(Flat(d)) && IndexAt(d, c, p) && c.range == End(d)
    ensures Visited(d, c, p) == AllIndices(Flat(d))
  {
    UpToEnds(Flat(d), c.offset);
  }

  /** Stepping an index iterator from begin to end yields every member once, in
      ascending order, and meets `end` only after the last one, although its
      equality ignores the offset. */
  method VisitIndices(chunks: seq<Chunk>) returns (visited: seq<int>)
    requires ChunksOk(chunks) && Separated(Flat(chunks))
    ensures visited == AllIndices(Flat(chunks))
    ensures forall i, j :: 0 <= i < j < |visited| ==> visited[i] < visited[j]
    ensures forall x :: x in visited <==> In(Flat(chunks), x)
  {
    visited := CollectIndices(chunks);
    AllIndicesAscend(Flat(chunks));
  }

  method CollectIndices(chunks: seq<Chunk>) returns (visited: seq<int>)
    requires ChunksOk(chunks) && Separated(Flat(chunks))
    ensures visited == AllIndices(Flat(chunks))
  {
    hide Flat, AllIndices, Visited, ChunksOk, Separated;
    visited := [];
    ghost var p := 0;
    IndexStart(chunks);
    var it := new IndexIterator(chunks, Begin(chunks));
    while !it.SamePlace(End(chunks))
      invariant fresh(it) && it.chunks == chunks && IndexAt(chunks, it.here, p)
      invariant visited == Visited(chunks, it.here, p)
      decreases |Flat(chunks)| - p, Rest(chunks, it.here)
    {
      ghost var q := IndexAdvance(chunks, it.here, p);
      visited := visited + [it.Value()];
      it.Increment();
      p := q;
    }
    IndexEnd(chunks, it.here, p);
  }

  lemma {:induction false} AllIndicesAscend(rs: seq<Range>)
    requires Separated(rs)
    ensures forall i, j :: 0 <= i < j < |AllIndices(rs)| ==> AllIndices(rs)[i] < AllIndices(rs)[j]
    ensures forall x :: x in AllIndices(rs) <==> In(rs, x)
  {
    Ascend(rs);
    AllMembers(rs);
  }

  lemma {:induction false} AllMembers(rs: seq<Range>)
    ensures forall x :: x in AllIndices(rs) <==> In(rs, x)
  {
    if rs != [] {
      var init, last := rs[..|rs| - 1], rs[|rs| - 1];
      AllMembers(init);
      forall x ensures x in AllIndices(rs) <==> In(rs, x) {
        assert rs == init + [last];
        InSplit(init, [last], x);
        assert In([last], x) <==> Covers(last, x);
        if Covers(last, x) {
          assert Indices(last)[x - last.first] == x;
        }
      }
    }
  }

  lemma {:induction false} BoundedByLast(rs: seq<Range>, bound: int)
    requires forall i :: 0 <= i < |rs| ==> rs[i].second <= bound
    ensures forall i :: 0 <= i < |AllIndices(rs)| ==> AllIndices(rs)[i] < bound
  {
    if rs != [] {
      BoundedByLast(rs[..|rs| - 1], bound);
    }
  }

  lemma {:induction false} Ascend(rs: seq<Range>)
    requires Separated(rs)
    ensures forall i, j :: 0 <= i < j < |AllIndices(rs)| ==> AllIndices(rs)[i] < AllIndices(rs)[j]
  {
    if rs != [] {
      var init, last := rs[..|rs| - 1], rs[|rs| - 1];
      Ascend(init);
      BoundedByLast(init, last.first);
      AscendAppend(AllIndices(init), Indices(last), last.first);
    }
  }

  lemma {:induction false} AscendAppend(a: seq<int>, b: seq<int>, bound: int)
    requires forall i, j :: 0 <= i < j < |a| ==> a[i] < a[j]
    requires forall i, j :: 0 <= i < j < |b| ==> b[i] < b[j]
    requires forall i :: 0 <= i < |a| ==> a[i] < bound
    requires forall i :: 0 <= i < |b| ==> bound <= b[i]
    ensures forall i, j :: 0 <= i < j < |a + b| ==> (a + b)[i] < (a + b)[j]
  {
  }
}
