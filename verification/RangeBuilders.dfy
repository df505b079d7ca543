/** `ChunkedRangeVectorBuilder`: ranges appended in ascending order, in chunks. */
module RangeBuilders {
  import opened Common
  import opened Ranges
  import opened Chunks
  import opened RangeVectors
  import opened RangeOps

  /** The ranges after appending one: it joins the last if they touch. */
  function Pushed(rs: seq<Range>, r: Range): seq<Range> {
    if rs != [] && rs[|rs| - 1].second == r.first then rs[..|rs| - 1] + [Range(rs[|rs| - 1].first, r.second)]
    else rs + [r]
  }

  function Top(rs: seq<Range>): int {
    if rs == [] then 0 else rs[|rs| - 1].second
  }

  lemma {:induction false} PushedMeans(rs: seq<Range>, r: Range)
    requires Separated(rs) && Top(rs) <= r.first < r.second
    ensures Separated(Pushed(rs, r)) && Top(Pushed(rs, r)) == r.second
    ensures forall x {:trigger In(Pushed(rs, r), x)} :: In(Pushed(rs, r), x) <==> In(rs, x) || Covers(r, x)
  {
    var now := Pushed(rs, r);
    forall x {:trigger In(now, x)} ensures In(now, x) <==> In(rs, x) || Covers(r, x) {
      InOne(r, x);
      InSplit(rs, [r], x);
      if rs != [] {
        var init, last := rs[..|rs| - 1], rs[|rs| - 1];
        assert rs == init + [last];
        InSplit(init, [last], x);
        InOne(last, x);
        InSplit(init, [Range(last.first, r.second)], x);
        InOne(Range(last.first, r.second), x);
      }
    }
  }

  /** Everything but the counts and the end of the last chunk is in place. */
  ghost predicate Filled(d: seq<Chunk>) {
    && (forall i :: 0 <= i < |d| ==> 0 < |d[i].data| <= MAX_SIZE && d[i].begin == d[i].data[0].first)
    && (forall i :: 0 <= i < |d| - 1 ==> |d[i].data| == MAX_SIZE && d[i].end == d[i].data[MAX_SIZE - 1].second)
  }

  ghost predicate CountsRight(d: seq<Chunk>) {
    forall i :: 0 <= i < |d| ==> d[i].count == Total(d[i].data)
  }

  /** The range would open a chunk beyond the planned ones, and is longer than one
      index. */
  predicate Miscounts(d: seq<Chunk>, planned: nat, r: Range) {
    && d != [] && |d| >= planned && r.second - r.first > 1
    && |d[|d| - 1].data| >= MAX_SIZE && d[|d| - 1].data[|d[|d| - 1].data| - 1].second != r.first
  }

  class RangeBuilder {
    /** How many chunks were set up in advance. */
    const planned: nat
    var data: seq<Chunk>

    ghost predicate Valid()
      reads this
    {
      Filled(data) && Separated(Flat(data)) && planned > 0
    }

    constructor (expected: seq<Chunk>)
      ensures Valid() && data == [] && planned == |Flat(expected)| / MAX_SIZE + 1
    {
      planned := |Flat(expected)| / MAX_SIZE + 1;
      data := [];
    }

    /** Same branches as the source; a chunk opened beyond the planned ones gets the
        count 1 whatever the range. */
    method PushBack(range: Range)
      requires Valid() && Top(Flat(data)) <= range.first < range.second
      modifies this
      ensures Valid() && Flat(data) == Pushed(old(Flat(data)), range)
      ensures CountsRight(data) <==> CountsRight(old(data)) && !Miscounts(old(data), planned, range)
    {
      hide Separated, Filled, CountsRight, Flat, Total;
      PushedMeans(Flat(data), range);
      var length := range.second - range.first;
      if data == [] {
        FirstChunk(range);
        data := [Chunk([range], range.first, 0, length)];
        return;
      }
      NotEmpty(data);
      var o := |data| - 1;
      var c := data[o];
      if range.first == c.data[|c.data| - 1].second {
        var last := c.data[|c.data| - 1];
        var k := Chunk(c.data[..|c.data| - 1] + [Range(last.first, range.second)], c.begin, c.end, c.count + length);
        LastGrown(data, k, range);
        data := data[o := k];
      } else if |c.data| < MAX_SIZE {
        var k := Chunk(c.data + [range], c.begin, c.end, c.count + length);
        LastExtended(data, k, range);
        data := data[o := k];
      } else {
        var full := c.(end := c.data[|c.data| - 1].second);
        var extra := Chunk([range], range.first, 0, if |data| >= planned then 1 else length);
        ChunkOpened(data, full, extra, range);
        data := data[o := full] + [extra];
      }
    }

    method PushIndex(index: int)
      requires Valid() && Top(Flat(data)) <= index
      modifies this
      ensures Valid() && Flat(data) == Pushed(old(Flat(data)), Range(index, index + 1))
      ensures CountsRight(data) <==> CountsRight(old(data))
    {
      PushBack(Range(index, index + 1));
    }

    method Finalize() returns (d: seq<Chunk>)
      requires Valid()
      ensures Flat(d) == Flat(data) && (ChunksOk(d) <==> CountsRight(data))
    {
      d := data;
      Closed(data);
      if d != [] {
        var o := |d| - 1;
        d := d[o := d[o].(end := d[o].data[|d[o].data| - 1].second)];
      }
    }
  }

  lemma {:induction false} NotEmpty(d: seq<Chunk>)
    requires Filled(d) && d != []
    ensures 0 < |d[|d| - 1].data| <= MAX_SIZE
  {
  }

  lemma {:induction false} FirstChunk(r: Range)
    ensures var d := [Chunk([r], r.first, 0, r.second - r.first)];
      Filled(d) && CountsRight(d) && Flat(d) == Pushed(Flat([]), r) && CountsRight([])
  {
  }

  lemma {:induction false} Closed(d: seq<Chunk>)
    requires Filled(d)
    ensures d == [] ==> ChunksOk(d) && CountsRight(d)
    ensures d != [] ==>
      var o := |d| - 1;
      var e := d[o := d[o].(end := d[o].data[|d[o].data| - 1].second)];
      Flat(e) == Flat(d) && (ChunksOk(e) <==> CountsRight(d))
  {
    if d != [] {
      var o := |d| - 1;
      var k := d[o].(end := d[o].data[|d[o].data| - 1].second);
      var e := d[o := k];
      FlatAround(d, o);
      FlatReplace(d, o, k);
      assert forall i :: 0 <= i < |d| ==> e[i].data == d[i].data && e[i].count == d[i].count;
      if ChunksOk(e) {
        forall i | 0 <= i < |d| ensures d[i].count == Total(d[i].data) {
          assert ChunkOk(e[i]);
        }
      }
    }
  }

  lemma {:induction false} CountsAlike(d: seq<Chunk>, k: Chunk)
    requires d != [] && k.count - Total(k.data) == d[|d| - 1].count - Total(d[|d| - 1].data)
    ensures CountsRight(d[|d| - 1 := k]) <==> CountsRight(d)
  {
    var e := d[|d| - 1 := k];
    assert forall i :: 0 <= i < |d| - 1 ==> e[i] == d[i];
    if CountsRight(e) {
      assert e[|d| - 1].count == Total(e[|d| - 1].data);
    }
  }

  lemma {:induction false} LastGrown(d: seq<Chunk>, k: Chunk, r: Range)
    requires Filled(d) && d != []
    requires var c := d[|d| - 1]; var last := c.data[|c.data| - 1];
      last.second == r.first
      && k == Chunk(c.data[..|c.data| - 1] + [Range(last.first, r.second)], c.begin, c.end, c.count + r.second - r.first)
    ensures Filled(d[|d| - 1 := k]) && Flat(d[|d| - 1 := k]) == Pushed(Flat(d), r)
    ensures CountsRight(d[|d| - 1 := k]) <==> CountsRight(d)
  {
    hide Flat, Total, Pushed;
    GrownFlat(d, k, r);
    GrownTotal(d[|d| - 1].data, r);
    CountsAlike(d, k);
  }

  lemma {:induction false} GrownFlat(d: seq<Chunk>, k: Chunk, r: Range)
    requires d != [] && d[|d| - 1].data != []
    requires var c := d[|d| - 1]; var last := c.data[|c.data| - 1];
      last.second == r.first && k.data == c.data[..|c.data| - 1] + [Range(last.first, r.second)]
    ensures Flat(d[|d| - 1 := k]) == Pushed(Flat(d), r)
  {
    var o, c := |d| - 1, d[|d| - 1];
    FlatAround(d, o);
    FlatReplace(d, o, k);
    LastOfFlat(d);
    assert d[o + 1..] == [];
    assert Flat(d)[..|Flat(d)| - 1] == Flat(d[..o]) + c.data[..|c.data| - 1];
  }

  lemma {:induction false} GrownTotal(rs: seq<Range>, r: Range)
    requires rs != [] && rs[|rs| - 1].second == r.first
    ensures Total(rs[..|rs| - 1] + [Range(rs[|rs| - 1].first, r.second)]) == Total(rs) + r.second - r.first
  {
    var init, last := rs[..|rs| - 1], rs[|rs| - 1];
    assert rs == init + [last];
    TotalOne(last);
    TotalOne(Range(last.first, r.second));
    TotalSplit(init, [last]);
    TotalSplit(init, [Range(last.first, r.second)]);
  }

  lemma {:induction false} LastExtended(d: seq<Chunk>, k: Chunk, r: Range)
    requires Filled(d) && d != []
    requires var c := d[|d| - 1];
      |c.data| < MAX_SIZE && c.data[|c.data| - 1].second != r.first
      && k == Chunk(c.data + [r], c.begin, c.end, c.count + r.second - r.first)
    ensures Filled(d[|d| - 1 := k]) && Flat(d[|d| - 1 := k]) == Pushed(Flat(d), r)
    ensures CountsRight(d[|d| - 1 := k]) <==> CountsRight(d)
  {
    var o, c := |d| - 1, d[|d| - 1];
    FlatAround(d, o);
    FlatReplace(d, o, k);
    LastOfFlat(d);
    assert d[o + 1..] == [];
    TotalOne(r);
    TotalSplit(c.data, [r]);
    CountsAlike(d, k);
  }

  lemma {:induction false} ChunkOpened(d: seq<Chunk>, full: Chunk, extra: Chunk, r: Range)
    requires Filled(d) && d != [] && r.first < r.second
    requires var c := d[|d| - 1];
      |c.data| == MAX_SIZE && c.data[MAX_SIZE - 1].second != r.first && full == c.(end := c.data[|c.data| - 1].second)
    requires extra.data == [r] && extra.begin == r.first
    ensures Filled(d[|d| - 1 := full] + [extra]) && Flat(d[|d| - 1 := full] + [extra]) == Pushed(Flat(d), r)
    ensures CountsRight(d[|d| - 1 := full] + [extra]) <==> CountsRight(d) && extra.count == r.second - r.first
  {
    var o, c := |d| - 1, d[|d| - 1];
    var e := d[o := full];
    FlatAround(d, o);
    FlatReplace(d, o, full);
    LastOfFlat(d);
    FlatSplit(e, [extra]);
    FlatOne(extra);
    TotalOne(r);
    CountsAlike(d, full);
    var all := e + [extra];
    assert forall i :: 0 <= i < |e| ==> all[i] == e[i];
    if CountsRight(all) {
      assert all[|e|].count == Total(all[|e|].data);
      forall i | 0 <= i < |e| ensures e[i].count == Total(e[i].data) {
        assert all[i].count == Total(all[i].data);
      }
    }
  }

  lemma {:induction false} LastOfFlat(d: seq<Chunk>)
    requires d != [] && d[|d| - 1].data != []
    ensures Flat(d) != [] && Flat(d)[|Flat(d)| - 1] == d[|d| - 1].data[|d[|d| - 1].data| - 1]
  {
    FlatAround(d, |d| - 1);
    assert d[|d| - 1 + 1..] == [];
  }

  /** Every chunk but the last is full, so a new one opens at each multiple of the
      chunk size. */
  lemma {:induction false} ChunkSizes(d: seq<Chunk>)
    requires Filled(d)
    ensures d != [] ==> |Flat(d)| == (|d| - 1) * MAX_SIZE + |d[|d| - 1].data| && |d[|d| - 1].data| <= MAX_SIZE
    ensures d == [] ==> Flat(d) == []
  {
    if |d| > 1 {
      assert Filled(d[1..]);
      assert d[1..][|d[1..]| - 1] == d[|d| - 1];
      ChunkSizes(d[1..]);
    } else if |d| == 1 {
      FlatOne(d[0]);
    }
  }

  /** When the range miscounts, in terms of the flat list. */
  lemma {:induction false} MiscountsWhen(d: seq<Chunk>, planned: nat, r: Range)
    requires Filled(d) && planned > 0
    ensures Miscounts(d, planned, r) <==>
      |Flat(d)| >= planned * MAX_SIZE && |Flat(d)| % MAX_SIZE == 0 && Top(Flat(d)) != r.first && r.second - r.first > 1
  {
    ChunkSizes(d);
    if d != [] {
      assert 0 < |d[|d| - 1].data|;
      LastOfFlat(d);
      var m := |d[|d| - 1].data|;
      assert |Flat(d)| == (|d| - 1) * MAX_SIZE + m;
      assert |Flat(d)| % MAX_SIZE == 0 <==> m == MAX_SIZE;
    }
  }
}
