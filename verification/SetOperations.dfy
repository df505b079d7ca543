/** `IndexSet` operations that take another whole set: each is one pass of two
    iterators into a builder. */
module SetOperations {
  import opened Common
  import opened Ranges
  import opened Chunks
  import opened RangeVectors
  import opened RangeOps
  import opened IndexSets
  import opened RangeBuilders

  // ---------- what the operations mean for the members ----------

  /** Each position of the second set is taken out of the index space. */
  ghost predicate ErasedAll(was: seq<Range>, at: seq<Range>, now: seq<Range>) {
    && (forall x {:trigger In(now, x)} :: In(now, x) ==> x >= 0)
    && (forall y {:trigger In(was, y)} {:trigger Rank(at, y)} :: y >= 0 && !In(at, y) ==> (In(now, Rank(at, y)) <==> In(was, y)))
  }

  /** Each position of the second set is opened, as a member if `mark`. */
  ghost predicate OpenedAll(was: seq<Range>, at: seq<Range>, now: seq<Range>, mark: bool) {
    forall y {:trigger In(now, y)} :: In(now, y) <==> y >= 0 && if In(at, y) then mark else In(was, Rank(at, y))
  }

  /** The values outside `past` join the set, each where it lands when the values are
      counted without `past` and then spread over the set's non-members. */
  ghost predicate AddedShifted(was: seq<Range>, past: seq<Range>, values: seq<Range>, now: seq<Range>) {
    && (forall x {:trigger In(now, x)} :: In(now, x) ==> x >= 0)
    && (forall x {:trigger In(now, x)} :: In(was, x) ==> In(now, x))
    && (forall x, o {:trigger In(now, x), In(values, o)} ::
          x >= 0 && o >= 0 && !In(was, x) && !In(past, o) && Rank(was, x) == Rank(past, o) ==> (In(now, x) <==> In(values, o)))
  }

  // ---------- iterators over members ----------

  /** The iterator stands at the first member not below `from`, or at the end. */
  ghost predicate First(d: seq<Chunk>, c: IndexCursor, from: int) {
    && ChunksOk(d) && Separated(Flat(d)) && Ok(d, c.range) && IndexAt(d, c, Pos(d, c.range))
    && (if OnRange(d, c.range) then
          from <= ValueAt(d, c) && In(Flat(d), ValueAt(d, c)) && NoneIn(Flat(d), from, ValueAt(d, c))
        else forall x {:trigger In(Flat(d), x)} :: from <= x ==> !In(Flat(d), x))
  }

  ghost predicate NoneIn(rs: seq<Range>, from: int, to: int) {
    forall x {:trigger In(rs, x)} :: from <= x < to ==> !In(rs, x)
  }

  function ValueAt(d: seq<Chunk>, c: IndexCursor): int
    requires OnRange(d, c.range)
  {
    At(d, c.range).first + c.offset
  }

  /** Where an index position stands among the ranges. */
  lemma {:induction false} Around(rs: seq<Range>, p: nat, v: int, x: int)
    requires Separated(rs) && p <= |rs|
    requires p < |rs| ==> Covers(rs[p], v)
    ensures p < |rs| ==> In(rs, v)
    ensures p < |rs| && In(rs, x) && x > v ==> x < rs[p].second || (p + 1 < |rs| && x >= rs[p + 1].first)
    ensures p == |rs| && rs != [] && In(rs, x) ==> x < rs[|rs| - 1].second
  {
    if p < |rs| {
      IndexIn(rs, v, p);
    }
    if In(rs, x) {
      var i := InIndex(rs, x);
    }
  }

  lemma {:induction false} FirstStart(d: seq<Chunk>)
    requires ChunksOk(d) && Separated(Flat(d))
    ensures First(d, IndexCursor(Begin(d), 0), 0)
  {
    hide Separated, ChunksOk;
    IndexStart(d);
    BeginPos(d);
    var c, rs := IndexCursor(Begin(d), 0), Flat(d);
    forall x {:trigger In(rs, x)} | In(rs, x) ensures rs != [] && x >= rs[0].first {
      AtLeastFirst(rs, x);
    }
    if rs != [] {
      PositiveFirst(rs);
      Around(rs, 0, rs[0].first, 0);
    }
  }

  lemma {:induction false} PositiveFirst(rs: seq<Range>)
    requires Separated(rs) && rs != []
    ensures 0 <= rs[0].first < rs[0].second
  {
  }

  lemma {:induction false} FirstNext(d: seq<Chunk>, c: IndexCursor, from: int)
    requires First(d, c, from) && OnRange(d, c.range)
    ensures First(d, IndexNext(d, c), ValueAt(d, c) + 1)
  {
    hide Separated, ChunksOk;
    var rs, p, v := Flat(d), Pos(d, c.range), ValueAt(d, c);
    IndexNextAt(d, c, p);
    var next := IndexNext(d, c);
    var q := Pos(d, next.range);
    assert q == p || q == p + 1;
    forall x {:trigger In(rs, x)} | In(rs, x) && x > v ensures q < |rs| && rs[q].first + next.offset <= x {
      Around(rs, p, v, x);
    }
    if q < |rs| {
      Around(rs, q, rs[q].first + next.offset, 0);
      Ascending(rs, p, q);
    }
  }

  lemma {:induction false} Ascending(rs: seq<Range>, p: nat, q: nat)
    requires Separated(rs) && p <= q < |rs|
    ensures p < q ==> rs[p].second < rs[q].first
    ensures rs[q].first < rs[q].second
  {
  }

  lemma {:induction false} FirstLater(d: seq<Chunk>, c: IndexCursor, from: int, later: int)
    requires First(d, c, from) && from <= later
    requires OnRange(d, c.range) ==> later <= ValueAt(d, c)
    ensures First(d, c, later)
  {
  }

  /** No member lies past the end of the last range. */
  function EndOf(rs: seq<Range>): int {
    if rs == [] then 0 else rs[|rs| - 1].second
  }

  lemma {:induction false} FirstBounded(d: seq<Chunk>, c: IndexCursor, from: int)
    requires First(d, c, from) && OnRange(d, c.range)
    ensures 0 <= ValueAt(d, c) < EndOf(Flat(d))
  {
  }

  lemma {:induction false} CountFlat(rs: seq<Range>, a: int, b: int)
    requires Ordered(rs) && a <= b && NoneIn(rs, a, b)
    ensures CountBelow(rs, b) == CountBelow(rs, a)
    decreases b - a
  {
    if a < b {
      CountFlat(rs, a, b - 1);
      CountStep(rs, b - 1);
    }
  }

  // ---------- erasing ----------

  /** What the builder holds when everything below `from` is dealt with. */
  ghost predicate ErasedUpTo(was: seq<Range>, at: seq<Range>, out: seq<Range>, from: int) {
    && from >= 0 && Top(out) <= Rank(at, from)
    && (forall x {:trigger In(out, x)} :: In(out, x) ==> 0 <= x < Rank(at, from))
    && (forall y {:trigger In(was, y)} {:trigger Rank(at, y)} ::
          0 <= y < from && !In(at, y) ==> (In(out, Rank(at, y)) <==> In(was, y)))
  }

  lemma {:induction false} ErasedStart(was: seq<Range>, at: seq<Range>)
    requires Ordered(at)
    ensures ErasedUpTo(was, at, [], 0) && CountBelow(at, 0) == 0
  {
    RankZero(at);
  }

  /** Nothing to keep in between. */
  lemma {:induction false} ErasedOn(was: seq<Range>, at: seq<Range>, out: seq<Range>, from: int, to: int)
    requires Ordered(at) && ErasedUpTo(was, at, out, from) && from <= to
    requires forall y {:trigger In(was, y)} :: from <= y < to && !In(at, y) ==> !In(was, y)
    ensures ErasedUpTo(was, at, out, to)
  {
    RankMonotone(at, from, to);
    forall y {:trigger In(was, y)} | 0 <= y < to && !In(at, y) ensures In(out, Rank(at, y)) <==> In(was, y) {
      if from <= y {
        RankMonotone(at, from, y);
      }
    }
  }

  /** A member outside the erased positions moves down by the erased ones below it. */
  lemma {:induction false} ErasedKeep(was: seq<Range>, at: seq<Range>, out: seq<Range>, from: int, a: int)
    requires Ordered(at) && Separated(out) && ErasedUpTo(was, at, out, from) && from <= a
    requires In(was, a) && NoneIn(was, from, a) && NoneIn(at, from, a + 1)
    ensures Rank(at, a) == a - CountBelow(at, from) && CountBelow(at, a + 1) == CountBelow(at, from)
    ensures Top(out) <= Rank(at, a)
    ensures ErasedUpTo(was, at, Pushed(out, Range(Rank(at, a), Rank(at, a) + 1)), a + 1)
  {
    hide Pushed, Separated;
    assert NoneIn(at, from, a) && !In(at, a);
    CountFlat(at, from, a);
    CountFlat(at, from, a + 1);
    ErasedOn(was, at, out, from, a);
    PushedMeans(out, Range(Rank(at, a), Rank(at, a) + 1));
    var now := Pushed(out, Range(Rank(at, a), Rank(at, a) + 1));
    forall y {:trigger In(was, y)} | 0 <= y < a + 1 && !In(at, y) ensures In(now, Rank(at, y)) <==> In(was, y) {
      if y < a {
        RankMonotone(at, y, a);
      }
    }
  }

  lemma {:induction false} ErasedEnd(was: seq<Range>, at: seq<Range>, out: seq<Range>, from: int)
    requires Ordered(at) && ErasedUpTo(was, at, out, from)
    requires forall x {:trigger In(was, x)} :: from <= x ==> !In(was, x)
    ensures ErasedAll(was, at, out)
  {
    forall y {:trigger In(was, y)} | y >= 0 && !In(at, y) ensures In(out, Rank(at, y)) <==> In(was, y) {
      if from <= y {
        RankMonotone(at, from, y);
      }
    }
  }

  lemma {:induction false} ErasedNothing(was: seq<Range>, at: seq<Range>)
    requires Separated(was) && Separated(at) && (was == [] || at == [])
    ensures ErasedAll(was, at, was)
  {
    forall x {:trigger In(was, x)} | In(was, x) ensures x >= 0 {
      AtLeastFirst(was, x);
    }
  }

  /** `erase_at` of a set. */
  method EraseAll(target: IndexSet, positions: IndexSet)
    requires target.Valid() && positions.Valid() && target.vec != positions.vec
    modifies target.vec
    ensures target.Valid() && ErasedAll(old(target.Rs()), positions.Rs(), target.Rs())
  {
    hide Separated, ChunksOk, First, ErasedUpTo, ErasedAll, Flat, CountsRight;
    var d1, d2 := target.vec.data, positions.vec.data;
    ghost var was, at := Flat(d1), Flat(d2);
    GapsKeepOrder(at);
    EmptyFlat(d1);
    EmptyFlat(d2);
    if d1 == [] || d2 == [] {
      ErasedNothing(was, at);
      return;
    }
    var builder := new RangeBuilder(d1);
    NoChunks();
    EraseEach(builder, d1, d2);
    target.vec.data := builder.Finalize();
  }

  /** The loop of `erase_at`. */
  method EraseEach(builder: RangeBuilder, d1: seq<Chunk>, d2: seq<Chunk>)
    requires ChunksOk(d1) && Separated(Flat(d1)) && ChunksOk(d2) && Separated(Flat(d2))
    requires builder.Valid() && builder.data == [] && CountsRight(builder.data)
    modifies builder
    ensures builder.Valid() && CountsRight(builder.data) && ErasedAll(Flat(d1), Flat(d2), Flat(builder.data))
  {
    hide Separated, ChunksOk, First, ErasedUpTo, ErasedAll, Flat, CountsRight;
    ghost var was, at := Flat(d1), Flat(d2);
    NoChunks();
    GapsKeepOrder(at);
    var begin1, begin2 := IndexCursor(Begin(d1), 0), IndexCursor(Begin(d2), 0);
    FirstStart(d1);
    FirstStart(d2);
    ErasedStart(was, at);
    var shift := 0;
    ghost var from := 0;
    while begin1.range != End(d1) && begin2.range != End(d2)
      invariant First(d1, begin1, from) && First(d2, begin2, from) && shift == CountBelow(at, from)
      invariant builder.Valid() && CountsRight(builder.data)
      invariant ErasedUpTo(was, at, Flat(builder.data), from)
      decreases EndOf(was) - from
    {
      FirstFacts(d1, begin1, from);
      FirstFacts(d2, begin2, from);
      FirstNext(d1, begin1, from);
      FirstNext(d2, begin2, from);
      var a, b := ValueAt(d1, begin1), ValueAt(d2, begin2);
      CountFlat(at, from, if a < b then a else b);
      if a < b {
        ErasedKeep(was, at, Flat(builder.data), from, a);
        builder.PushIndex(a - shift);
        FirstLater(d2, begin2, from, a + 1);
        begin1 := IndexNext(d1, begin1);
        from := a + 1;
      } else if a == b {
        ErasedOn(was, at, Flat(builder.data), from, b + 1);
        CountStep(at, b);
        shift := shift + 1;
        begin1, begin2 := IndexNext(d1, begin1), IndexNext(d2, begin2);
        from := b + 1;
      } else {
        ErasedOn(was, at, Flat(builder.data), from, b + 1);
        CountStep(at, b);
        shift := shift + 1;
        FirstLater(d1, begin1, from, b + 1);
        begin2 := IndexNext(d2, begin2);
        from := b + 1;
      }
    }
    KeepRest(builder, d1, begin1, shift, d2, begin2, from);
  }

  /** The last loop of `erase_at`: what lies past the last erased position. */
  method KeepRest(builder: RangeBuilder, d1: seq<Chunk>, from1: IndexCursor, shift: int,
                  ghost d2: seq<Chunk>, ghost from2: IndexCursor, ghost start: int)
    requires First(d1, from1, start) && First(d2, from2, start) && shift == CountBelow(Flat(d2), start)
    requires from1.range == End(d1) || from2.range == End(d2)
    requires builder.Valid() && CountsRight(builder.data)
    requires ErasedUpTo(Flat(d1), Flat(d2), Flat(builder.data), start)
    modifies builder
    ensures builder.Valid() && CountsRight(builder.data) && ErasedAll(Flat(d1), Flat(d2), Flat(builder.data))
  {
    hide Separated, ChunksOk, First, ErasedUpTo, ErasedAll, Flat, CountsRight;
    FirstOrdered(d2, from2, start);
    var begin1 := from1;
    ghost var from := start;
    while begin1.range != End(d1)
      invariant First(d1, begin1, from) && First(d2, from2, from) && shift == CountBelow(Flat(d2), from)
      invariant begin1.range == End(d1) || from2.range == End(d2)
      invariant builder.Valid() && CountsRight(builder.data)
      invariant ErasedUpTo(Flat(d1), Flat(d2), Flat(builder.data), from)
      decreases EndOf(Flat(d1)) - from
    {
      FirstFacts(d1, begin1, from);
      FirstFacts(d2, from2, from);
      FirstNext(d1, begin1, from);
      var a := ValueAt(d1, begin1);
      ErasedKeep(Flat(d1), Flat(d2), Flat(builder.data), from, a);
      builder.PushIndex(a - shift);
      FirstLater(d2, from2, from, a + 1);
      begin1 := IndexNext(d1, begin1);
      from := a + 1;
    }
    FirstFacts(d1, begin1, from);
    ErasedEnd(Flat(d1), Flat(d2), Flat(builder.data), from);
  }

  lemma {:induction false} FirstOrdered(d: seq<Chunk>, c: IndexCursor, from: int)
    requires First(d, c, from)
    ensures ChunksOk(d) && Separated(Flat(d)) && Ordered(Flat(d))
  {
  }

  // ---------- inserting ----------

  /** What the builder holds when every position of the result below `from` is dealt
      with. */
  ghost predicate OpenedUpTo(was: seq<Range>, at: seq<Range>, out: seq<Range>, from: int, mark: bool) {
    && from >= 0 && Top(out) <= from
    && (forall y {:trigger In(out, y)} :: In(out, y) ==> 0 <= y < from)
    && (forall y {:trigger In(out, y)} :: 0 <= y < from ==> (In(out, y) <==> if In(at, y) then mark else In(was, Rank(at, y))))
  }

  lemma {:induction false} OpenedStart(was: seq<Range>, at: seq<Range>, mark: bool)
    requires Ordered(at)
    ensures OpenedUpTo(was, at, [], 0, mark) && CountBelow(at, 0) == 0
  {
    RankZero(at);
  }

  /** Nothing to put in between. */
  lemma {:induction false} OpenedOn(was: seq<Range>, at: seq<Range>, out: seq<Range>, from: int, to: int, mark: bool)
    requires Ordered(at) && OpenedUpTo(was, at, out, from, mark) && from <= to && NoneIn(at, from, to)
    requires NoneIn(was, from - CountBelow(at, from), to - CountBelow(at, from))
    ensures OpenedUpTo(was, at, out, to, mark) && CountBelow(at, to) == CountBelow(at, from)
  {
    CountFlat(at, from, to);
    forall y {:trigger In(out, y)} | from <= y < to ensures !In(at, y) && !In(was, Rank(at, y)) {
      CountFlat(at, from, y);
    }
  }

  /** The next position of the result is a member. */
  lemma {:induction false} OpenedPut(was: seq<Range>, at: seq<Range>, out: seq<Range>, from: int, to: int, mark: bool)
    requires Separated(at) && Separated(out) && OpenedUpTo(was, at, out, from, mark) && from <= to && NoneIn(at, from, to)
    requires NoneIn(was, from - CountBelow(at, from), to - CountBelow(at, from))
    requires if In(at, to) then mark else In(was, to - CountBelow(at, from))
    ensures Top(out) <= to
    ensures OpenedUpTo(was, at, Pushed(out, Range(to, to + 1)), to + 1, mark)
    ensures CountBelow(at, to + 1) == CountBelow(at, from) + if In(at, to) then 1 else 0
  {
    hide Pushed;
    GapsKeepOrder(at);
    OpenedOn(was, at, out, from, to, mark);
    PushedMeans(out, Range(to, to + 1));
    CountStep(at, to);
  }

  /** The next position of the result is an opened one that is left out. */
  lemma {:induction false} OpenedSkip(was: seq<Range>, at: seq<Range>, out: seq<Range>, from: int, to: int)
    requires Ordered(at) && OpenedUpTo(was, at, out, from, false) && from <= to && NoneIn(at, from, to) && In(at, to)
    requires NoneIn(was, from - CountBelow(at, from), to - CountBelow(at, from))
    ensures OpenedUpTo(was, at, out, to + 1, false) && CountBelow(at, to + 1) == CountBelow(at, from) + 1
  {
    OpenedOn(was, at, out, from, to, false);
    CountStep(at, to);
  }

  lemma {:induction false} OpenedEnd(was: seq<Range>, at: seq<Range>, out: seq<Range>, from: int, mark: bool)
    requires Ordered(at) && OpenedUpTo(was, at, out, from, mark)
    requires forall x {:trigger In(was, x)} :: from - CountBelow(at, from) <= x ==> !In(was, x)
    requires forall x {:trigger In(at, x)} :: from <= x ==> !In(at, x) || !mark
    ensures OpenedAll(was, at, out, mark)
  {
    forall y {:trigger In(out, y)} ensures In(out, y) <==> y >= 0 && if In(at, y) then mark else In(was, Rank(at, y)) {
      if from <= y {
        RankMonotone(at, from, y);
      }
    }
  }

  lemma {:induction false} OpenedNothing(was: seq<Range>, at: seq<Range>, mark: bool)
    requires Separated(was) && Separated(at)
    ensures at == [] ==> OpenedAll(was, at, was, mark)
    ensures was == [] ==> OpenedAll(was, at, if mark then at else [], mark)
  {
    forall x {:trigger In(was, x)} | In(was, x) ensures x >= 0 {
      AtLeastFirst(was, x);
    }
    forall x {:trigger In(at, x)} | In(at, x) ensures x >= 0 {
      AtLeastFirst(at, x);
    }
  }

  /** `insert_at` of a set. */
  method InsertAll(target: IndexSet, positions: IndexSet)
    requires target.Valid() && positions.Valid() && target.vec != positions.vec
    modifies target.vec
    ensures target.Valid() && OpenedAll(old(target.Rs()), positions.Rs(), target.Rs(), true)
  {
    hide Separated, ChunksOk, First, OpenedUpTo, OpenedAll, Flat, CountsRight;
    var d1, d2 := target.vec.data, positions.vec.data;
    ghost var was, at := Flat(d1), Flat(d2);
    GapsKeepOrder(at);
    EmptyFlat(d1);
    EmptyFlat(d2);
    OpenedNothing(was, at, true);
    if d2 == [] {
      return;
    }
    if d1 == [] {
      target.vec.data := d2;
      return;
    }
    var builder := new RangeBuilder(d1);
    NoChunks();
    InsertEach(builder, d1, d2);
    target.vec.data := builder.Finalize();
  }

  /** The loop of `insert_at`. */
  method InsertEach(builder: RangeBuilder, d1: seq<Chunk>, d2: seq<Chunk>)
    requires ChunksOk(d1) && Separated(Flat(d1)) && ChunksOk(d2) && Separated(Flat(d2))
    requires builder.Valid() && builder.data == [] && CountsRight(builder.data)
    modifies builder
    ensures builder.Valid() && CountsRight(builder.data) && OpenedAll(Flat(d1), Flat(d2), Flat(builder.data), true)
  {
    hide Separated, ChunksOk, First, OpenedUpTo, OpenedAll, Flat, CountsRight;
    ghost var was, at := Flat(d1), Flat(d2);
    NoChunks();
    GapsKeepOrder(at);
    var begin1, begin2 := IndexCursor(Begin(d1), 0), IndexCursor(Begin(d2), 0);
    FirstStart(d1);
    FirstStart(d2);
    OpenedStart(was, at, true);
    var shift := 0;
    ghost var from := 0;
    while begin1.range != End(d1) && begin2.range != End(d2)
      invariant First(d1, begin1, from - shift) && First(d2, begin2, from) && shift == CountBelow(at, from)
      invariant builder.Valid() && CountsRight(builder.data)
      invariant OpenedUpTo(was, at, Flat(builder.data), from, true)
      decreases EndOf(at) - from
    {
      FirstFacts(d1, begin1, from - shift);
      FirstFacts(d2, begin2, from);
      FirstNext(d1, begin1, from - shift);
      FirstNext(d2, begin2, from);
      var a, b := ValueAt(d1, begin1), ValueAt(d2, begin2);
      var to := if a + shift < b then a + shift else b;
      OpenedPut(was, at, Flat(builder.data), from, to, true);
      builder.PushIndex(to);
      if a + shift < b {
        FirstLater(d2, begin2, from, to + 1);
        begin1 := IndexNext(d1, begin1);
      } else {
        FirstLater(d1, begin1, from - shift, b - shift);
        shift := shift + 1;
        begin2 := IndexNext(d2, begin2);
      }
      from := to + 1;
    }
    InsertRest(builder, d1, begin1, shift, d2, begin2, from);
  }

  /** The two last loops of `insert_at`, of which at most one runs. */
  method InsertRest(builder: RangeBuilder, d1: seq<Chunk>, from1: IndexCursor, shift: int,
                    d2: seq<Chunk>, from2: IndexCursor, ghost start: int)
    requires First(d1, from1, start - shift) && First(d2, from2, start) && shift == CountBelow(Flat(d2), start)
    requires from1.range == End(d1) || from2.range == End(d2)
    requires builder.Valid() && CountsRight(builder.data)
    requires OpenedUpTo(Flat(d1), Flat(d2), Flat(builder.data), start, true)
    modifies builder
    ensures builder.Valid() && CountsRight(builder.data) && OpenedAll(Flat(d1), Flat(d2), Flat(builder.data), true)
  {
    hide Separated, ChunksOk, First, OpenedUpTo, OpenedAll, Flat, CountsRight;
    var begin2 := from2;
    ghost var from := start;
    FirstOrdered(d2, from2, start);
    if from1.range != End(d1) {
      SpreadRest(builder, d1, from1, shift, d2, from2, start, true);
      return;
    }
    while begin2.range != End(d2)
      invariant First(d1, from1, from - CountBelow(Flat(d2), from)) && First(d2, begin2, from)
      invariant builder.Valid() && CountsRight(builder.data)
      invariant OpenedUpTo(Flat(d1), Flat(d2), Flat(builder.data), from, true)
      decreases EndOf(Flat(d2)) - from
    {
      FirstFacts(d1, from1, from - CountBelow(Flat(d2), from));
      FirstFacts(d2, begin2, from);
      FirstNext(d2, begin2, from);
      var b := ValueAt(d2, begin2);
      OpenedPut(Flat(d1), Flat(d2), Flat(builder.data), from, b, true);
      builder.PushIndex(b);
      FirstLater(d1, from1, from - CountBelow(Flat(d2), from), b - CountBelow(Flat(d2), from));
      begin2 := IndexNext(d2, begin2);
      from := b + 1;
    }
    FirstFacts(d1, from1, from - CountBelow(Flat(d2), from));
    FirstFacts(d2, begin2, from);
    OpenedEnd(Flat(d1), Flat(d2), Flat(builder.data), from, true);
  }

  /** `push_back(*begin1 + shift)` for what is left of the first set. */
  method SpreadRest(builder: RangeBuilder, d1: seq<Chunk>, from1: IndexCursor, shift: int,
                    ghost d2: seq<Chunk>, ghost from2: IndexCursor, ghost start: int, ghost mark: bool)
    requires First(d1, from1, start - shift) && First(d2, from2, start) && shift == CountBelow(Flat(d2), start)
    requires from1.range == End(d1) || from2.range == End(d2)
    requires from1.range == End(d1) && from2.range != End(d2) ==> !mark
    requires builder.Valid() && CountsRight(builder.data)
    requires OpenedUpTo(Flat(d1), Flat(d2), Flat(builder.data), start, mark)
    modifies builder
    ensures builder.Valid() && CountsRight(builder.data) && OpenedAll(Flat(d1), Flat(d2), Flat(builder.data), mark)
  {
    hide Separated, ChunksOk, First, OpenedUpTo, OpenedAll, Flat, CountsRight;
    var begin1 := from1;
    ghost var from := start;
    FirstOrdered(d2, from2, start);
    while begin1.range != End(d1)
      invariant First(d1, begin1, from - shift) && First(d2, from2, from) && shift == CountBelow(Flat(d2), from)
      invariant begin1.range == End(d1) || from2.range == End(d2)
      invariant begin1.range == End(d1) && from2.range != End(d2) ==> !mark
      invariant builder.Valid() && CountsRight(builder.data)
      invariant OpenedUpTo(Flat(d1), Flat(d2), Flat(builder.data), from, mark)
      decreases EndOf(Flat(d1)) + shift - from
    {
      FirstFacts(d1, begin1, from - shift);
      FirstFacts(d2, from2, from);
      FirstNext(d1, begin1, from - shift);
      var a := ValueAt(d1, begin1);
      OpenedPut(Flat(d1), Flat(d2), Flat(builder.data), from, a + shift, mark);
      builder.PushIndex(a + shift);
      FirstLater(d2, from2, from, a + shift + 1);
      begin1 := IndexNext(d1, begin1);
      from := a + shift + 1;
    }
    FirstFacts(d1, begin1, from - shift);
    FirstFacts(d2, from2, from);
    OpenedEnd(Flat(d1), Flat(d2), Flat(builder.data), from, mark);
  }

  /** `shift_for_insert_at` of a set. */
  method PartAll(target: IndexSet, positions: IndexSet)
    requires target.Valid() && positions.Valid() && target.vec != positions.vec
    modifies target.vec
    ensures target.Valid() && OpenedAll(old(target.Rs()), positions.Rs(), target.Rs(), false)
  {
    hide Separated, ChunksOk, First, OpenedUpTo, OpenedAll, Flat, CountsRight;
    var d1, d2 := target.vec.data, positions.vec.data;
    ghost var was, at := Flat(d1), Flat(d2);
    GapsKeepOrder(at);
    EmptyFlat(d1);
    EmptyFlat(d2);
    OpenedNothing(was, at, false);
    if d1 == [] || d2 == [] {
      return;
    }
    FirstAndLast(d1, d2);
    if d2[0].begin >= d1[|d1| - 1].end {
      AllBeyond(was, at);
      return;
    }
    var builder := new RangeBuilder(d1);
    NoChunks();
    var begin1, begin2 := IndexCursor(Begin(d1), 0), IndexCursor(Begin(d2), 0);
    FirstStart(d1);
    FirstStart(d2);
    OpenedStart(was, at, false);
    var shift := 0;
    ghost var from := 0;
    while begin1.range != End(d1) && begin2.range != End(d2)
      invariant First(d1, begin1, from - shift) && First(d2, begin2, from) && shift == CountBelow(at, from)
      invariant fresh(builder) && builder.Valid() && CountsRight(builder.data)
      invariant OpenedUpTo(was, at, Flat(builder.data), from, false)
      decreases EndOf(at) - from
    {
      FirstFacts(d1, begin1, from - shift);
      FirstFacts(d2, begin2, from);
      FirstNext(d1, begin1, from - shift);
      FirstNext(d2, begin2, from);
      var a, b := ValueAt(d1, begin1), ValueAt(d2, begin2);
      if a + shift < b {
        OpenedPut(was, at, Flat(builder.data), from, a + shift, false);
        builder.PushIndex(a + shift);
        FirstLater(d2, begin2, from, a + shift + 1);
        begin1 := IndexNext(d1, begin1);
        from := a + shift + 1;
      } else {
        OpenedSkip(was, at, Flat(builder.data), from, b);
        FirstLater(d1, begin1, from - shift, b - shift);
        shift := shift + 1;
        begin2 := IndexNext(d2, begin2);
        from := b + 1;
      }
    }
    SpreadRest(builder, d1, begin1, shift, d2, begin2, from, false);
    target.vec.data := builder.Finalize();
  }

  lemma {:induction false} FirstAndLast(d: seq<Chunk>, e: seq<Chunk>)
    requires ChunksOk(d) && ChunksOk(e) && d != [] && e != []
    ensures Flat(d) != [] && Flat(e) != []
    ensures d[|d| - 1].end == Flat(d)[|Flat(d)| - 1].second && e[0].begin == Flat(e)[0].first
  {
    assert ChunkOk(d[|d| - 1]) && ChunkOk(e[0]);
    LastOfFlat(d);
    EmptyFlat(e);
  }

  /** Positions opened past the last member move nothing. */
  lemma {:induction false} AllBeyond(was: seq<Range>, at: seq<Range>)
    requires Separated(was) && Separated(at) && was != [] && at != [] && was[|was| - 1].second <= at[0].first
    ensures OpenedAll(was, at, was, false)
  {
    var end := was[|was| - 1].second;
    GapsKeepOrder(at);
    CountNone(at, end);
    forall y {:trigger In(was, y)} ensures In(was, y) <==> y >= 0 && if In(at, y) then false else In(was, Rank(at, y)) {
      if In(was, y) {
        AtLeastFirst(was, y);
      }
      if In(at, y) {
        AtLeastFirst(at, y);
      }
      if y < end {
        CountNone(at, y);
      } else if y >= 0 && In(was, Rank(at, y)) {
        AtLeastFirst(was, Rank(at, y));
        RankMonotone(at, end, y);
      }
    }
  }

  lemma {:induction false} NoChunks()
    ensures Flat([]) == [] && CountsRight([])
  {
  }

  lemma {:induction false} EmptyFlat(d: seq<Chunk>)
    requires ChunksOk(d)
    ensures Flat(d) == [] <==> d == []
  {
  }

  lemma {:induction false} FirstFacts(d: seq<Chunk>, c: IndexCursor, from: int)
    requires First(d, c, from)
    ensures Ok(d, c.range) && (OnRange(d, c.range) <==> c.range != End(d))
    ensures OnRange(d, c.range) ==>
      from <= ValueAt(d, c) < EndOf(Flat(d)) && In(Flat(d), ValueAt(d, c)) && NoneIn(Flat(d), from, ValueAt(d, c))
    ensures !OnRange(d, c.range) ==> forall x {:trigger In(Flat(d), x)} :: from <= x ==> !In(Flat(d), x)
  {
    if OnRange(d, c.range) {
      FirstBounded(d, c, from);
    }
  }

  // ---------- removing ----------

  ghost predicate Without(was: seq<Range>, values: seq<Range>, now: seq<Range>) {
    forall x {:trigger In(now, x)} :: In(now, x) <==> In(was, x) && !In(values, x)
  }

  /** `remove` of a set: each search goes on from where the last removal ended. */
  method RemoveAll(target: IndexSet, values: IndexSet)
    requires target.Valid() && values.Valid() && target.vec != values.vec
    modifies target.vec
    ensures target.Valid() && Without(old(target.Rs()), values.Rs(), target.Rs())
  {
    hide Separated, ChunksOk, Flat, RemoveSpec, Without, EndBy;
    var d2 := values.vec.data;
    ghost var was, rs := target.Rs(), Flat(d2);
    var it := Begin(target.vec.data);
    BeginOk(target.vec.data);
    BeginPos(target.vec.data);
    EndByNone(target.Rs(), 0);
    WithoutNone(was, rs);
    BeginOk(d2);
    var c := Begin(d2);
    StopHere(d2, c);
    ghost var below := 0;
    while c != End(d2)
      invariant target.Valid() && Ok(d2, c) && Pos(d2, c) <= |rs| && (c == End(d2) <==> Pos(d2, c) == |rs|)
      invariant Ok(target.vec.data, it) && EndBy(target.Rs(), Pos(target.vec.data, it), below)
      invariant below == if Pos(d2, c) == 0 then 0 else rs[Pos(d2, c) - 1].second
      invariant Without(was, rs[..Pos(d2, c)], target.Rs())
      decreases |rs| - Pos(d2, c)
    {
      StopHere(d2, c);
      ghost var q, now := Pos(d2, c), target.Rs();
      Neighbours(rs, q);
      var range := At(d2, c);
      EndByLater(now, Pos(target.vec.data, it), below, range.first);
      it := target.DoRemove(it, range.first, range.second);
      below := range.second;
      WithoutNext(was, rs, q, now, target.Rs());
      if it == End(target.vec.data) {
        StopHere(target.vec.data, it);
        WithoutEnd(was, rs, q + 1, target.Rs());
        return;
      }
      NextPos(d2, c);
      c := Next(d2, c);
      StopHere(d2, c);
    }
    assert rs[..|rs|] == rs;
  }

  lemma {:induction false} WithoutNone(was: seq<Range>, values: seq<Range>)
    ensures Without(was, values[..0], was)
  {
  }

  lemma {:induction false} EndByLater(rs: seq<Range>, p: nat, x: int, y: int)
    requires EndBy(rs, p, x) && x <= y
    ensures EndBy(rs, p, y)
  {
  }

  lemma {:induction false} WithoutNext(was: seq<Range>, values: seq<Range>, q: nat, now: seq<Range>, next: seq<Range>)
    requires q < |values| && Without(was, values[..q], now)
    requires RemoveSpec(now, next, values[q].first, values[q].second - values[q].first)
    ensures Without(was, values[..q + 1], next)
  {
    hide In;
    assert values[..q + 1] == values[..q] + [values[q]];
    forall x {:trigger In(next, x)} ensures In(next, x) <==> In(was, x) && !In(values[..q + 1], x) {
      InSplit(values[..q], [values[q]], x);
      InOne(values[q], x);
    }
  }

  lemma {:induction false} WithoutEnd(was: seq<Range>, values: seq<Range>, q: nat, now: seq<Range>)
    requires Separated(values) && 0 < q <= |values| && Without(was, values[..q], now)
    requires EndBy(now, |now|, values[q - 1].second)
    ensures Without(was, values, now)
  {
    assert values == values[..q] + values[q..];
    forall x {:trigger In(now, x)} ensures In(now, x) <==> In(was, x) && !In(values, x) {
      InSplit(values[..q], values[q..], x);
      if In(now, x) {
        var i := InIndex(now, x);
        assert x < values[q - 1].second;
        forall k | 0 <= k < |values[q..]| ensures !Covers(values[q..][k], x) {
          assert values[q..][k] == values[q + k];
        }
        NotIn(values[q..], x);
      }
    }
  }

  // ---------- adding ----------

  /** `add` of a set: each search goes on from where the last addition was made. */
  method AddAll(target: IndexSet, other: IndexSet)
    requires target.Valid() && other.Valid() && target.vec != other.vec
    modifies target.vec
    ensures target.Valid() && Both(old(target.Rs()), other.Rs(), target.Rs())
  {
    hide Separated, ChunksOk, First, Flat, EndBy, AddSpec, SearchStop, Joined;
    var d2 := other.vec.data;
    ghost var was := target.Rs();
    var it := Begin(target.vec.data);
    BeginOk(target.vec.data);
    BeginPos(target.vec.data);
    EndByNone(was, 0);
    FirstStart(d2);
    JoinedStart(was, Flat(d2));
    var c := IndexCursor(Begin(d2), 0);
    ghost var from := 0;
    while c.range != End(d2)
      invariant target.Valid() && First(d2, c, from) && Joined(was, Flat(d2), target.Rs(), from)
      invariant Ok(target.vec.data, it) && EndBy(target.Rs(), Pos(target.vec.data, it), from)
      decreases EndOf(Flat(d2)) - from
    {
      FirstFacts(d2, c, from);
      FirstNext(d2, c, from);
      FirstBounded(d2, c, from);
      var index := ValueAt(d2, c);
      ghost var now := target.Rs();
      GapsKeepOrder(now);
      EndByHigher(now, Pos(target.vec.data, it), from, index);
      var at := target.vec.FindFrom(index, it);
      it := target.DoAdd(at, index);
      JoinedNext(was, Flat(d2), now, target.Rs(), from, index);
      EndsBefore(target.Rs(), Pos(target.vec.data, it), index);
      c := IndexNext(d2, c);
      from := index + 1;
    }
    FirstFacts(d2, c, from);
    JoinedEnd(was, Flat(d2), target.Rs(), from);
  }

  ghost predicate Joined(was: seq<Range>, other: seq<Range>, now: seq<Range>, from: int) {
    forall x {:trigger In(now, x)} :: In(now, x) <==> In(was, x) || (x < from && In(other, x))
  }

  lemma {:induction false} JoinedStart(was: seq<Range>, other: seq<Range>)
    requires Separated(other)
    ensures Joined(was, other, was, 0)
  {
    forall x {:trigger In(was, x)} ensures In(other, x) ==> x >= 0 {
      if In(other, x) {
        AtLeastFirst(other, x);
      }
    }
  }

  lemma {:induction false} JoinedNext(was: seq<Range>, other: seq<Range>, now: seq<Range>, next: seq<Range>, from: int, index: int)
    requires Joined(was, other, now, from) && AddSpec(now, next, index) && from <= index
    requires In(other, index) && NoneIn(other, from, index)
    ensures Joined(was, other, next, index + 1)
  {
  }

  lemma {:induction false} JoinedEnd(was: seq<Range>, other: seq<Range>, now: seq<Range>, from: int)
    requires Joined(was, other, now, from) && forall x {:trigger In(other, x)} :: from <= x ==> !In(other, x)
    ensures forall x {:trigger In(now, x)} :: In(now, x) <==> In(was, x) || In(other, x)
  {
  }

  lemma {:induction false} EndsBefore(rs: seq<Range>, r: nat, index: int)
    requires Separated(rs) && r < |rs| && Covers(rs[r], index)
    ensures EndBy(rs, r, index + 1)
  {
  }

  // ---------- adding shifted values ----------

  /** Where a value outside `past` lands among the non-members. */
  ghost predicate Landed(was: seq<Range>, past: seq<Range>, values: seq<Range>, from: int, x: int) {
    x >= 0 && !In(was, x) && exists o :: Lands(was, past, values, from, x, o)
  }

  ghost predicate Lands(was: seq<Range>, past: seq<Range>, values: seq<Range>, from: int, x: int, o: int) {
    0 <= o < from && In(values, o) && !In(past, o) && Rank(was, x) == Rank(past, o)
  }

  /** What the builder holds when every value below `from` is dealt with and the first
      `p` old ranges have been passed. */
  ghost predicate ShiftedUpTo(was: seq<Range>, past: seq<Range>, values: seq<Range>, out: seq<Range>, from: int, p: nat) {
    && p <= |was| && from >= 0
    && Top(out) <= Rank(past, from) + Total(was[..p])
    && EndBy(was, p, Rank(past, from) + Total(was[..p]))
    && (p < |was| ==> Top(out) <= was[p].first)
    && (forall x {:trigger In(out, x)} :: In(out, x) <==> In(was[..p], x) || Landed(was, past, values, from, x))
  }

  lemma {:induction false} ShiftedStart(was: seq<Range>, past: seq<Range>, values: seq<Range>)
    requires Separated(was) && Separated(past)
    ensures ShiftedUpTo(was, past, values, [], 0, 0)
  {
    GapsKeepOrder(past);
    RankZero(past);
  }

  /** A value in `past` does not count. */
  lemma {:induction false} ShiftedSkip(was: seq<Range>, past: seq<Range>, values: seq<Range>, out: seq<Range>, from: int, p: nat,
                                       index: int)
    requires Ordered(past) && ShiftedUpTo(was, past, values, out, from, p) && from <= index
    requires NoneIn(values, from, index) && In(past, index)
    ensures ShiftedUpTo(was, past, values, out, index + 1, p)
  {
    RankMonotone(past, from, index + 1);
    EndByHigher(was, p, Rank(past, from) + Total(was[..p]), Rank(past, index + 1) + Total(was[..p]));
    forall x ensures Landed(was, past, values, index + 1, x) <==> Landed(was, past, values, from, x) {
      if Landed(was, past, values, index + 1, x) {
        var o :| Lands(was, past, values, index + 1, x, o);
        assert o != index && !(from <= o < index);
        assert Lands(was, past, values, from, x, o);
      }
      if Landed(was, past, values, from, x) {
        var o :| Lands(was, past, values, from, x, o);
        assert Lands(was, past, values, index + 1, x, o);
      }
    }
  }

  /** The old ranges up to the landing place have gone into the builder. */
  ghost predicate Passed(was: seq<Range>, past: seq<Range>, values: seq<Range>, out: seq<Range>, from: int, p: nat, target: int) {
    && p <= |was| && Top(out) <= target + Total(was[..p])
    && EndBy(was, p, target + Total(was[..p]))
    && (p < |was| ==> Top(out) <= was[p].first)
    && (forall x {:trigger In(out, x)} :: In(out, x) <==> In(was[..p], x) || Landed(was, past, values, from, x))
  }

  lemma {:induction false} PassNext(was: seq<Range>, past: seq<Range>, values: seq<Range>, out: seq<Range>, from: int, p: nat,
                                    target: int)
    requires Separated(was) && Separated(out) && Passed(was, past, values, out, from, p, target)
    requires p < |was| && was[p].first <= target + Total(was[..p])
    ensures Passed(was, past, values, Pushed(out, was[p]), from, p + 1, target)
    ensures Top(out) <= was[p].first < was[p].second
  {
    hide Pushed, Landed;
    TotalNext(was, p);
    PushedMeans(out, was[p]);
    EndByNext(was, p, target + Total(was[..p]), target + Total(was[..p + 1]));
    var now := Pushed(out, was[p]);
    forall x {:trigger In(now, x)} ensures In(now, x) <==> In(was[..p + 1], x) || Landed(was, past, values, from, x) {
      assert was[..p + 1] == was[..p] + [was[p]];
      InSplit(was[..p], [was[p]], x);
      InOne(was[p], x);
    }
  }

  /** The value goes to its landing place. */
  lemma {:induction false} ShiftedPut(was: seq<Range>, past: seq<Range>, values: seq<Range>, out: seq<Range>, from: int, p: nat,
                                      index: int)
    requires Separated(was) && Separated(past) && Separated(out) && 0 <= from <= index
    requires Passed(was, past, values, out, from, p, Rank(past, index))
    requires NoneIn(values, from, index) && In(values, index) && !In(past, index)
    requires p < |was| ==> Rank(past, index) + Total(was[..p]) < was[p].first
    ensures var s := Rank(past, index) + Total(was[..p]);
      && Top(out) <= s && ShiftedUpTo(was, past, values, Pushed(out, Range(s, s + 1)), index + 1, p)
      && IsShifted(was, Rank(past, index), s) && Top(Pushed(out, Range(s, s + 1))) == s + 1 && s >= 0
  {
    hide Pushed, Landed, Lands;
    GapsKeepOrder(was);
    GapsKeepOrder(past);
    var s := Rank(past, index) + Total(was[..p]);
    PushedMeans(out, Range(s, s + 1));
    CountStep(past, index);
    RankZero(past);
    RankMonotone(past, 0, index);
    StopHereAt(was, p, s);
    TotalsPositive(was, p);
    ShiftStop(was, Rank(past, index), p, s);
    EndByHigher(was, p, s, s + 1);
    var now := Pushed(out, Range(s, s + 1));
    forall x {:trigger In(now, x)} ensures In(now, x) <==> In(was[..p], x) || Landed(was, past, values, index + 1, x) {
      LandedNext(was, past, values, from, index, s, x);
    }
  }

  lemma {:induction false} StopHereAt(was: seq<Range>, p: nat, s: int)
    requires Separated(was) && EndBy(was, p, s) && (p < |was| ==> s < was[p].first)
    ensures SearchStop(was, s, p)
  {
  }

  lemma {:induction false} TotalsPositive(was: seq<Range>, p: nat)
    requires Separated(was) && p <= |was|
    ensures Total(was[..p]) >= 0
  {
    TotalNonNegative(was[..p]);
  }

  lemma {:induction false} LandedNext(was: seq<Range>, past: seq<Range>, values: seq<Range>, from: int, index: int, s: int, x: int)
    requires Ordered(was) && 0 <= from <= index && s >= 0
    requires NoneIn(values, from, index) && In(values, index) && !In(past, index)
    requires IsShifted(was, Rank(past, index), s)
    ensures Landed(was, past, values, index + 1, x) <==> Landed(was, past, values, from, x) || x == s
  {
    if x == s {
      assert Lands(was, past, values, index + 1, x, index);
    }
    if Landed(was, past, values, from, x) {
      var o :| Lands(was, past, values, from, x, o);
      assert Lands(was, past, values, index + 1, x, o);
    }
    if Landed(was, past, values, index + 1, x) {
      var o :| Lands(was, past, values, index + 1, x, o);
      if o == index {
        ShiftedUnique(was, Rank(past, index), x, s);
      } else {
        assert o < from;
        assert Lands(was, past, values, from, x, o);
      }
    }
  }

  /** With all values dealt with and the rest of the old ranges copied. */
  lemma {:induction false} ShiftedEnd(was: seq<Range>, past: seq<Range>, values: seq<Range>, out: seq<Range>, now: seq<Range>,
                                      from: int, p: nat)
    requires Separated(was) && Separated(past) && ShiftedUpTo(was, past, values, out, from, p)
    requires forall x {:trigger In(values, x)} :: from <= x ==> !In(values, x)
    requires Both(out, was[p..], now)
    ensures AddedShifted(was, past, values, now)
  {
    GapsKeepOrder(past);
    forall x {:trigger In(now, x)} ensures In(now, x) <==> In(was, x) || Landed(was, past, values, from, x) {
      AroundSplit(was, p, x);
    }
    forall x {:trigger In(now, x)} | In(now, x) ensures x >= 0 {
      if In(was, x) {
        AtLeastFirst(was, x);
      }
    }
    forall x, o {:trigger In(now, x), In(values, o)}
      | x >= 0 && o >= 0 && !In(was, x) && !In(past, o) && Rank(was, x) == Rank(past, o)
      ensures In(now, x) <==> In(values, o)
    {
      if In(values, o) {
        assert Lands(was, past, values, from, x, o);
      }
      if In(now, x) {
        var o' :| Lands(was, past, values, from, x, o');
        ShiftedUnique(past, Rank(was, x), o, o');
      }
    }
  }

  ghost predicate Both(a: seq<Range>, b: seq<Range>, now: seq<Range>) {
    forall x {:trigger In(now, x)} :: In(now, x) <==> In(a, x) || In(b, x)
  }

  /** How far the iterator over `past` has come: all ranges that start by `index`. */
  ghost predicate PastWalk(past: seq<Range>, q: nat, index: int, shift: int, skip: int) {
    && q <= |past| && shift == Total(past[..q]) && skip == (if q == 0 then 0 else past[q - 1].second)
    && (q > 0 ==> past[q - 1].first <= index)
  }

  lemma {:induction false} PastWalkDone(past: seq<Range>, q: nat, index: int, shift: int, skip: int)
    requires Separated(past) && PastWalk(past, q, index, shift, skip) && index >= 0
    requires q < |past| ==> index < past[q].first
    ensures In(past, index) <==> index < skip
    ensures index >= skip ==> Rank(past, index) == index - shift
  {
    GapsKeepOrder(past);
    if index < skip {
      IndexIn(past, index, q - 1);
    } else {
      assert SearchStop(past, index, q);
      AtStop(past, index, q);
    }
  }

  lemma {:induction false} PastWalkNext(past: seq<Range>, q: nat, index: int, shift: int, skip: int)
    requires PastWalk(past, q, index, shift, skip) && q < |past| && past[q].first <= index
    ensures PastWalk(past, q + 1, index, shift + past[q].second - past[q].first, past[q].second)
  {
    TotalNext(past, q);
  }

  /** Advances over the ranges of `past` that start by the index. */
  method WalkPast(d: seq<Chunk>, from: Cursor, index: int, ghost was: int, shift0: int, skip0: int)
    returns (it: Cursor, shift: int, skip: int)
    requires ChunksOk(d) && Ok(d, from) && was <= index
    requires PastWalk(Flat(d), Pos(d, from), was, shift0, skip0)
    ensures Ok(d, it) && PastWalk(Flat(d), Pos(d, it), index, shift, skip)
    ensures Pos(d, it) < |Flat(d)| ==> index < Flat(d)[Pos(d, it)].first
  {
    hide ChunksOk, Flat, Total;
    it, shift, skip := from, shift0, skip0;
    StopHere(d, it);
    while it != End(d) && At(d, it).first <= index
      invariant Ok(d, it) && PastWalk(Flat(d), Pos(d, it), index, shift, skip)
      invariant OnRange(d, it) ==> Pos(d, it) < |Flat(d)| && At(d, it) == Flat(d)[Pos(d, it)]
      invariant it == End(d) <==> Pos(d, it) == |Flat(d)|
      decreases |Flat(d)| - Pos(d, it)
    {
      PastWalkNext(Flat(d), Pos(d, it), index, shift, skip);
      shift := shift + (At(d, it).second - At(d, it).first);
      skip := At(d, it).second;
      NextPos(d, it);
      it := Next(d, it);
      StopHere(d, it);
    }
  }

  /** `for (i = first; i < second; ++i) push_back(i)`. */
  method PushEach(builder: RangeBuilder, r: Range)
    requires builder.Valid() && Top(Flat(builder.data)) <= r.first < r.second
    modifies builder
    ensures builder.Valid() && Flat(builder.data) == Pushed(old(Flat(builder.data)), r)
    ensures CountsRight(builder.data) <==> old(CountsRight(builder.data))
  {
    hide Separated, Filled, CountsRight, Flat;
    ghost var was := Flat(builder.data);
    PushedMeans(was, Range(r.first, r.first + 1));
    builder.PushIndex(r.first);
    var i := r.first + 1;
    while i < r.second
      invariant r.first < i <= r.second && builder.Valid()
      invariant Flat(builder.data) == Pushed(was, Range(r.first, i))
      invariant CountsRight(builder.data) <==> old(CountsRight(builder.data))
    {
      PushedMeans(was, Range(r.first, i));
      PushedOn(was, r.first, i);
      builder.PushIndex(i);
      i := i + 1;
    }
  }

  lemma {:induction false} PushedOn(rs: seq<Range>, first: int, i: int)
    requires first < i
    ensures Pushed(Pushed(rs, Range(first, i)), Range(i, i + 1)) == Pushed(rs, Range(first, i + 1))
  {
  }

  /** Passes the old ranges that start by the landing place. */
  method PassOld(builder: RangeBuilder, d: seq<Chunk>, from: Cursor, shift0: int, aim: int,
                 ghost past: seq<Range>, ghost values: seq<Range>, ghost below: int)
    returns (it: Cursor, shift: int)
    requires ChunksOk(d) && Separated(Flat(d)) && Ok(d, from) && builder.Valid()
    requires Passed(Flat(d), past, values, Flat(builder.data), below, Pos(d, from), aim)
    requires shift0 == Total(Flat(d)[..Pos(d, from)])
    modifies builder
    ensures builder.Valid() && (CountsRight(builder.data) <==> old(CountsRight(builder.data)))
    ensures Ok(d, it) && Pos(d, it) <= |Flat(d)| && shift == Total(Flat(d)[..Pos(d, it)])
    ensures Passed(Flat(d), past, values, Flat(builder.data), below, Pos(d, it), aim)
    ensures Pos(d, it) < |Flat(d)| ==> aim + shift < Flat(d)[Pos(d, it)].first
  {
    hide ChunksOk, Flat, Total, Passed, Separated, CountsRight, Filled;
    it, shift := from, shift0;
    StopHere(d, it);
    while it != End(d) && At(d, it).first <= aim + shift
      invariant Ok(d, it) && builder.Valid() && Pos(d, it) <= |Flat(d)| && shift == Total(Flat(d)[..Pos(d, it)])
      invariant Passed(Flat(d), past, values, Flat(builder.data), below, Pos(d, it), aim)
      invariant CountsRight(builder.data) <==> old(CountsRight(builder.data))
      invariant OnRange(d, it) ==> Pos(d, it) < |Flat(d)| && At(d, it) == Flat(d)[Pos(d, it)]
      invariant it == End(d) <==> Pos(d, it) == |Flat(d)|
      decreases |Flat(d)| - Pos(d, it)
    {
      PassNext(Flat(d), past, values, Flat(builder.data), below, Pos(d, it), aim);
      TotalNext(Flat(d), Pos(d, it));
      PushEach(builder, At(d, it));
      shift := shift + (At(d, it).second - At(d, it).first);
      NextPos(d, it);
      it := Next(d, it);
      StopHere(d, it);
    }
  }

  /** A range longer than one index, with nothing new at or above it, stands where a
      chunk beyond the planned ones begins. */
  ghost predicate LongOpener(was: seq<Range>, now: seq<Range>, m: nat) {
    && (|was| / MAX_SIZE + 1) * MAX_SIZE <= m < |now| && m % MAX_SIZE == 0
    && now[m].second - now[m].first > 1
    && forall x {:trigger In(now, x)} :: now[m].first <= x && In(now, x) ==> In(was, x)
  }

  /** `add_shifted_by`. The members are right for all sets; the cached counts are
      right exactly if no such range is there: a copied range that opens an unplanned
      chunk is counted as one index. */
  method AddShiftedBy(target: IndexSet, past: IndexSet, values: IndexSet)
    requires target.Valid() && past.Valid() && values.Valid()
    requires target.vec != past.vec && target.vec != values.vec
    modifies target.vec
    ensures Separated(target.Rs()) && AddedShifted(old(target.Rs()), past.Rs(), values.Rs(), target.Rs())
    ensures ChunksOk(target.vec.data) <==> forall m :: !LongOpener(old(target.Rs()), target.Rs(), m)
  {
    hide Separated, ChunksOk, AddedShifted, Flat, CountsRight, LongOpener, ShiftedUpTo;
    var d, d2 := target.vec.data, values.vec.data;
    ghost var was := Flat(d);
    EmptyFlat(d2);
    if d2 == [] {
      NoValues(was, past.Rs(), d2);
      return;
    }
    var builder := new RangeBuilder(d);
    NoChunks();
    ShiftedStart(was, past.Rs(), values.Rs());
    var oldIt, from := LandAll(builder, d, past.vec.data, d2);
    ghost var out := Flat(builder.data);
    ghost var p := Pos(d, oldIt);
    CopyRest(builder, d, oldIt, past.Rs(), values.Rs(), from);
    ShiftedEnd(was, past.Rs(), values.Rs(), out, Flat(builder.data), from, p);
    target.vec.data := builder.Finalize();
  }

  lemma {:induction false} NoValues(was: seq<Range>, past: seq<Range>, d2: seq<Chunk>)
    requires Separated(was) && d2 == []
    ensures AddedShifted(was, past, Flat(d2), was) && forall m :: !LongOpener(was, was, m)
  {
    forall x {:trigger In(was, x)} | In(was, x) ensures x >= 0 {
      AtLeastFirst(was, x);
    }
  }

  /** The loop over the values. */
  method LandAll(builder: RangeBuilder, d: seq<Chunk>, dp: seq<Chunk>, d2: seq<Chunk>)
    returns (oldIt: Cursor, ghost from: int)
    requires ChunksOk(d) && Separated(Flat(d)) && ChunksOk(dp) && Separated(Flat(dp)) && ChunksOk(d2) && Separated(Flat(d2))
    requires builder.Valid() && builder.data == [] && CountsRight(builder.data)
    modifies builder
    ensures builder.Valid() && CountsRight(builder.data) && Ok(d, oldIt)
    ensures ShiftedUpTo(Flat(d), Flat(dp), Flat(d2), Flat(builder.data), from, Pos(d, oldIt))
    ensures LastLanded(Flat(d), Flat(builder.data), Pos(d, oldIt))
    ensures forall x {:trigger In(Flat(d2), x)} :: from <= x ==> !In(Flat(d2), x)
  {
    hide Separated, ChunksOk, First, Flat, CountsRight, ShiftedUpTo, Passed, PastWalk, LastLanded, IsShifted;
    ghost var was, past, values := Flat(d), Flat(dp), Flat(d2);
    GapsKeepOrder(past);
    NoChunks();
    ShiftedStart(was, past, values);
    FirstStart(d2);
    var c, shiftIt := IndexCursor(Begin(d2), 0), Begin(dp);
    oldIt := Begin(d);
    BeginOk(d);
    BeginPos(d);
    BeginOk(dp);
    BeginPos(dp);
    NothingLanded(was, past);
    var skipUntil, oldShift, newShift := 0, 0, 0;
    from := 0;
    while c.range != End(d2)
      invariant First(d2, c, from) && builder.Valid() && CountsRight(builder.data) && Ok(d, oldIt) && Ok(dp, shiftIt)
      invariant ShiftedUpTo(was, past, values, Flat(builder.data), from, Pos(d, oldIt))
      invariant LastLanded(was, Flat(builder.data), Pos(d, oldIt))
      invariant Pos(d, oldIt) <= |was| && oldShift == Total(was[..Pos(d, oldIt)])
      invariant PastWalk(past, Pos(dp, shiftIt), from, newShift, skipUntil)
      decreases EndOf(values) - from
    {
      FirstFacts(d2, c, from);
      FirstNext(d2, c, from);
      FirstBounded(d2, c, from);
      var index := ValueAt(d2, c);
      shiftIt, newShift, skipUntil := WalkPast(dp, shiftIt, index, from, newShift, skipUntil);
      PastWalkDone(past, Pos(dp, shiftIt), index, newShift, skipUntil);
      PastWalkLater(past, Pos(dp, shiftIt), index, newShift, skipUntil);
      if index < skipUntil {
        ShiftedSkip(was, past, values, Flat(builder.data), from, Pos(d, oldIt), index);
      } else {
        PassStart(was, past, values, Flat(builder.data), from, Pos(d, oldIt), index);
        oldIt, oldShift := PassOld(builder, d, oldIt, oldShift, index - newShift, past, values, from);
        ShiftedPut(was, past, values, Flat(builder.data), from, Pos(d, oldIt), index);
        JustLanded(was, Flat(builder.data), Pos(d, oldIt), Rank(past, index), index - newShift + oldShift);
        builder.PushIndex(index - newShift + oldShift);
      }
      c := IndexNext(d2, c);
      from := index + 1;
    }
    FirstFacts(d2, c, from);
  }

  /** Nothing has landed yet, or the last thing in the builder has. */
  ghost predicate LastLanded(was: seq<Range>, out: seq<Range>, p: nat) {
    if out == [] then p == 0 else !In(was, Top(out) - 1) && In(out, Top(out) - 1)
  }

  lemma {:induction false} NothingLanded(was: seq<Range>, past: seq<Range>)
    ensures LastLanded(was, [], 0) && PastWalk(past, 0, 0, 0, 0)
    ensures was[..0] == [] && Total(was[..0]) == 0 && Total(past[..0]) == 0
  {
  }

  lemma {:induction false} JustLanded(was: seq<Range>, out: seq<Range>, p: nat, rank: int, s: int)
    requires Separated(out) && Top(out) <= s && IsShifted(was, rank, s)
    ensures LastLanded(was, Pushed(out, Range(s, s + 1)), p)
  {
    PushedMeans(out, Range(s, s + 1));
  }

  lemma {:induction false} PastWalkLater(past: seq<Range>, q: nat, index: int, shift: int, skip: int)
    requires PastWalk(past, q, index, shift, skip)
    ensures PastWalk(past, q, index + 1, shift, skip)
  {
  }

  lemma {:induction false} PassStart(was: seq<Range>, past: seq<Range>, values: seq<Range>, out: seq<Range>, from: int, p: nat,
                                     index: int)
    requires Ordered(past) && ShiftedUpTo(was, past, values, out, from, p) && from <= index
    ensures Passed(was, past, values, out, from, p, Rank(past, index))
  {
    RankMonotone(past, from, index);
    EndByHigher(was, p, Rank(past, from) + Total(was[..p]), Rank(past, index) + Total(was[..p]));
  }

  // ---------- copying the rest ----------

  /** The counts are right unless one of the ranges copied as a whole opened an
      unplanned chunk. */
  ghost predicate NoLongCopy(out: seq<Range>, start: nat, planned: nat) {
    forall m :: start <= m < |out| && planned * MAX_SIZE <= m && m % MAX_SIZE == 0 ==> out[m].second - out[m].first <= 1
  }

  /** `copy(old_it, old_end, back_inserter(builder))`. */
  method CopyRest(builder: RangeBuilder, d: seq<Chunk>, from: Cursor, ghost past: seq<Range>, ghost values: seq<Range>,
                  ghost below: int)
    requires ChunksOk(d) && Separated(Flat(d)) && Ok(d, from) && builder.Valid() && CountsRight(builder.data)
    requires builder.planned == |Flat(d)| / MAX_SIZE + 1
    requires ShiftedUpTo(Flat(d), past, values, Flat(builder.data), below, Pos(d, from))
    requires LastLanded(Flat(d), Flat(builder.data), Pos(d, from))
    modifies builder
    ensures builder.Valid() && Pos(d, from) <= |Flat(d)|
    ensures Both(old(Flat(builder.data)), Flat(d)[Pos(d, from)..], Flat(builder.data))
    ensures CountsRight(builder.data) <==> forall m :: !LongOpener(Flat(d), Flat(builder.data), m)
  {
    hide ChunksOk, Flat, Separated, CountsRight, Filled, Miscounts, Pushed, LongOpener, NoLongCopy, ShiftedUpTo, LastLanded;
    ghost var was, p0, out := Flat(d), Pos(d, from), Flat(builder.data);
    var it := from;
    StopHere(d, it);
    CopyStart(was, past, values, out, below, p0, builder.planned);
    while it != End(d)
      invariant Ok(d, it) && builder.Valid() && p0 <= Pos(d, it) <= |was|
      invariant OnRange(d, it) ==> Pos(d, it) < |was| && At(d, it) == was[Pos(d, it)]
      invariant it == End(d) <==> Pos(d, it) == |was|
      invariant Copied(was, out, p0, Pos(d, it), Flat(builder.data))
      invariant CountsRight(builder.data) <==> NoLongCopy(Flat(builder.data), |out|, builder.planned)
      decreases |was| - Pos(d, it)
    {
      CopyNext(was, out, p0, Pos(d, it), Flat(builder.data), builder.planned);
      MiscountsWhen(builder.data, builder.planned, At(d, it));
      builder.PushBack(At(d, it));
      NextPos(d, it);
      it := Next(d, it);
      StopHere(d, it);
    }
    CopyMembers(was, out, p0, Flat(builder.data));
    CopyOpeners(was, out, p0, Flat(builder.data), builder.planned);
  }

  /** The first copied range may touch what is there; the others follow as they are. */
  ghost predicate Copied(was: seq<Range>, out: seq<Range>, p: nat, q: nat, now: seq<Range>) {
    && p <= q <= |was| && Separated(now)
    && (q < |was| ==> Top(now) <= was[q].first && (q > p ==> Top(now) < was[q].first))
    && now == (if p == q then out else Pushed(out, was[p]) + was[p + 1..q])
  }

  lemma {:induction false} CopyStart(was: seq<Range>, past: seq<Range>, values: seq<Range>, out: seq<Range>, below: int, p: nat,
                                     planned: nat)
    requires ShiftedUpTo(was, past, values, out, below, p) && Separated(out)
    ensures Copied(was, out, p, p, out) && NoLongCopy(out, |out|, planned)
  {
  }

  lemma {:induction false} CopyNext(was: seq<Range>, out: seq<Range>, p: nat, q: nat, now: seq<Range>, planned: nat)
    requires Separated(was) && Copied(was, out, p, q, now) && q < |was| && planned > 0
    ensures Top(now) <= was[q].first < was[q].second
    ensures Copied(was, out, p, q + 1, Pushed(now, was[q]))
    ensures NoLongCopy(Pushed(now, was[q]), |out|, planned) <==>
      NoLongCopy(now, |out|, planned)
      && !(|now| >= planned * MAX_SIZE && |now| % MAX_SIZE == 0 && Top(now) != was[q].first && was[q].second - was[q].first > 1)
  {
    PushedMeans(now, was[q]);
    var next := Pushed(now, was[q]);
    if p == q {
      assert was[p + 1..q + 1] == [];
      assert next == Pushed(out, was[p]) + [];
    } else {
      assert was[p + 1..q + 1] == was[p + 1..q] + [was[q]];
    }
    if Top(now) == was[q].first && now != [] {
      assert p == q && |next| == |out|;
    } else {
      assert next == now + [was[q]];
      NoLongAppend(now, was[q], |out|, planned);
    }
  }

  lemma {:induction false} NoLongAppend(now: seq<Range>, r: Range, start: nat, planned: nat)
    requires start <= |now|
    ensures NoLongCopy(now + [r], start, planned) <==>
      NoLongCopy(now, start, planned)
      && !(|now| >= planned * MAX_SIZE && |now| % MAX_SIZE == 0 && r.second - r.first > 1)
  {
    var next := now + [r];
    assert forall m :: 0 <= m < |now| ==> next[m] == now[m];
    if NoLongCopy(next, start, planned) {
      forall m | start <= m < |now| && planned * MAX_SIZE <= m && m % MAX_SIZE == 0 ensures now[m].second - now[m].first <= 1 {
        assert next[m].second - next[m].first <= 1;
      }
      assert next[|now|] == r;
    }
  }

  lemma {:induction false} CopyMembers(was: seq<Range>, out: seq<Range>, p: nat, now: seq<Range>)
    requires Separated(was) && Separated(out) && Copied(was, out, p, |was|, now) && (p < |was| ==> Top(out) <= was[p].first)
    ensures Both(out, was[p..], now)
  {
    if p < |was| {
      assert was[p + 1..|was|] == was[p + 1..];
      assert was[p..] == [was[p]] + was[p + 1..];
      forall x {:trigger In(now, x)} ensures In(now, x) <==> In(out, x) || In(was[p..], x) {
        PushedRest(out, was[p], was[p + 1..], x);
      }
    } else {
      assert was[p..] == [];
    }
  }

  lemma {:induction false} PushedRest(out: seq<Range>, r: Range, rest: seq<Range>, x: int)
    requires Separated(out) && Top(out) <= r.first < r.second
    ensures In(Pushed(out, r) + rest, x) <==> In(out, x) || In([r] + rest, x)
  {
    hide In, Pushed, Separated;
    PushedMeans(out, r);
    InSplit(Pushed(out, r), rest, x);
    InSplit([r], rest, x);
    InOne(r, x);
  }

  /** The ranges with nothing new at or above them are exactly those copied whole. */
  lemma {:induction false} CopyOpeners(was: seq<Range>, out: seq<Range>, p: nat, now: seq<Range>, planned: nat)
    requires Separated(was) && Separated(out) && Copied(was, out, p, |was|, now) && LastLanded(was, out, p)
    requires p < |was| ==> Top(out) <= was[p].first
    requires planned == |was| / MAX_SIZE + 1
    ensures NoLongCopy(now, |out|, planned) <==> forall m :: !LongOpener(was, now, m)
  {
    CopyMembers(was, out, p, now);
    forall m: nat | planned * MAX_SIZE <= m < |now| && m % MAX_SIZE == 0 && now[m].second - now[m].first > 1
      ensures LongOpener(was, now, m) <==> m >= |out|
    {
      CopyOpener(was, out, p, now, m);
    }
    if !NoLongCopy(now, |out|, planned) {
      var m :| |out| <= m < |now| && planned * MAX_SIZE <= m && m % MAX_SIZE == 0 && now[m].second - now[m].first > 1;
      assert LongOpener(was, now, m);
    }
  }

  lemma {:induction false} CopyOpener(was: seq<Range>, out: seq<Range>, p: nat, now: seq<Range>, m: nat)
    requires Separated(was) && Separated(out) && Copied(was, out, p, |was|, now) && LastLanded(was, out, p)
    requires p < |was| ==> Top(out) <= was[p].first
    requires Both(out, was[p..], now)
    requires (|was| / MAX_SIZE + 1) * MAX_SIZE <= m < |now| && m % MAX_SIZE == 0 && now[m].second - now[m].first > 1
    ensures LongOpener(was, now, m) <==> m >= |out|
  {
    if out == [] {
      CopiedWhole(was, out, p, now);
    } else if m < |out| {
      BelowTop(out, p, was, now, m);
      assert In(out, Top(out) - 1) && !In(was, Top(out) - 1);
    } else {
      forall x {:trigger In(now, x)} | now[m].first <= x && In(now, x) ensures In(was, x) {
        AboveTop(was, out, p, now, m);
        if In(out, x) {
          AtLeastFirst(out, x);
        }
        AroundSplit(was, p, x);
      }
    }
  }

  lemma {:induction false} BelowTop(out: seq<Range>, p: nat, was: seq<Range>, now: seq<Range>, m: nat)
    requires Separated(was) && Separated(out) && Copied(was, out, p, |was|, now) && m < |out|
    ensures m < |now| && now[m].first <= Top(out) - 1
  {
  }

  lemma {:induction false} CopiedWhole(was: seq<Range>, out: seq<Range>, p: nat, now: seq<Range>)
    requires Copied(was, out, p, |was|, now) && LastLanded(was, out, p) && out == []
    ensures |now| == |was|
  {
  }

  lemma {:induction false} AboveTop(was: seq<Range>, out: seq<Range>, p: nat, now: seq<Range>, m: nat)
    requires Separated(was) && Copied(was, out, p, |was|, now) && out != [] && |out| <= m < |now|
    requires p < |was| ==> Top(out) <= was[p].first
    ensures Top(out) <= now[m].first
  {
  }

  /** Deletions of two neighbours each, two apart, above the first four rows. */
  function Twos(): (rs: seq<Range>)
    ensures |rs| == 255 && forall k :: 0 <= k < 255 ==> rs[k] == Range(4 * k + 4, 4 * k + 6)
  {
    seq(255, (k: nat) => Range(4 * k + 4, 4 * k + 6))
  }

  /** It happens: 255 ranges of two indices fill less than one chunk; two single
      indices added in front make 257, and the last of the old ones opens a chunk that
      was not planned for. */
  lemma {:induction false} LongOpenerArises()
    ensures var was := Twos();
      var now := [Range(0, 1), Range(2, 3)] + was;
      && Separated(was) && Separated(now) && Separated([Range(0, 1), Range(2, 3)])
      && AddedShifted(was, [], [Range(0, 1), Range(2, 3)], now) && LongOpener(was, now, 256)
  {
    var was := Twos();
    var low := [Range(0, 1), Range(2, 3)];
    var now := low + was;
    assert Separated(was);
    GapsKeepOrder(was);
    forall x {:trigger In(now, x)} ensures In(now, x) <==> x == 0 || x == 2 || In(was, x) {
      InSplit(low, was, x);
      assert low[1..] == [Range(2, 3)];
      InOne(Range(2, 3), x);
    }
    forall x {:trigger In(was, x)} | In(was, x) ensures x >= 4 {
      AtLeastFirst(was, x);
    }
    forall x, o {:trigger In(now, x), In(low, o)} | x >= 0 && o >= 0 && !In(was, x) && !In([], o) && Rank(was, x) == Rank([], o)
      ensures In(now, x) <==> In(low, o)
    {
      assert low[1..] == [Range(2, 3)];
      InOne(Range(2, 3), o);
      if x < 4 {
        CountNone(was, x);
      } else {
        CountNone(was, 4);
        RankMonotone(was, 4, x);
      }
    }
    assert now[256] == was[254];
  }
}
