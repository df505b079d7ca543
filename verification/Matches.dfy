/** The search for common blocks of two lists of rows, by which changes to a sorted
    query result are found (`LongestCommonSubsequenceCalculator`). */
module Matches {
  import opened Common
  import opened Ranges
  import opened Chunks
  import opened IndexSets
  import opened IndexCounts

  /** The table's index of a row and its place in a list. */
  datatype Row = Row(index: nat, place: nat)

  /** A common block: where it begins in the two lists, its length, and how many of its
      rows were modified, once that has been counted. */
  datatype Match = Match(i: nat, j: nat, size: nat, modified: Option<int>)

  /** The parts of the two lists that are searched. */
  datatype Frame = Frame(begin1: nat, end1: nat, begin2: nat, end2: nat)

  ghost predicate Fits(u: seq<nat>, v: seq<nat>, f: Frame) {
    f.begin1 <= f.end1 <= |u| && f.begin2 <= f.end2 <= |v|
  }

  ghost predicate Same(u: seq<nat>, v: seq<nat>, i: nat, j: nat, n: nat) {
    i + n <= |u| && j + n <= |v| && u[i..i + n] == v[j..j + n]
  }

  ghost predicate Within(f: Frame, i: nat, j: nat, n: nat) {
    f.begin1 <= i && i + n <= f.end1 && f.begin2 <= j && j + n <= f.end2
  }

  // ---------- the longest block ----------

  /** The length of the longest common block that ends with these two rows. */
  ghost function Run(u: seq<nat>, v: seq<nat>, f: Frame, i: int, j: int): (r: nat)
    requires i < |u| && j < |v|
    ensures r > 0 ==> f.begin1 + r <= i + 1 && f.begin2 + r <= j + 1
  {
    if i < f.begin1 || j < f.begin2 || u[i] != v[j] then 0 else 1 + Run(u, v, f, i - 1, j - 1)
  }

  lemma {:induction false} RunMeans(u: seq<nat>, v: seq<nat>, f: Frame, i: nat, j: nat)
    requires i < |u| && j < |v|
    ensures var r := Run(u, v, f, i, j); r > 0 ==> Same(u, v, i + 1 - r, j + 1 - r, r)
  {
    hide Same;
    var r := Run(u, v, f, i, j);
    if r > 0 {
      if r == 1 {
        SameNone(u, v, i, j);
      } else {
        RunMeans(u, v, f, i - 1, j - 1);
      }
      SameLonger(u, v, i + 1 - r, j + 1 - r, r - 1);
    }
  }

  lemma {:induction false} SameNone(u: seq<nat>, v: seq<nat>, i: nat, j: nat)
    requires i <= |u| && j <= |v|
    ensures Same(u, v, i, j, 0)
  {
  }

  lemma {:induction false} SameLonger(u: seq<nat>, v: seq<nat>, i: nat, j: nat, n: nat)
    requires Same(u, v, i, j, n) && i + n < |u| && j + n < |v| && u[i + n] == v[j + n]
    ensures Same(u, v, i, j, n + 1)
  {
    assert u[i..i + n + 1] == u[i..i + n] + [u[i + n]];
    assert v[j..j + n + 1] == v[j..j + n] + [v[j + n]];
  }

  lemma {:induction false} RunLongest(u: seq<nat>, v: seq<nat>, f: Frame, i: nat, j: nat, n: nat)
    requires Same(u, v, i, j, n) && n > 0 && f.begin1 <= i && f.begin2 <= j
    ensures Run(u, v, f, i + n - 1, j + n - 1) >= n
  {
    assert u[i..i + n][n - 1] == v[j..j + n][n - 1];
    if n > 1 {
      assert u[i..i + n - 1] == u[i..i + n][..n - 1];
      assert v[j..j + n - 1] == v[j..j + n][..n - 1];
      RunLongest(u, v, f, i, j, n - 1);
    }
  }

  /** What counting gives: a start below zero wraps around and finds nothing. */
  ghost function CountIn(d: seq<Chunk>, start: int, end: int): int {
    if start < 0 then 0 else Between(Flat(d), start, end) - Overlooked(d, start, end)
  }

  /** Which of two blocks is kept: the longer one; of equally long ones the later one
      if fewer rows are counted as modified. For the earlier one the count is of the
      rows up to where it begins, not from there. */
  ghost function Better(d: seq<Chunk>, best: Match, i: nat, j: nat, size: nat): Match
    requires size <= i + 1 && size <= j + 1
  {
    if size > best.size then Match(i + 1 - size, j + 1 - size, size, None)
    else if size < best.size then best
    else
      var counted := if best.modified.Some? then best.modified.value else CountIn(d, best.j + 1 - size, best.j + 1);
      var other := CountIn(d, j + 1 - size, j + 1);
      if other < counted then Match(i + 1 - size, j + 1 - size, size, Some(other)) else best.(modified := Some(counted))
  }

  ghost predicate Reached(u: seq<nat>, v: seq<nat>, f: Frame, i: nat, j: nat) {
    Fits(u, v, f) && f.begin1 <= i <= f.end1 && f.begin2 <= j <= f.end2 && (i == f.end1 ==> j == f.begin2)
  }

  /** The choice among all blocks that end in an earlier row of the first list, or in
      row `i` and before row `j` of the second. */
  ghost function Picked(u: seq<nat>, v: seq<nat>, f: Frame, d: seq<Chunk>, i: nat, j: nat): Match
    requires Reached(u, v, f, i, j)
    decreases i, j
  {
    if j > f.begin2 then
      var best, size := Picked(u, v, f, d, i, j - 1), Run(u, v, f, i, j - 1);
      if size == 0 then best else Better(d, best, i, j - 1, size)
    else if i > f.begin1 then Picked(u, v, f, d, i - 1, f.end2)
    else Match(f.begin1, f.begin2, 0, Some(0))
  }

  ghost predicate IsBlock(u: seq<nat>, v: seq<nat>, f: Frame, m: Match) {
    m.size > 0 ==> Within(f, m.i, m.j, m.size) && Same(u, v, m.i, m.j, m.size)
  }

  lemma {:induction false} PickedBlock(u: seq<nat>, v: seq<nat>, f: Frame, d: seq<Chunk>, i: nat, j: nat)
    requires Reached(u, v, f, i, j)
    ensures IsBlock(u, v, f, Picked(u, v, f, d, i, j))
    decreases i, j
  {
    hide CountIn, Same, Run;
    if j > f.begin2 {
      PickedBlock(u, v, f, d, i, j - 1);
      RunMeans(u, v, f, i, j - 1);
    } else if i > f.begin1 {
      PickedBlock(u, v, f, d, i - 1, f.end2);
    }
  }

  lemma {:induction false} PickedAtLeast(u: seq<nat>, v: seq<nat>, f: Frame, d: seq<Chunk>, i: nat, j: nat, x: nat, y: nat)
    requires Reached(u, v, f, i, j) && f.begin2 <= y < f.end2 && f.begin1 <= x && (x < i || (x == i && y < j))
    ensures x < |u| && y < |v| && Run(u, v, f, x, y) <= Picked(u, v, f, d, i, j).size
    decreases i, j
  {
    hide CountIn;
    if j > f.begin2 {
      if x < i || y < j - 1 {
        PickedAtLeast(u, v, f, d, i, j - 1, x, y);
      }
    } else {
      PickedAtLeast(u, v, f, d, i - 1, f.end2, x, y);
    }
  }

  /** The search finds a longest common block. */
  lemma {:induction false} PickedLongest(u: seq<nat>, v: seq<nat>, f: Frame, d: seq<Chunk>, i: nat, j: nat, n: nat)
    requires Fits(u, v, f) && Within(f, i, j, n) && Same(u, v, i, j, n)
    ensures n <= Picked(u, v, f, d, f.end1, f.begin2).size
  {
    if n > 0 {
      RunLongest(u, v, f, i, j, n);
      PickedAtLeast(u, v, f, d, f.end1, f.begin2, i + n - 1, j + n - 1);
    }
  }

  lemma {:induction false} PickedSkip(u: seq<nat>, v: seq<nat>, f: Frame, d: seq<Chunk>, i: nat, j: nat, j': nat)
    requires Reached(u, v, f, i, j) && Reached(u, v, f, i, j') && j <= j'
    requires i < f.end1 && forall y :: j <= y < j' ==> v[y] != u[i]
    ensures Picked(u, v, f, d, i, j') == Picked(u, v, f, d, i, j)
    decreases j'
  {
    if j < j' {
      PickedSkip(u, v, f, d, i, j, j' - 1);
    }
  }

  // ---------- finding it ----------

  /** The lengths of the blocks that end in one row of the first list. */
  datatype Length = Length(j: nat, len: nat)

  ghost predicate Lengths(u: seq<nat>, v: seq<nat>, f: Frame, i: int, upTo: nat, cells: seq<Length>)
    requires i < |u| && upTo <= |v|
  {
    && (forall c :: c in cells ==> f.begin2 <= c.j < upTo && c.len > 0 && c.len == Run(u, v, f, i, c.j))
    && (forall j: nat {:trigger Run(u, v, f, i, j)} :: f.begin2 <= j < upTo && Run(u, v, f, i, j) > 0 ==>
          Length(j, Run(u, v, f, i, j)) in cells)
  }

  /** The second list by table index: sorted, and complete. */
  ghost predicate ByIndex(b: seq<Row>, v: seq<nat>) {
    && (forall k, l :: 0 <= k < l < |b| ==> b[k].index < b[l].index || (b[k].index == b[l].index && b[k].place < b[l].place))
    && (forall r :: r in b ==> r.place < |v| && v[r.place] == r.index)
    && (forall j {:trigger v[j]} :: 0 <= j < |v| ==> Row(v[j], j) in b)
  }

  function Indexes(rows: seq<Row>): (u: seq<nat>)
    ensures |u| == |rows| && forall i :: 0 <= i < |u| ==> u[i] == rows[i].index
  {
    seq(|rows|, i requires 0 <= i < |rows| => rows[i].index)
  }

  /** `std::lower_bound` by table index. */
  method LowerBound(b: seq<Row>, index: nat) returns (k: nat)
    requires forall k, l :: 0 <= k < l < |b| ==> b[k].index <= b[l].index
    ensures k <= |b|
    ensures forall l :: 0 <= l < k ==> b[l].index < index
    ensures forall l :: k <= l < |b| ==> b[l].index >= index
  {
    k := 0;
    var end := |b|;
    while k < end
      invariant k <= end <= |b|
      invariant forall l :: 0 <= l < k ==> b[l].index < index
      invariant forall l :: end <= l < |b| ==> b[l].index >= index
    {
      var mid := (k + end) / 2;
      if b[mid].index < index {
        k := mid + 1;
      } else {
        end := mid;
      }
    }
  }

  /** `length`: one more than the block that ends before, if there is one. */
  method LengthAt(prev: seq<Length>, j: nat, ghost u: seq<nat>, ghost v: seq<nat>, ghost f: Frame, ghost i: nat) returns (n: nat)
    requires Fits(u, v, f) && f.begin1 <= i < f.end1 && f.begin2 <= j < f.end2 && u[i] == v[j]
    requires Lengths(u, v, f, i - 1, f.end2, prev)
    ensures n == Run(u, v, f, i, j)
  {
    var k := 0;
    while k < |prev|
      invariant k <= |prev| && forall l :: 0 <= l < k ==> prev[l].j + 1 != j
    {
      if prev[k].j + 1 == j {
        assert prev[k] in prev;
        return prev[k].len + 1;
      }
      k := k + 1;
    }
    assert forall c :: c in prev ==> c.j + 1 != j;
    assert j > f.begin2 ==> Length(j - 1, Run(u, v, f, i - 1, j - 1)) !in prev;
    n := 1;
  }

  /** Rows of the second list up to `k` lie before `at`, so the next match is at `k`. */
  ghost predicate Passed(b: seq<Row>, index: nat, k: nat, at: nat) {
    k <= |b| && forall l :: 0 <= l < k ==> b[l].index < index || (b[l].index == index && b[l].place < at)
  }

  lemma {:induction false} NoneBetween(b: seq<Row>, v: seq<nat>, index: nat, k: nat, at: nat, end: nat)
    requires ByIndex(b, v) && Passed(b, index, k, at) && end <= |v|
    requires k < |b| ==> b[k].index >= index
    requires k < |b| && b[k].index == index ==> end <= b[k].place
    ensures forall y :: at <= y < end ==> v[y] != index
  {
  }

  lemma {:induction false} LengthsSkip(u: seq<nat>, v: seq<nat>, f: Frame, i: nat, at: nat, at': nat, cells: seq<Length>)
    requires i < |u| && at <= at' <= |v| && Lengths(u, v, f, i, at, cells)
    requires forall y :: at <= y < at' ==> v[y] != u[i]
    ensures Lengths(u, v, f, i, at', cells)
  {
  }

  lemma {:induction false} LengthsNext(u: seq<nat>, v: seq<nat>, f: Frame, i: nat, at: nat, cells: seq<Length>)
    requires i < |u| && f.begin2 <= at < |v| && Lengths(u, v, f, i, at, cells) && Run(u, v, f, i, at) > 0
    ensures Lengths(u, v, f, i, at + 1, cells + [Length(at, Run(u, v, f, i, at))])
  {
  }

  class LongestCommonSubsequenceCalculator {
    /** The first list by place, the second one by table index. */
    const a: seq<Row>
    const b: seq<Row>
    const modified: IndexSet
    var longestMatches: seq<Match>
    ghost const u: seq<nat>
    /** The second list by place. */
    ghost const v: seq<nat>

    ghost predicate Valid()
      reads modified.vec
    {
      modified.Valid() && u == Indexes(a) && ByIndex(b, v) && forall i :: 0 <= i < |u| ==> u[i] in v
    }

    constructor (a: seq<Row>, b: seq<Row>, start: nat, modified: IndexSet, ghost v: seq<nat>)
      requires modified.Valid() && ByIndex(b, v) && start <= |a| && start <= |b| && |b| == |v|
      requires forall r :: r in a ==> r.index in v
      ensures this.a == a && this.b == b && this.modified == modified && this.u == Indexes(a) && this.v == v
      ensures longestMatches == Blocks(u, v, modified.vec.data, Frame(start, |a|, start, |b|)) + [Match(|a|, |b|, 0, Some(0))]
    {
      this.a, this.b, this.modified := a, b, modified;
      longestMatches := [];
      u := Indexes(a);
      this.v := v;
      new;
      forall i | 0 <= i < |u| ensures u[i] in v {
        assert a[i] in a;
      }
      FindLongestMatches(start, |a|, start, |b|);
      longestMatches := longestMatches + [Match(|a|, |b|, 0, Some(0))];
    }

    method FindLongestMatch(begin1: nat, end1: nat, begin2: nat, end2: nat) returns (best: Match)
      requires Valid() && Fits(u, v, Frame(begin1, end1, begin2, end2))
      ensures best == Picked(u, v, Frame(begin1, end1, begin2, end2), modified.vec.data, end1, begin2)
    {
      hide ByIndex;
      var f := Frame(begin1, end1, begin2, end2);
      var prev: seq<Length> := [];
      best := Match(begin1, begin2, 0, Some(0));
      var i := begin1;
      while i < end1
        invariant begin1 <= i <= end1
        invariant Lengths(u, v, f, i - 1, end2, prev)
        invariant best == Picked(u, v, f, modified.vec.data, i, begin2)
      {
        prev, best := OneRow(f, i, prev, best);
        i := i + 1;
      }
    }

    /** All blocks that end in one row of the first list. */
    method OneRow(f: Frame, i: nat, prev: seq<Length>, sofar: Match) returns (cur: seq<Length>, best: Match)
      requires Valid() && Fits(u, v, f) && f.begin1 <= i < f.end1 && Lengths(u, v, f, i - 1, f.end2, prev)
      requires sofar == Picked(u, v, f, modified.vec.data, i, f.begin2)
      ensures Lengths(u, v, f, i, f.end2, cur)
      ensures best == Picked(u, v, f, modified.vec.data, i, f.end2)
    {
      hide Run, Lengths, Picked, ByIndex, Better;
      ghost var d := modified.vec.data;
      best, cur := sofar, [];
      SortedByIndex(b, v);
      var k := LowerBound(b, a[i].index);
      ghost var at: nat := f.begin2;
      NoLengths(u, v, f, i);
      while k < |b| && b[k].index == a[i].index
        invariant Passed(b, u[i], k, at) && f.begin2 <= at <= f.end2 && (k < |b| ==> b[k].index >= u[i])
        invariant k < |b| && b[k].index == u[i] ==> at == f.begin2 || at <= b[k].place
        invariant Lengths(u, v, f, i, at, cur) && best == Picked(u, v, f, d, i, at)
      {
        var j := b[k].place;
        NextRow(b, v, k);
        if f.begin2 <= j {
          if j >= f.end2 {
            break;
          }
          NoneBetween(b, v, u[i], k, at, j);
          PickedSkip(u, v, f, d, i, at, j);
          LengthsSkip(u, v, f, i, at, j, cur);
          var size := LengthAt(prev, j, u, v, f, i);
          RunAtMatch(u, v, f, d, i, j);
          LengthsNext(u, v, f, i, j, cur);
          cur := cur + [Length(j, size)];
          best := Choose(best, i, j, size);
          at := j + 1;
        }
        k := k + 1;
      }
      NoneBetween(b, v, u[i], k, at, f.end2);
      PickedSkip(u, v, f, d, i, at, f.end2);
      LengthsSkip(u, v, f, i, at, f.end2, cur);
    }

    method Choose(best: Match, i: nat, j: nat, size: nat) returns (next: Match)
      requires modified.Valid() && size <= i + 1 && size <= j + 1
      ensures next == Better(modified.vec.data, best, i, j, size)
    {
      hide Flat, Overlooked, Between, ChunksOk, Separated;
      next := best;
      if size > best.size {
        next := Match(i + 1 - size, j + 1 - size, size, None);
      } else if size == best.size {
        var counted: int;
        if best.modified.Some? {
          counted := best.modified.value;
        } else if best.j + 1 < size {
          counted := 0;
        } else {
          counted := Count(modified.vec.data, best.j + 1 - size, best.j + 1);
        }
        next := next.(modified := Some(counted));
        var other := Count(modified.vec.data, j + 1 - size, j + 1);
        if other < counted {
          next := Match(i + 1 - size, j + 1 - size, size, Some(other));
        }
      }
    }

    method FindLongestMatches(begin1: nat, end1: nat, begin2: nat, end2: nat)
      requires Valid() && Fits(u, v, Frame(begin1, end1, begin2, end2))
      modifies this`longestMatches
      ensures longestMatches ==
              old(longestMatches) + Blocks(u, v, modified.vec.data, Frame(begin1, end1, begin2, end2))
      decreases end1 - begin1
    {
      hide Picked, ByIndex, Blocks;
      ghost var f := Frame(begin1, end1, begin2, end2);
      var m := FindLongestMatch(begin1, end1, begin2, end2);
      PickedBlock(u, v, f, modified.vec.data, end1, begin2);
      BlocksMeans(u, v, modified.vec.data, f);
      if m.size == 0 {
        return;
      }
      if m.i > begin1 && m.j > begin2 {
        FindLongestMatches(begin1, m.i, begin2, m.j);
      }
      longestMatches := longestMatches + [m];
      if m.i + m.size < end2 && m.j + m.size < end2 {
        FindLongestMatches(m.i + m.size, end1, m.j + m.size, end2);
      }
    }
  }

  lemma {:induction false} SortedByIndex(b: seq<Row>, v: seq<nat>)
    requires ByIndex(b, v)
    ensures forall k, l :: 0 <= k < l < |b| ==> b[k].index <= b[l].index
  {
  }

  lemma {:induction false} NextRow(b: seq<Row>, v: seq<nat>, k: nat)
    requires ByIndex(b, v) && k < |b|
    ensures b[k].place < |v| && v[b[k].place] == b[k].index
    ensures k + 1 < |b| ==> b[k].index <= b[k + 1].index
    ensures k + 1 < |b| && b[k].index == b[k + 1].index ==> b[k].place < b[k + 1].place
  {
  }

  lemma {:induction false} NoLengths(u: seq<nat>, v: seq<nat>, f: Frame, i: int)
    requires Fits(u, v, f) && i < |u|
    ensures Lengths(u, v, f, i, f.begin2, [])
  {
  }

  lemma {:induction false} RunAtMatch(u: seq<nat>, v: seq<nat>, f: Frame, d: seq<Chunk>, i: nat, j: nat)
    requires Reached(u, v, f, i, j + 1) && i < f.end1 && f.begin2 <= j && u[i] == v[j]
    ensures Run(u, v, f, i, j) > 0
    ensures Picked(u, v, f, d, i, j + 1) == Better(d, Picked(u, v, f, d, i, j), i, j, Run(u, v, f, i, j))
  {
  }

  // ---------- all blocks ----------

  /** Around the longest block the search goes on, left and right. To the right it
      compares the end in the first list with the end of the second one. */
  ghost function Blocks(u: seq<nat>, v: seq<nat>, d: seq<Chunk>, f: Frame): seq<Match>
    requires Fits(u, v, f)
    decreases f.end1 - f.begin1
  {
    PickedBlock(u, v, f, d, f.end1, f.begin2);
    var m := Picked(u, v, f, d, f.end1, f.begin2);
    if m.size == 0 then []
    else
      (if m.i > f.begin1 && m.j > f.begin2 then Blocks(u, v, d, Frame(f.begin1, m.i, f.begin2, m.j)) else []) + [m] +
      (if m.i + m.size < f.end2 && m.j + m.size < f.end2
       then Blocks(u, v, d, Frame(m.i + m.size, f.end1, m.j + m.size, f.end2)) else [])
  }

  ghost function Left(f: Frame, m: Match): Frame {
    Frame(f.begin1, m.i, f.begin2, m.j)
  }

  ghost function Right(f: Frame, m: Match): Frame {
    Frame(m.i + m.size, f.end1, m.j + m.size, f.end2)
  }

  lemma {:induction false} PickedFrames(u: seq<nat>, v: seq<nat>, d: seq<Chunk>, f: Frame)
    requires Fits(u, v, f)
    ensures var m := Picked(u, v, f, d, f.end1, f.begin2);
      m.size > 0 ==> Fits(u, v, Left(f, m)) && Fits(u, v, Right(f, m)) && Within(f, m.i, m.j, m.size) && Same(u, v, m.i, m.j, m.size)
  {
    hide Picked, Same;
    PickedBlock(u, v, f, d, f.end1, f.begin2);
  }

  lemma {:induction false} BlocksMeans(u: seq<nat>, v: seq<nat>, d: seq<Chunk>, f: Frame)
    requires Fits(u, v, f)
    ensures var m := Picked(u, v, f, d, f.end1, f.begin2);
      if m.size == 0 then Blocks(u, v, d, f) == []
      else
        && Fits(u, v, Left(f, m)) && Fits(u, v, Right(f, m)) && IsBlock(u, v, f, m)
        && Blocks(u, v, d, f) ==
           (if m.i > f.begin1 && m.j > f.begin2 then Blocks(u, v, d, Left(f, m)) else []) + [m] +
           (if m.i + m.size < f.end2 && m.j + m.size < f.end2 then Blocks(u, v, d, Right(f, m)) else [])
  {
    hide Picked, Same, Within, Run;
    PickedFrames(u, v, d, f);
  }

  /** Blocks one after the other in both lists. */
  ghost predicate Aligned(u: seq<nat>, v: seq<nat>, ms: seq<Match>, f: Frame)
    decreases |ms|
  {
    if ms == [] then f.begin1 <= f.end1 && f.begin2 <= f.end2
    else
      && Within(f, ms[0].i, ms[0].j, ms[0].size) && Same(u, v, ms[0].i, ms[0].j, ms[0].size)
      && Aligned(u, v, ms[1..], Right(f, ms[0]))
  }

  lemma {:induction false} AlignedJoin(u: seq<nat>, v: seq<nat>, left: seq<Match>, m: Match, right: seq<Match>, f: Frame)
    requires Within(f, m.i, m.j, m.size) && Same(u, v, m.i, m.j, m.size)
    requires Aligned(u, v, left, Left(f, m)) && Aligned(u, v, right, Right(f, m))
    ensures Aligned(u, v, left + [m] + right, f)
    decreases |left|
  {
    hide Same;
    var all := left + [m] + right;
    if left == [] {
      assert all[0] == m && all[1..] == right;
    } else {
      assert all[0] == left[0] && all[1..] == left[1..] + [m] + right;
      assert Right(Left(f, m), left[0]) == Left(Right(f, left[0]), m);
      AlignedJoin(u, v, left[1..], m, right, Right(f, left[0]));
    }
  }

  /** The blocks found are common blocks, in the same order in both lists. */
  lemma {:induction false} BlocksAligned(u: seq<nat>, v: seq<nat>, d: seq<Chunk>, f: Frame)
    requires Fits(u, v, f)
    ensures Aligned(u, v, Blocks(u, v, d, f), f)
    decreases f.end1 - f.begin1
  {
    hide Blocks, Picked, Same;
    BlocksMeans(u, v, d, f);
    var m := Picked(u, v, f, d, f.end1, f.begin2);
    if m.size > 0 {
      BlocksAligned(u, v, d, Left(f, m));
      BlocksAligned(u, v, d, Right(f, m));
      var l := if m.i > f.begin1 && m.j > f.begin2 then Blocks(u, v, d, Left(f, m)) else [];
      var r := if m.i + m.size < f.end2 && m.j + m.size < f.end2 then Blocks(u, v, d, Right(f, m)) else [];
      AlignedJoin(u, v, l, m, r, f);
    }
  }

  // ---------- what is left between them ----------

  ghost predicate NothingCommon(u: seq<nat>, v: seq<nat>, f: Frame)
    requires Fits(u, v, f)
  {
    forall i, j :: f.begin1 <= i < f.end1 && f.begin2 <= j < f.end2 ==> u[i] != v[j]
  }

  /** No gap between the blocks has a row in common, except where the end of a block in
      the first list is past the end of the gap in the second one. */
  ghost predicate Exhausted(u: seq<nat>, v: seq<nat>, ms: seq<Match>, f: Frame, searched: bool)
    requires Aligned(u, v, ms, f) && f.end1 <= |u| && f.end2 <= |v|
    decreases |ms|
  {
    if ms == [] then searched || f.begin1 < f.end2 ==> NothingCommon(u, v, f)
    else
      var m := ms[0];
      && (searched || f.begin1 < m.j ==> NothingCommon(u, v, Left(f, m)))
      && Exhausted(u, v, ms[1..], Right(f, m), false)
  }

  lemma {:induction false} ExhaustedJoin(u: seq<nat>, v: seq<nat>, left: seq<Match>, m: Match, right: seq<Match>, f: Frame,
                                         searched: bool)
    requires f.end1 <= |u| && f.end2 <= |v|
    requires Within(f, m.i, m.j, m.size) && Same(u, v, m.i, m.j, m.size)
    requires Aligned(u, v, left, Left(f, m)) && Aligned(u, v, right, Right(f, m))
    requires Exhausted(u, v, left, Left(f, m), searched) && Exhausted(u, v, right, Right(f, m), false)
    ensures Aligned(u, v, left + [m] + right, f) && Exhausted(u, v, left + [m] + right, f, searched)
    decreases |left|
  {
    hide Same, NothingCommon;
    AlignedJoin(u, v, left, m, right, f);
    var all := left + [m] + right;
    if left == [] {
      assert all[0] == m && all[1..] == right;
    } else {
      assert all[0] == left[0] && all[1..] == left[1..] + [m] + right;
      ExhaustedJoin(u, v, left[1..], m, right, Right(f, left[0]), false);
    }
  }

  lemma {:induction false} NothingFound(u: seq<nat>, v: seq<nat>, d: seq<Chunk>, f: Frame)
    requires Fits(u, v, f) && Picked(u, v, f, d, f.end1, f.begin2).size == 0
    ensures NothingCommon(u, v, f)
  {
    forall i, j | f.begin1 <= i < f.end1 && f.begin2 <= j < f.end2 ensures u[i] != v[j] {
      if u[i] == v[j] {
        assert u[i..i + 1] == v[j..j + 1];
        PickedLongest(u, v, f, d, i, j, 1);
      }
    }
  }

  /** Weaker demands come with less searching. */
  lemma {:induction false} SearchedLess(u: seq<nat>, v: seq<nat>, ms: seq<Match>, f: Frame)
    requires Aligned(u, v, ms, f) && f.end1 <= |u| && f.end2 <= |v| && Exhausted(u, v, ms, f, true)
    ensures Exhausted(u, v, ms, f, false)
  {
  }

  lemma {:induction false} BlocksExhausted(u: seq<nat>, v: seq<nat>, d: seq<Chunk>, f: Frame)
    requires Fits(u, v, f)
    ensures Aligned(u, v, Blocks(u, v, d, f), f) && Exhausted(u, v, Blocks(u, v, d, f), f, true)
    decreases f.end1 - f.begin1
  {
    hide Blocks, Picked, Same, NothingCommon;
    BlocksAligned(u, v, d, f);
    BlocksMeans(u, v, d, f);
    var m := Picked(u, v, f, d, f.end1, f.begin2);
    if m.size == 0 {
      NothingFound(u, v, d, f);
    } else {
      BlocksExhausted(u, v, d, Left(f, m));
      BlocksExhausted(u, v, d, Right(f, m));
      var l := if m.i > f.begin1 && m.j > f.begin2 then Blocks(u, v, d, Left(f, m)) else [];
      var r := if m.i + m.size < f.end2 && m.j + m.size < f.end2 then Blocks(u, v, d, Right(f, m)) else [];
      NothingThere(u, v, Left(f, m));
      NothingThere(u, v, Right(f, m));
      SearchedLess(u, v, Blocks(u, v, d, Right(f, m)), Right(f, m));
      ExhaustedJoin(u, v, l, m, r, f, true);
    }
  }

  lemma {:induction false} NothingThere(u: seq<nat>, v: seq<nat>, f: Frame)
    requires Fits(u, v, f)
    ensures f.begin1 == f.end1 || f.begin2 == f.end2 ==> NothingCommon(u, v, f)
  {
  }

  // ---------- blocks of the same length ----------

  /** How many rows of the block are counted as modified. */
  ghost function OwnCount(d: seq<Chunk>, j: nat, size: nat): int {
    CountIn(d, j, j + size)
  }

  /** What is counted for a block that was found first: as many rows, but up to and with
      the one it begins at. */
  ghost function MisCount(d: seq<Chunk>, j: nat, size: nat): int {
    CountIn(d, j + 1 - size, j + 1)
  }

  /** Of two equally long blocks the later one is taken exactly if fewer of its own rows
      are modified than were counted for the earlier one; for one that was found first
      these are not its own rows, unless it has only one. */
  lemma {:induction false} TieIff(d: seq<Chunk>, best: Match, i: nat, j: nat, size: nat)
    requires size <= i + 1 && size <= j + 1 && best.size == size > 0 && (best.i != i + 1 - size || best.j != j + 1 - size)
    ensures var m := Better(d, best, i, j, size);
      m.size == size &&
      (if OwnCount(d, j + 1 - size, size) < (if best.modified.Some? then best.modified.value else MisCount(d, best.j, size))
       then m.i == i + 1 - size && m.j == j + 1 - size && m.modified == Some(OwnCount(d, j + 1 - size, size))
       else m.i == best.i && m.j == best.j && m.modified.Some?)
    ensures size == 1 ==> MisCount(d, best.j, size) == OwnCount(d, best.j, size)
  {
    hide CountIn;
  }

  /** The pair of rows has been looked at. */
  ghost predicate Seen(f: Frame, i: nat, j: nat, x: nat, y: nat) {
    f.begin1 <= x && f.begin2 <= y < f.end2 && (x < i || (x == i && y < j))
  }

  /** A block of the length ends with the pair. */
  ghost predicate EndsAt(u: seq<nat>, v: seq<nat>, f: Frame, x: nat, y: nat, n: nat) {
    x < |u| && y < |v| && Run(u, v, f, x, y) == n
  }

  /** What the choice so far amounts to: `first` is the block found first. */
  ghost predicate Chosen(u: seq<nat>, v: seq<nat>, f: Frame, d: seq<Chunk>, i: nat, j: nat, m: Match, first: Match) {
    var n := m.size;
    && first.size == n && (first.modified.Some? ==> first.modified.value == 0)
    && (n > 0 ==>
        && Seen(f, i, j, first.i + n - 1, first.j + n - 1) && EndsAt(u, v, f, first.i + n - 1, first.j + n - 1, n)
        && (if m.i == first.i && m.j == first.j then
              && (m.modified.Some? ==> m.modified.value == MisCount(d, first.j, n))
              && forall x: nat, y: nat {:trigger EndsAt(u, v, f, x, y, n)} ::
                   Seen(f, i, j, x, y) && EndsAt(u, v, f, x, y, n) && (x != first.i + n - 1 || y != first.j + n - 1) ==>
                     MisCount(d, first.j, n) <= CountIn(d, y + 1 - n, y + 1)
            else
              && Seen(f, i, j, m.i + n - 1, m.j + n - 1) && EndsAt(u, v, f, m.i + n - 1, m.j + n - 1, n)
              && m.modified == Some(OwnCount(d, m.j, n)) && OwnCount(d, m.j, n) < MisCount(d, first.j, n)
              && forall x: nat, y: nat {:trigger EndsAt(u, v, f, x, y, n)} ::
                   Seen(f, i, j, x, y) && EndsAt(u, v, f, x, y, n) && (x != first.i + n - 1 || y != first.j + n - 1) ==>
                     OwnCount(d, m.j, n) <= CountIn(d, y + 1 - n, y + 1)))
  }

  lemma {:induction false} ChosenSkip(u: seq<nat>, v: seq<nat>, f: Frame, d: seq<Chunk>, i: nat, j: nat, m: Match, first: Match)
    requires Chosen(u, v, f, d, i, j, m, first) && i < |u| && f.begin2 <= j < f.end2 <= |v| && Run(u, v, f, i, j) < m.size
    ensures Chosen(u, v, f, d, i, j + 1, m, first)
  {
    hide CountIn, Run;
  }

  lemma {:induction false} ChosenNothing(u: seq<nat>, v: seq<nat>, f: Frame, d: seq<Chunk>, i: nat, j: nat, m: Match, first: Match)
    requires Chosen(u, v, f, d, i, j, m, first) && m.size == 0
    ensures Chosen(u, v, f, d, i, j + 1, m, first)
  {
  }

  lemma {:induction false} ChosenLonger(u: seq<nat>, v: seq<nat>, f: Frame, d: seq<Chunk>, i: nat, j: nat, n: nat)
    requires f.begin1 <= i < |u| && f.begin2 <= j < f.end2 <= |v| && Run(u, v, f, i, j) == n > 0
    requires forall x: nat, y: nat {:trigger EndsAt(u, v, f, x, y, n)} :: Seen(f, i, j, x, y) ==> !EndsAt(u, v, f, x, y, n)
    ensures var m := Match(i + 1 - n, j + 1 - n, n, None); Chosen(u, v, f, d, i, j + 1, m, m)
  {
    hide CountIn;
  }

  lemma {:induction false} ChosenTie(u: seq<nat>, v: seq<nat>, f: Frame, d: seq<Chunk>, i: nat, j: nat, m: Match, first: Match)
    requires Chosen(u, v, f, d, i, j, m, first) && f.begin1 <= i < |u| && f.begin2 <= j < f.end2 <= |v|
    requires Run(u, v, f, i, j) == m.size > 0
    ensures Chosen(u, v, f, d, i, j + 1, Better(d, m, i, j, m.size), Better([], first, i, j, m.size))
  {
    hide CountIn, Run;
    NoneCounted();
    var n := m.size;
    TieIff(d, m, i, j, n);
    TieIff([], first, i, j, n);
  }

  lemma {:induction false} PickedChosen(u: seq<nat>, v: seq<nat>, f: Frame, d: seq<Chunk>, i: nat, j: nat)
    requires Reached(u, v, f, i, j)
    ensures Chosen(u, v, f, d, i, j, Picked(u, v, f, d, i, j), Picked(u, v, f, [], i, j))
    decreases i, j
  {
    hide CountIn, Run, Chosen, Better;
    if j > f.begin2 {
      PickedChosen(u, v, f, d, i, j - 1);
      var m, first, n := Picked(u, v, f, d, i, j - 1), Picked(u, v, f, [], i, j - 1), Run(u, v, f, i, j - 1);
      SameSize(u, v, f, d, i, j - 1, m, first);
      if n == 0 {
        if m.size == 0 {
          ChosenNothing(u, v, f, d, i, j - 1, m, first);
        } else {
          ChosenSkip(u, v, f, d, i, j - 1, m, first);
        }
      } else if n < m.size {
        ChosenSkip(u, v, f, d, i, j - 1, m, first);
        BetterShorter(d, m, i, j - 1, n);
        BetterShorter([], first, i, j - 1, n);
      } else if n == m.size {
        ChosenTie(u, v, f, d, i, j - 1, m, first);
      } else {
        forall x: nat, y: nat {:trigger EndsAt(u, v, f, x, y, n)} | Seen(f, i, j - 1, x, y) ensures !EndsAt(u, v, f, x, y, n) {
          PickedAtLeast(u, v, f, d, i, j - 1, x, y);
        }
        ChosenLonger(u, v, f, d, i, j - 1, n);
        BetterShorter(d, m, i, j - 1, n);
        BetterShorter([], first, i, j - 1, n);
      }
    } else if i > f.begin1 {
      PickedChosen(u, v, f, d, i - 1, f.end2);
      ChosenRow(u, v, f, d, i, Picked(u, v, f, d, i, j), Picked(u, v, f, [], i, j));
    } else {
      ChosenStart(u, v, f, d);
    }
  }

  lemma {:induction false} SameSize(u: seq<nat>, v: seq<nat>, f: Frame, d: seq<Chunk>, i: nat, j: nat, m: Match, first: Match)
    requires Chosen(u, v, f, d, i, j, m, first)
    ensures m.size == first.size
  {
  }

  lemma {:induction false} BetterShorter(d: seq<Chunk>, best: Match, i: nat, j: nat, size: nat)
    requires size <= i + 1 && size <= j + 1 && size != best.size
    ensures Better(d, best, i, j, size) == if size > best.size then Match(i + 1 - size, j + 1 - size, size, None) else best
  {
  }

  lemma {:induction false} ChosenRow(u: seq<nat>, v: seq<nat>, f: Frame, d: seq<Chunk>, i: nat, m: Match, first: Match)
    requires i > 0 && Chosen(u, v, f, d, i - 1, f.end2, m, first)
    ensures Chosen(u, v, f, d, i, f.begin2, m, first)
  {
    hide CountIn, Run;
    forall x, y ensures Seen(f, i, f.begin2, x, y) <==> Seen(f, i - 1, f.end2, x, y) {
    }
  }

  lemma {:induction false} ChosenStart(u: seq<nat>, v: seq<nat>, f: Frame, d: seq<Chunk>)
    ensures var m := Match(f.begin1, f.begin2, 0, Some(0)); Chosen(u, v, f, d, f.begin1, f.begin2, m, m)
  {
  }

  /** A longest common block of the two parts. */
  ghost predicate Longest(u: seq<nat>, v: seq<nat>, f: Frame, i: nat, j: nat, n: nat) {
    && Within(f, i, j, n) && Same(u, v, i, j, n)
    && forall x: nat, y: nat, k: nat {:trigger Same(u, v, x, y, k)} :: Within(f, x, y, k) && Same(u, v, x, y, k) ==> k <= n
  }

  /** The block found first: what the search finds when nothing is modified. */
  ghost function FirstLongest(u: seq<nat>, v: seq<nat>, f: Frame): Match
    requires Fits(u, v, f)
  {
    Picked(u, v, f, [], f.end1, f.begin2)
  }

  ghost predicate Fewest(u: seq<nat>, v: seq<nat>, f: Frame, d: seq<Chunk>, m: Match) {
    forall i: nat, j: nat {:trigger Longest(u, v, f, i, j, m.size)} :: Longest(u, v, f, i, j, m.size) ==>
      OwnCount(d, m.j, m.size) <= OwnCount(d, j, m.size)
  }

  /** No other longest block has fewer modified rows than are counted for the first. */
  ghost predicate FirstStays(u: seq<nat>, v: seq<nat>, f: Frame, d: seq<Chunk>)
    requires Fits(u, v, f)
  {
    var first := FirstLongest(u, v, f);
    forall i: nat, j: nat {:trigger Longest(u, v, f, i, j, first.size)} ::
      Longest(u, v, f, i, j, first.size) && (i != first.i || j != first.j) ==>
        MisCount(d, first.j, first.size) <= OwnCount(d, j, first.size)
  }

  /** Some other longest block has no more modified rows than the first. */
  ghost predicate FirstBeaten(u: seq<nat>, v: seq<nat>, f: Frame, d: seq<Chunk>)
    requires Fits(u, v, f)
  {
    var first := FirstLongest(u, v, f);
    exists i: nat, j: nat {:trigger Longest(u, v, f, i, j, first.size)} ::
      Longest(u, v, f, i, j, first.size) && (i != first.i || j != first.j) && OwnCount(d, j, first.size) <= OwnCount(d, first.j, first.size)
  }

  lemma {:induction false} LongestEnds(u: seq<nat>, v: seq<nat>, f: Frame, d: seq<Chunk>, i: nat, j: nat, n: nat)
    requires Fits(u, v, f) && n == Picked(u, v, f, d, f.end1, f.begin2).size && n > 0
    ensures Longest(u, v, f, i, j, n) <==>
      Within(f, i, j, n) && EndsAt(u, v, f, i + n - 1, j + n - 1, n) && Seen(f, f.end1, f.begin2, i + n - 1, j + n - 1)
  {
    hide Picked, Run;
    if Longest(u, v, f, i, j, n) {
      RunLongest(u, v, f, i, j, n);
      PickedAtLeast(u, v, f, d, f.end1, f.begin2, i + n - 1, j + n - 1);
    }
    if Within(f, i, j, n) && EndsAt(u, v, f, i + n - 1, j + n - 1, n) {
      RunMeans(u, v, f, i + n - 1, j + n - 1);
      forall x: nat, y: nat, k: nat | Within(f, x, y, k) && Same(u, v, x, y, k) ensures k <= n {
        PickedLongest(u, v, f, d, x, y, k);
      }
    }
  }

  /** Which of the longest blocks is chosen. */
  lemma {:induction false} PickedIs(u: seq<nat>, v: seq<nat>, f: Frame, d: seq<Chunk>)
    requires Fits(u, v, f) && Picked(u, v, f, d, f.end1, f.begin2).size > 0
    ensures var m, first := Picked(u, v, f, d, f.end1, f.begin2), FirstLongest(u, v, f);
      && m.size == first.size && Longest(u, v, f, m.i, m.j, m.size) && Longest(u, v, f, first.i, first.j, m.size)
      && (m.i == first.i && m.j == first.j <==> FirstStays(u, v, f, d))
      && (m.i != first.i || m.j != first.j ==>
          forall i: nat, j: nat {:trigger Longest(u, v, f, i, j, m.size)} ::
            Longest(u, v, f, i, j, m.size) && (i != first.i || j != first.j) ==> OwnCount(d, m.j, m.size) <= OwnCount(d, j, m.size))
  {
    hide Picked, Run, CountIn, Longest;
    var m, first := Picked(u, v, f, d, f.end1, f.begin2), FirstLongest(u, v, f);
    var n := m.size;
    PickedChosen(u, v, f, d, f.end1, f.begin2);
    PickedBlock(u, v, f, d, f.end1, f.begin2);
    PickedBlock(u, v, f, [], f.end1, f.begin2);
    LongestEnds(u, v, f, d, m.i, m.j, n);
    LongestEnds(u, v, f, d, first.i, first.j, n);
    forall i: nat, j: nat {:trigger Longest(u, v, f, i, j, n)} | Longest(u, v, f, i, j, n) && (i != first.i || j != first.j)
      ensures if m.i == first.i && m.j == first.j then MisCount(d, first.j, n) <= OwnCount(d, j, n)
        else OwnCount(d, m.j, n) <= OwnCount(d, j, n)
    {
      LongestEnds(u, v, f, d, i, j, n);
      assert EndsAt(u, v, f, i + n - 1, j + n - 1, n);
    }
  }

  /** The block chosen has the fewest modified rows of all longest ones exactly if: where
      no other has fewer than are counted for the first, none has fewer than the first;
      and elsewhere some other has no more than the first. */
  lemma {:induction false} PickedFewestIff(u: seq<nat>, v: seq<nat>, f: Frame, d: seq<Chunk>)
    requires Fits(u, v, f) && Picked(u, v, f, d, f.end1, f.begin2).size > 0
    ensures Fewest(u, v, f, d, Picked(u, v, f, d, f.end1, f.begin2)) <==>
      if FirstStays(u, v, f, d) then Fewest(u, v, f, d, FirstLongest(u, v, f)) else FirstBeaten(u, v, f, d)
  {
    hide Picked, CountIn, Longest;
    PickedIs(u, v, f, d);
  }

  /** So it has if what is counted for the first block is the number of its own modified
      rows, as it is for a single row. */
  lemma {:induction false} FairCount(u: seq<nat>, v: seq<nat>, f: Frame, d: seq<Chunk>)
    requires Fits(u, v, f) && Picked(u, v, f, d, f.end1, f.begin2).size > 0
    requires var first := FirstLongest(u, v, f);
      first.size == 1 || MisCount(d, first.j, first.size) == OwnCount(d, first.j, first.size)
    ensures Fewest(u, v, f, d, Picked(u, v, f, d, f.end1, f.begin2))
  {
    hide Picked, CountIn, Longest;
    PickedIs(u, v, f, d);
    PickedFewestIff(u, v, f, d);
  }

  // ---------- two shortcomings ----------

  /** A row of the first list that the second one has once, or not at all. */
  lemma {:induction false} RowOnce(u: seq<nat>, v: seq<nat>, f: Frame, d: seq<Chunk>, i: nat, j: nat)
    requires Fits(u, v, f) && f.begin1 <= i < f.end1 && f.begin2 <= j < f.end2 && u[i] == v[j]
    requires forall y :: f.begin2 <= y < f.end2 && y != j ==> v[y] != u[i]
    ensures Picked(u, v, f, d, i + 1, f.begin2) ==
            Better(d, Picked(u, v, f, d, i, f.begin2), i, j, Run(u, v, f, i, j))
  {
    PickedSkip(u, v, f, d, i, f.begin2, j);
    RunAtMatch(u, v, f, d, i, j);
    PickedSkip(u, v, f, d, i, j + 1, f.end2);
  }

  lemma {:induction false} RowNever(u: seq<nat>, v: seq<nat>, f: Frame, d: seq<Chunk>, i: nat)
    requires Fits(u, v, f) && f.begin1 <= i < f.end1
    requires forall y :: f.begin2 <= y < f.end2 ==> v[y] != u[i]
    ensures Picked(u, v, f, d, i + 1, f.begin2) == Picked(u, v, f, d, i, f.begin2)
  {
    PickedSkip(u, v, f, d, i, f.begin2, f.end2);
  }

  lemma {:induction false} RunOne(u: seq<nat>, v: seq<nat>, f: Frame, i: nat, j: nat)
    requires i < |u| && j < |v| && f.begin1 <= i && f.begin2 <= j && u[i] == v[j]
    requires f.begin1 < i && f.begin2 < j ==> u[i - 1] != v[j - 1]
    ensures Run(u, v, f, i, j) == 1
  {
  }

  lemma {:induction false} PickedStart(u: seq<nat>, v: seq<nat>, f: Frame, d: seq<Chunk>)
    requires Fits(u, v, f)
    ensures f.begin1 < f.end1 ==> Picked(u, v, f, d, f.begin1, f.begin2) == Match(f.begin1, f.begin2, 0, Some(0))
  {
  }

  /** Two blocks of two rows, one of them with a modified row: that one is chosen, since
      for it the rows up to where it begins are counted. */
  lemma {:induction false} ModifiedBlockPreferred(u: seq<nat>, v: seq<nat>, d: seq<Chunk>)
    requires |u| == 4 && NoDup(u) && v == u[2..] + u[..2] && |d| == 1 && Flat(d) == [Range(3, 4)]
    ensures Picked(u, v, Frame(0, 4, 0, 4), d, 4, 0) == Match(0, 2, 2, Some(0))
    ensures Same(u, v, 2, 0, 2) && CountIn(d, 2, 4) == 1 && CountIn(d, 0, 2) == 0
  {
    hide Picked, Run, CountIn;
    var f := Frame(0, 4, 0, 4);
    OneCounted(d);
    PickedStart(u, v, f, d);
    RowOnce(u, v, f, d, 0, 2);
    RunOne(u, v, f, 0, 2);
    RowOnce(u, v, f, d, 1, 3);
    RunNext(u, v, f, 1, 3);
    RowOnce(u, v, f, d, 2, 0);
    RunOne(u, v, f, 2, 0);
    RowOnce(u, v, f, d, 3, 1);
    RunNext(u, v, f, 3, 1);
  }

  lemma {:induction false} RunNext(u: seq<nat>, v: seq<nat>, f: Frame, i: nat, j: nat)
    requires i < |u| && j < |v| && f.begin1 < i && f.begin2 < j && u[i] == v[j]
    ensures Run(u, v, f, i, j) == 1 + Run(u, v, f, i - 1, j - 1)
  {
  }

  lemma {:induction false} OneCounted(d: seq<Chunk>)
    requires |d| == 1 && Flat(d) == [Range(3, 4)]
    ensures CountIn(d, 1, 3) == 0 && CountIn(d, 0, 2) == 0 && CountIn(d, 2, 4) == 1
  {
    hide Flat;
    var rs := Flat(d);
    forall x: int ensures CountBelow(rs, x) == if x < 4 then 0 else 1 {
      assert rs[1..] == [];
    }
  }

  /** Between the two blocks found here both lists have a row, the fourth of the first
      one, which is not found: the part to search ends earlier in the second list than
      the first block does in the first one. */
  lemma {:induction false} CommonRowMissed(u: seq<nat>, v: seq<nat>)
    requires |u| == 7 && NoDup(u) && v == [u[1], u[3], u[5], u[6], u[0], u[2], u[4]]
    ensures Blocks(u, v, [], Frame(0, 7, 0, 7)) == [Match(1, 0, 1, Some(0)), Match(5, 2, 2, None)]
  {
    hide Picked, Blocks, CountIn;
    var f, g := Frame(0, 7, 0, 7), Frame(0, 5, 0, 2);
    OutermostBlock(u, v);
    LeftBlock(u, v);
    BlocksMeans(u, v, [], g);
    BlocksMeans(u, v, [], f);
  }

  lemma {:induction false} OutermostBlock(u: seq<nat>, v: seq<nat>)
    requires |u| == 7 && NoDup(u) && v == [u[1], u[3], u[5], u[6], u[0], u[2], u[4]]
    ensures Picked(u, v, Frame(0, 7, 0, 7), [], 7, 0) == Match(5, 2, 2, None)
  {
    hide Picked, Run, CountIn;
    var f := Frame(0, 7, 0, 7);
    PickedStart(u, v, f, []);
    Single(u, v, f, 0, 4);
    Single(u, v, f, 1, 0);
    Single(u, v, f, 2, 5);
    Single(u, v, f, 3, 1);
    Single(u, v, f, 4, 6);
    Single(u, v, f, 5, 2);
    RowOnce(u, v, f, [], 6, 3);
    RunNext(u, v, f, 6, 3);
    RunOne(u, v, f, 5, 2);
  }

  lemma {:induction false} LeftBlock(u: seq<nat>, v: seq<nat>)
    requires |u| == 7 && NoDup(u) && v == [u[1], u[3], u[5], u[6], u[0], u[2], u[4]]
    ensures Picked(u, v, Frame(0, 5, 0, 2), [], 5, 0) == Match(1, 0, 1, Some(0))
  {
    hide Picked, Run, CountIn;
    var f := Frame(0, 5, 0, 2);
    PickedStart(u, v, f, []);
    RowNever(u, v, f, [], 0);
    Single(u, v, f, 1, 0);
    RowNever(u, v, f, [], 2);
    Single(u, v, f, 3, 1);
    RowNever(u, v, f, [], 4);
  }

  /** A row in common by itself is chosen if it is the first one. */
  lemma {:induction false} Single(u: seq<nat>, v: seq<nat>, f: Frame, i: nat, j: nat)
    requires Fits(u, v, f) && f.begin1 <= i < f.end1 && f.begin2 <= j < f.end2 && u[i] == v[j]
    requires forall y :: f.begin2 <= y < f.end2 && y != j ==> v[y] != u[i]
    requires f.begin1 < i && f.begin2 < j ==> u[i - 1] != v[j - 1]
    requires Picked(u, v, f, [], i, f.begin2).modified != None ==> Picked(u, v, f, [], i, f.begin2).modified == Some(0)
    ensures var best := Picked(u, v, f, [], i, f.begin2);
      Picked(u, v, f, [], i + 1, f.begin2) ==
      if best.size == 0 then Match(i, j, 1, None) else if best.size == 1 then best.(modified := Some(0)) else best
  {
    hide Picked;
    RunOne(u, v, f, i, j);
    RowOnce(u, v, f, [], i, j);
    NoneCounted();
  }

  lemma {:induction false} NoneCounted()
    ensures forall start: int, end: int :: CountIn([], start, end) == 0
  {
  }
}
