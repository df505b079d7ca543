/** What the index-set operations do to the flat list of ranges, and what that
    means for the members. `p` is always where the search for the index stopped. */
module RangeOps {
  import opened Ranges

  function ShiftAll(rs: seq<Range>, d: int): (r: seq<Range>)
    ensures |r| == |rs|
    ensures forall i :: 0 <= i < |rs| ==> r[i] == Range(rs[i].first + d, rs[i].second + d)
  {
    seq(|rs|, i requires 0 <= i < |rs| => Range(rs[i].first + d, rs[i].second + d))
  }

  /** The ranges from `a` on moved by `d`. */
  function MovedFrom(rs: seq<Range>, a: nat, d: int): seq<Range>
    requires a <= |rs|
  {
    rs[..a] + ShiftAll(rs[a..], d)
  }

  lemma {:induction false} InShiftAll(rs: seq<Range>, d: int, x: int)
    ensures In(ShiftAll(rs, d), x) <==> In(rs, x - d)
  {
    if rs != [] {
      assert ShiftAll(rs, d)[1..] == ShiftAll(rs[1..], d);
      InShiftAll(rs[1..], d, x);
    }
  }

  // ---------- what each operation means for the members ----------

  /** The index joined the set. */
  ghost predicate AddSpec(was: seq<Range>, now: seq<Range>, index: int) {
    forall x {:trigger In(now, x)} :: In(now, x) <==> In(was, x) || x == index
  }

  /** The indices `index..index + count` joined the set. */
  ghost predicate FillSpec(was: seq<Range>, now: seq<Range>, index: int, count: int) {
    forall x {:trigger In(now, x)} :: In(now, x) <==> In(was, x) || index <= x < index + count
  }

  /** `count` new positions in the set opened at `index`; later members moved up. */
  ghost predicate InsertSpec(was: seq<Range>, now: seq<Range>, index: int, count: int) {
    forall x {:trigger In(now, x)} :: In(now, x) <==>
      (x < index && In(was, x)) || index <= x < index + count || (x >= index + count && In(was, x - count))
  }

  /** `count` new positions outside the set opened at `index`. */
  ghost predicate PartSpec(was: seq<Range>, now: seq<Range>, index: int, count: int) {
    forall x {:trigger In(now, x)} :: In(now, x) <==>
      (x < index && In(was, x)) || (x >= index + count && In(was, x - count))
  }

  /** The position `index` is gone; later members moved down by one. */
  ghost predicate EraseSpec(was: seq<Range>, now: seq<Range>, index: int) {
    forall x {:trigger In(now, x)} :: In(now, x) <==>
      (x < index && In(was, x)) || (x >= index && In(was, x + 1))
  }

  /** The indices `index..index + count` left the set; nothing moved. */
  ghost predicate RemoveSpec(was: seq<Range>, now: seq<Range>, index: int, count: int) {
    forall x {:trigger In(now, x)} :: In(now, x) <==> In(was, x) && !(index <= x < index + count)
  }

  lemma {:induction false} InOne(r: Range, x: int)
    ensures In([r], x) <==> Covers(r, x)
  {
  }

  lemma {:induction false} In3(a: seq<Range>, r: Range, b: seq<Range>, x: int)
    ensures In(a + [r] + b, x) <==> In(a, x) || Covers(r, x) || In(b, x)
  {
    InSplit(a + [r], b, x);
    InSplit(a, [r], x);
    InOne(r, x);
  }

  /** Members before and after the search stop. */
  lemma {:induction false} InAroundStop(rs: seq<Range>, index: int, p: nat, x: int)
    requires Ordered(rs) && SearchStop(rs, index, p)
    ensures In(rs[..p], x) ==> x < index
    ensures In(rs[p..], x) && p < |rs| ==> x >= rs[p].first
    ensures p < |rs| ==> (In(rs[p + 1..], x) ==> x >= rs[p].second)
    ensures p < |rs| ==> (In(rs[p..], x) <==> Covers(rs[p], x) || In(rs[p + 1..], x))
    ensures In(rs, x) <==> In(rs[..p], x) || In(rs[p..], x)
  {
    AroundSplit(rs, p, x);
    if In(rs[..p], x) {
      var i := InIndex(rs[..p], x);
      assert rs[i].second <= index;
    }
    if p < |rs| {
      assert rs[p..][1..] == rs[p + 1..];
      if In(rs[p + 1..], x) {
        var i := InIndex(rs[p + 1..], x);
        assert rs[p].second <= rs[p + 1 + i].first;
      }
    }
  }

  // ---------- putting lists together ----------

  lemma {:induction false} Join(a: seq<Range>, b: seq<Range>)
    requires Separated(a) && Separated(b)
    requires a != [] && b != [] ==> a[|a| - 1].second < b[0].first
    ensures Separated(a + b)
  {
  }

  lemma {:induction false} Join3(a: seq<Range>, r: Range, b: seq<Range>)
    requires Separated(a) && Separated(b) && 0 <= r.first < r.second
    requires a != [] ==> a[|a| - 1].second < r.first
    requires b != [] ==> r.second < b[0].first
    ensures Separated(a + [r] + b)
  {
  }

  lemma {:induction false} Cut(rs: seq<Range>, p: nat)
    requires Separated(rs) && p <= |rs|
    ensures Separated(rs[..p]) && Separated(rs[p..])
    ensures p > 0 ==> 0 <= rs[p - 1].first < rs[p - 1].second
    ensures p > 1 ==> rs[p - 2].second < rs[p - 1].first
    ensures 0 < p < |rs| ==> rs[p - 1].second < rs[p].first
  {
  }

  lemma {:induction false} SeparatedShift(rs: seq<Range>, d: int)
    requires Separated(rs) && (rs != [] ==> rs[0].first + d >= 0)
    ensures Separated(ShiftAll(rs, d))
  {
  }

  // ---------- adding one index ----------

  /** The two neighbours of a search stop. */
  predicate StopEdges(rs: seq<Range>, x: int, p: nat) {
    p <= |rs| && (p > 0 ==> rs[p - 1].second <= x) && (p < |rs| ==> x < rs[p].second)
  }

  lemma {:induction false} Edges(rs: seq<Range>, x: int, p: nat)
    requires SearchStop(rs, x, p)
    ensures StopEdges(rs, x, p)
  {
  }

  /** One range in place of the ranges `i..j`. */
  lemma {:induction false} Replace2(rs: seq<Range>, i: nat, j: nat, r: Range)
    requires Separated(rs) && i <= j <= |rs| && 0 <= r.first < r.second
    requires i > 0 ==> rs[i - 1].second < r.first
    requires j < |rs| ==> r.second < rs[j].first
    ensures Separated(rs[..i] + [r] + rs[j..])
  {
  }

  /** One range in place of `i..j`, and the rest moved. */
  lemma {:induction false} ReplaceShift(rs: seq<Range>, i: nat, j: nat, r: Range, d: int)
    requires Separated(rs) && i <= j <= |rs| && 0 <= r.first < r.second
    requires i > 0 ==> rs[i - 1].second < r.first
    requires j < |rs| ==> r.second < rs[j].first + d
    ensures Separated(rs[..i] + [r] + ShiftAll(rs[j..], d))
  {
    hide Separated;
    Cut(rs, i);
    Cut(rs, j);
    SeparatedShift(rs[j..], d);
    Join3(rs[..i], r, ShiftAll(rs[j..], d));
  }

  /** The ranges `i..j` dropped, and the rest moved. */
  lemma {:induction false} DropShift(rs: seq<Range>, i: nat, j: nat, d: int)
    requires Separated(rs) && i <= j <= |rs|
    requires j < |rs| ==> 0 <= rs[j].first + d
    requires 0 < i && j < |rs| ==> rs[i - 1].second < rs[j].first + d
    ensures Separated(rs[..i] + ShiftAll(rs[j..], d))
  {
    hide Separated;
    Cut(rs, i);
    Cut(rs, j);
    SeparatedShift(rs[j..], d);
    Join(rs[..i], ShiftAll(rs[j..], d));
  }

  lemma {:induction false} UpdateSplices(rs: seq<Range>, p: nat, r: Range)
    requires p < |rs|
    ensures rs[p := r] == rs[..p] + [r] + rs[p + 1..]
  {
  }

  /** The range at `r` took the index; an addition clear of the next range leaves that
      range and all later ones as they were, right behind it. */
  ghost predicate TailKept(was: seq<Range>, p: nat, now: seq<Range>, r: nat, index: int)
    requires p <= |was| && r < |now|
  {
    && Covers(now[r], index)
    && ((p < |was| ==> index + 1 < was[p].first) ==> now[r + 1..] == was[p..] && now[r].second == index + 1)
  }

  lemma {:induction false} UpdateTwice(rs: seq<Range>, p: nat, a: Range, b: Range)
    requires p < |rs|
    ensures rs[p := a][p := b] == rs[p := b]
  {
  }

  /** Already in the set. */
  lemma {:induction false} AddPresent(rs: seq<Range>, p: nat, index: int)
    requires p < |rs| && Covers(rs[p], index)
    ensures AddSpec(rs, rs, index) && TailKept(rs, p, rs, p, index)
  {
    IndexIn(rs, index, p);
  }

  /** Right after the range before: that range grows. */
  lemma {:induction false} AddGrow(rs: seq<Range>, p: nat, index: int)
    requires Separated(rs) && 0 < p <= |rs| && rs[p - 1].second == index
    requires p < |rs| ==> index + 1 < rs[p].first
    ensures Separated(rs[p - 1 := Range(rs[p - 1].first, index + 1)])
    ensures AddSpec(rs, rs[p - 1 := Range(rs[p - 1].first, index + 1)], index)
    ensures TailKept(rs, p, rs[p - 1 := Range(rs[p - 1].first, index + 1)], p - 1, index)
  {
    var r := Range(rs[p - 1].first, index + 1);
    UpdateSplices(rs, p - 1, r);
    Replace2(rs, p - 1, p, r);
    assert rs == rs[..p - 1] + [rs[p - 1]] + rs[p..];
    var now := rs[p - 1 := r];
    forall x {:trigger In(now, x)} ensures In(now, x) <==> In(rs, x) || x == index {
      In3(rs[..p - 1], rs[p - 1], rs[p..], x);
      In3(rs[..p - 1], r, rs[p..], x);
    }
  }

  /** Between two ranges that touch it: they become one. */
  lemma {:induction false} AddJoin(rs: seq<Range>, p: nat, index: int)
    requires Separated(rs) && 0 < p < |rs| && rs[p - 1].second == index && rs[p].first == index + 1
    ensures var g := rs[p - 1 := Range(rs[p - 1].first, rs[p].second)];
      && Separated(g[..p] + g[p + 1..]) && AddSpec(rs, g[..p] + g[p + 1..], index)
      && TailKept(rs, p, g[..p] + g[p + 1..], p - 1, index)
  {
    var r := Range(rs[p - 1].first, rs[p].second);
    var g := rs[p - 1 := r];
    assert g[..p] + g[p + 1..] == rs[..p - 1] + [r] + rs[p + 1..];
    Replace2(rs, p - 1, p + 1, r);
    assert rs == rs[..p - 1] + [rs[p - 1]] + ([rs[p]] + rs[p + 1..]);
    var now := g[..p] + g[p + 1..];
    forall x {:trigger In(now, x)} ensures In(now, x) <==> In(rs, x) || x == index {
      In3(rs[..p - 1], rs[p - 1], [rs[p]] + rs[p + 1..], x);
      InSplit([rs[p]], rs[p + 1..], x);
      InOne(rs[p], x);
      In3(rs[..p - 1], r, rs[p + 1..], x);
    }
  }

  /** Right before a range: that range grows downwards. */
  lemma {:induction false} AddBefore(rs: seq<Range>, p: nat, index: nat)
    requires Separated(rs) && p < |rs| && rs[p].first == index + 1
    requires p > 0 ==> rs[p - 1].second < index
    ensures Separated(rs[p := Range(index, rs[p].second)])
    ensures AddSpec(rs, rs[p := Range(index, rs[p].second)], index)
    ensures TailKept(rs, p, rs[p := Range(index, rs[p].second)], p, index)
  {
    var r := Range(index, rs[p].second);
    UpdateSplices(rs, p, r);
    Replace2(rs, p, p + 1, r);
    assert rs == rs[..p] + [rs[p]] + rs[p + 1..];
    var now := rs[p := r];
    forall x {:trigger In(now, x)} ensures In(now, x) <==> In(rs, x) || x == index {
      In3(rs[..p], rs[p], rs[p + 1..], x);
      In3(rs[..p], r, rs[p + 1..], x);
    }
  }

  /** Next to nothing: a range of its own. */
  lemma {:induction false} AddAlone(rs: seq<Range>, p: nat, index: nat)
    requires Separated(rs) && p <= |rs|
    requires p > 0 ==> rs[p - 1].second < index
    requires p < |rs| ==> index + 1 < rs[p].first
    ensures Separated(rs[..p] + [Range(index, index + 1)] + rs[p..])
    ensures AddSpec(rs, rs[..p] + [Range(index, index + 1)] + rs[p..], index)
    ensures TailKept(rs, p, rs[..p] + [Range(index, index + 1)] + rs[p..], p, index)
  {
    Replace2(rs, p, p, Range(index, index + 1));
    AddAloneMeans(rs, p, index);
    var now := rs[..p] + [Range(index, index + 1)] + rs[p..];
    assert now[p + 1..] == rs[p..];
  }

  lemma {:induction false} InPut(rs: seq<Range>, p: nat, r: Range, x: int)
    requires p <= |rs|
    ensures In(rs[..p] + [r] + rs[p..], x) <==> In(rs, x) || Covers(r, x)
  {
    AroundSplit(rs, p, x);
    In3(rs[..p], r, rs[p..], x);
  }

  lemma {:induction false} AddAloneMeans(rs: seq<Range>, p: nat, index: int)
    requires p <= |rs|
    ensures AddSpec(rs, rs[..p] + [Range(index, index + 1)] + rs[p..], index)
  {
    var now := rs[..p] + [Range(index, index + 1)] + rs[p..];
    forall x {:trigger In(now, x)} ensures In(now, x) <==> In(rs, x) || x == index {
      InPut(rs, p, Range(index, index + 1), x);
    }
  }

  lemma {:induction false} FillMore(was: seq<Range>, now: seq<Range>, next: seq<Range>, index: int, i: nat)
    requires FillSpec(was, now, index, i) && AddSpec(now, next, index + i)
    ensures FillSpec(was, next, index, i + 1)
  {
  }

  // ---------- inserting positions ----------

  /** The first half of `insert_at`: grow the range that contains the index, or
      move it, and move everything after it. */
  function Opened(rs: seq<Range>, p: nat, index: int, count: int): seq<Range>
    requires p <= |rs|
  {
    if p < |rs| && rs[p].first <= index then
      rs[..p] + [Range(rs[p].first, rs[p].second + count)] + ShiftAll(rs[p + 1..], count)
    else rs[..p] + ShiftAll(rs[p..], count)
  }

  lemma {:induction false} Neighbours(rs: seq<Range>, p: nat)
    requires Separated(rs) && p < |rs|
    ensures 0 <= rs[p].first < rs[p].second
    ensures p > 0 ==> rs[p - 1].second < rs[p].first
    ensures p + 1 < |rs| ==> rs[p].second < rs[p + 1].first
  {
  }

  lemma {:induction false} OpenedSeparated(rs: seq<Range>, p: nat, index: int, count: nat)
    requires Separated(rs) && StopEdges(rs, index, p)
    ensures Separated(Opened(rs, p, index, count))
  {
    hide Separated;
    if p < |rs| {
      Neighbours(rs, p);
    }
    if p < |rs| && rs[p].first <= index {
      ReplaceShift(rs, p, p + 1, Range(rs[p].first, rs[p].second + count), count);
    } else {
      DropShift(rs, p, p, count);
    }
  }

  lemma {:induction false} OpenedStop(rs: seq<Range>, p: nat, index: int, count: nat)
    requires Separated(rs) && SearchStop(rs, index, p)
    ensures SearchStop(Opened(rs, p, index, count), index, p)
  {
  }

  lemma {:induction false} OpenedMembers(rs: seq<Range>, p: nat, index: int, count: nat, x: int)
    requires Separated(rs) && SearchStop(rs, index, p)
    ensures In(Opened(rs, p, index, count), x) <==>
      (x < index && In(rs, x)) || (x >= index + count && In(rs, x - count))
      || (In(rs, index) && index <= x < index + count)
  {
    InAroundStop(rs, index, p, x);
    InAroundStop(rs, index, p, x - count);
    InAroundStop(rs, index, p, index);
    if p < |rs| && rs[p].first <= index {
      assert Covers(rs[p], index);
      In3(rs[..p], Range(rs[p].first, rs[p].second + count), ShiftAll(rs[p + 1..], count), x);
      InShiftAll(rs[p + 1..], count, x);
    } else {
      InSplit(rs[..p], ShiftAll(rs[p..], count), x);
      InShiftAll(rs[p..], count, x);
    }
  }

  lemma {:induction false} InsertInside(rs: seq<Range>, p: nat, index: nat, count: nat)
    requires Separated(rs) && SearchStop(rs, index, p) && p < |rs| && rs[p].first <= index && count > 0
    ensures var g := rs[p := Range(rs[p].first, rs[p].second + count)];
      var now := MovedFrom(g, p + 1, count);
      Separated(now) && InsertSpec(rs, now, index, count)
  {
    var r := Range(rs[p].first, rs[p].second + count);
    var g := rs[p := r];
    assert g[..p + 1] == rs[..p] + [r] && g[p + 1..] == rs[p + 1..];
    OpenedSeparated(rs, p, index, count);
    AtStop(rs, index, p);
    var now := Opened(rs, p, index, count);
    forall x {:trigger In(now, x)} ensures In(now, x) <==>
      (x < index && In(rs, x)) || index <= x < index + count || (x >= index + count && In(rs, x - count))
    {
      OpenedMembers(rs, p, index, count, x);
    }
  }

  /** Outside the set the later ranges move first; the gap is filled afterwards. */
  lemma {:induction false} InsertOutside(rs: seq<Range>, p: nat, index: nat, count: nat)
    requires Separated(rs) && SearchStop(rs, index, p) && (p < |rs| ==> index < rs[p].first) && count > 0
    ensures var now := MovedFrom(rs, p, count);
      && Separated(now) && SearchStop(now, index, p)
      && (p < |rs| ==> index + count < now[p].first)
      && PartSpec(rs, now, index, count)
  {
    OpenedSeparated(rs, p, index, count);
    OpenedStop(rs, p, index, count);
    AtStop(rs, index, p);
    var now := rs[..p] + ShiftAll(rs[p..], count);
    assert PartSpec(rs, now, index, count) by {
      forall x {:trigger In(now, x)} ensures In(now, x) <==>
        (x < index && In(rs, x)) || (x >= index + count && In(rs, x - count))
      {
        OpenedMembers(rs, p, index, count, x);
      }
    }
  }

  lemma {:induction false} FilledIsInserted(rs: seq<Range>, now: seq<Range>, last: seq<Range>, index: int, count: int)
    requires PartSpec(rs, now, index, count) && FillSpec(now, last, index, count)
    ensures InsertSpec(rs, last, index, count)
  {
  }

  lemma {:induction false} ShiftedFirst(rs: seq<Range>, p: nat, count: int)
    requires p < |rs|
    ensures var g := rs[p := Range(rs[p].first + count, rs[p].second + count)];
      MovedFrom(g, p + 1, count) == MovedFrom(rs, p, count)
  {
  }

  /** `shift_for_insert_at`: like `insert_at`, but the new positions stay out. */
  function Parted(rs: seq<Range>, p: nat, index: int, count: int): seq<Range>
    requires p <= |rs|
  {
    if p < |rs| && rs[p].first < index then
      rs[..p] + [Range(rs[p].first, index), Range(index + count, rs[p].second + count)]
      + ShiftAll(rs[p + 1..], count)
    else rs[..p] + ShiftAll(rs[p..], count)
  }

  lemma {:induction false} PartedSeparated(rs: seq<Range>, p: nat, index: int, count: nat)
    requires Separated(rs) && StopEdges(rs, index, p) && count > 0
    ensures Separated(Parted(rs, p, index, count))
  {
    if p < |rs| && rs[p].first < index {
      var l, r := Range(rs[p].first, index), Range(index + count, rs[p].second + count);
      PartedPieces(rs, p, l, r, count);
    } else {
      DropShift(rs, p, p, count);
    }
  }

  lemma {:induction false} PartedPieces(rs: seq<Range>, p: nat, l: Range, r: Range, count: nat)
    requires Separated(rs) && p < |rs| && 0 <= l.first < l.second < r.first < r.second
    requires p > 0 ==> rs[p - 1].second < l.first
    requires p + 1 < |rs| ==> r.second < rs[p + 1].first + count
    ensures Separated(rs[..p] + [l, r] + ShiftAll(rs[p + 1..], count))
  {
    Cut(rs, p);
    Cut(rs, p + 1);
    Pieces4(rs[..p], l, r, rs[p + 1..], count);
  }

  lemma {:induction false} Pieces4(a: seq<Range>, l: Range, r: Range, b: seq<Range>, count: nat)
    requires Separated(a) && Separated(b) && 0 <= l.first < l.second < r.first < r.second
    requires a != [] ==> a[|a| - 1].second < l.first
    requires b != [] ==> r.second < b[0].first + count
    ensures Separated(a + [l, r] + ShiftAll(b, count))
  {
    SeparatedShift(b, count);
    Join(a, [l]);
    Join3(a + [l], r, ShiftAll(b, count));
    assert a + [l, r] == a + [l] + [r];
  }

  lemma {:induction false} PartedParts(rs: seq<Range>, p: nat, index: int, count: nat, x: int)
    requires p < |rs| && rs[p].first < index
    ensures In(Parted(rs, p, index, count), x) <==>
      In(rs[..p], x) || Covers(Range(rs[p].first, index), x)
      || Covers(Range(index + count, rs[p].second + count), x) || In(rs[p + 1..], x - count)
  {
    var l, r := Range(rs[p].first, index), Range(index + count, rs[p].second + count);
    var tail := ShiftAll(rs[p + 1..], count);
    assert Parted(rs, p, index, count) == (rs[..p] + [l]) + [r] + tail;
    In3(rs[..p] + [l], r, tail, x);
    InSplit(rs[..p], [l], x);
    InOne(l, x);
    InShiftAll(rs[p + 1..], count, x);
  }

  lemma {:induction false} PartedMembers(rs: seq<Range>, p: nat, index: int, count: nat, x: int)
    requires Separated(rs) && SearchStop(rs, index, p) && count > 0
    ensures In(Parted(rs, p, index, count), x) <==>
      (x < index && In(rs, x)) || (x >= index + count && In(rs, x - count))
  {
    InAroundStop(rs, index, p, x);
    InAroundStop(rs, index, p, x - count);
    if p < |rs| && rs[p].first < index {
      PartedParts(rs, p, index, count, x);
    } else {
      InSplit(rs[..p], ShiftAll(rs[p..], count), x);
      InShiftAll(rs[p..], count, x);
    }
  }

  lemma {:induction false} PartMeans(rs: seq<Range>, p: nat, index: nat, count: nat)
    requires Separated(rs) && SearchStop(rs, index, p) && count > 0
    ensures Separated(Parted(rs, p, index, count)) && PartSpec(rs, Parted(rs, p, index, count), index, count)
  {
    PartedSeparated(rs, p, index, count);
    var now := Parted(rs, p, index, count);
    forall x {:trigger In(now, x)} ensures In(now, x) <==>
      (x < index && In(rs, x)) || (x >= index + count && In(rs, x - count))
    {
      PartedMembers(rs, p, index, count, x);
    }
  }

  // ---------- erasing a position ----------

  /** `do_erase`: shrink or drop the range at the index, or glue the two around a
      gap of one; then everything after moves down. */
  function ErasedAt(rs: seq<Range>, p: nat, index: int): seq<Range>
    requires p < |rs|
  {
    if rs[p].first <= index then
      if rs[p].first + 1 == rs[p].second then rs[..p] + ShiftAll(rs[p + 1..], -1)
      else rs[..p] + [Range(rs[p].first, rs[p].second - 1)] + ShiftAll(rs[p + 1..], -1)
    else if p > 0 && rs[p - 1].second + 1 == rs[p].first then
      rs[..p - 1] + [Range(rs[p - 1].first, rs[p - 1].second + (rs[p].second - rs[p].first))]
      + ShiftAll(rs[p + 1..], -1)
    else rs[..p] + ShiftAll(rs[p..], -1)
  }

  lemma {:induction false} ErasedSeparated(rs: seq<Range>, p: nat, index: nat)
    requires Separated(rs) && StopEdges(rs, index, p) && p < |rs|
    ensures Separated(ErasedAt(rs, p, index))
  {
    if rs[p].first <= index {
      if rs[p].first + 1 == rs[p].second {
        DropShift(rs, p, p + 1, -1);
      } else {
        ReplaceShift(rs, p, p + 1, Range(rs[p].first, rs[p].second - 1), -1);
      }
    } else if p > 0 && rs[p - 1].second + 1 == rs[p].first {
      ReplaceShift(rs, p - 1, p + 1,
                   Range(rs[p - 1].first, rs[p - 1].second + (rs[p].second - rs[p].first)), -1);
    } else {
      DropShift(rs, p, p, -1);
    }
  }

  /** The members after the range at the index lost one place. */
  lemma {:induction false} ErasedInside(rs: seq<Range>, p: nat, index: int, x: int)
    requires Separated(rs) && SearchStop(rs, index, p) && p < |rs| && rs[p].first <= index
    ensures In(ErasedAt(rs, p, index), x) <==>
      In(rs[..p], x) || Covers(Range(rs[p].first, rs[p].second - 1), x) || In(rs[p + 1..], x + 1)
  {
    InShiftAll(rs[p + 1..], -1, x);
    if rs[p].first + 1 == rs[p].second {
      InSplit(rs[..p], ShiftAll(rs[p + 1..], -1), x);
    } else {
      In3(rs[..p], Range(rs[p].first, rs[p].second - 1), ShiftAll(rs[p + 1..], -1), x);
    }
  }

  /** The members after two ranges were glued over a gap of one. */
  lemma {:induction false} ErasedGlued(rs: seq<Range>, p: nat, index: int, x: int)
    requires SearchStop(rs, index, p) && 0 < p < |rs| && index < rs[p].first
    requires rs[p - 1].second + 1 == rs[p].first && rs[p].first < rs[p].second
    requires rs[p - 1].first < rs[p - 1].second
    ensures In(ErasedAt(rs, p, index), x) <==>
      In(rs[..p], x) || Covers(rs[p], x + 1) || In(rs[p + 1..], x + 1)
  {
    InShiftAll(rs[p + 1..], -1, x);
    assert rs[..p] == rs[..p - 1] + [rs[p - 1]];
    InSplit(rs[..p - 1], [rs[p - 1]], x);
    InOne(rs[p - 1], x);
    var glued := Range(rs[p - 1].first, rs[p - 1].second + (rs[p].second - rs[p].first));
    In3(rs[..p - 1], glued, ShiftAll(rs[p + 1..], -1), x);
  }

  lemma {:induction false} ErasedPlain(rs: seq<Range>, p: nat, index: int, x: int)
    requires p < |rs| && index < rs[p].first
    requires p > 0 ==> rs[p - 1].second + 1 != rs[p].first
    ensures In(ErasedAt(rs, p, index), x) <==>
      In(rs[..p], x) || Covers(rs[p], x + 1) || In(rs[p + 1..], x + 1)
  {
    InSplit(rs[..p], ShiftAll(rs[p..], -1), x);
    InShiftAll(rs[p..], -1, x);
    assert rs[p..][1..] == rs[p + 1..];
  }

  /** The members of the result in terms of what lies before, at and after the stop. */
  lemma {:induction false} ErasedParts(rs: seq<Range>, p: nat, index: int, x: int)
    requires Separated(rs) && SearchStop(rs, index, p) && p < |rs|
    ensures In(ErasedAt(rs, p, index), x) <==>
      In(rs[..p], x) || In(rs[p + 1..], x + 1)
      || Covers(if rs[p].first <= index then Range(rs[p].first, rs[p].second - 1)
                else Range(rs[p].first - 1, rs[p].second - 1), x)
  {
    if rs[p].first <= index {
      ErasedInside(rs, p, index, x);
    } else if p > 0 && rs[p - 1].second + 1 == rs[p].first {
      ErasedGlued(rs, p, index, x);
    } else {
      ErasedPlain(rs, p, index, x);
    }
  }

  lemma {:induction false} ErasedMembers(rs: seq<Range>, p: nat, index: int, x: int)
    requires Separated(rs) && SearchStop(rs, index, p) && p < |rs|
    ensures In(ErasedAt(rs, p, index), x) <==>
      (x < index && In(rs, x)) || (x >= index && In(rs, x + 1))
  {
    ErasedParts(rs, p, index, x);
    InAroundStop(rs, index, p, x);
    InAroundStop(rs, index, p, x + 1);
  }

  lemma {:induction false} EraseMeans(rs: seq<Range>, p: nat, index: int)
    requires Separated(rs) && SearchStop(rs, index, p) && p < |rs|
    ensures EraseSpec(rs, ErasedAt(rs, p, index), index)
  {
    var now := ErasedAt(rs, p, index);
    forall x {:trigger In(now, x)} ensures In(now, x) <==>
      (x < index && In(rs, x)) || (x >= index && In(rs, x + 1))
    {
      ErasedMembers(rs, p, index, x);
    }
  }

  lemma {:induction false} EraseDropped(rs: seq<Range>, p: nat, index: nat)
    requires Separated(rs) && SearchStop(rs, index, p) && p < |rs|
    requires rs[p].first <= index && rs[p].first + 1 == rs[p].second
    ensures var base := rs[..p] + rs[p + 1..];
      Separated(MovedFrom(base, p, -1)) && EraseSpec(rs, MovedFrom(base, p, -1), index)
  {
    var base := rs[..p] + rs[p + 1..];
    assert base[..p] == rs[..p] && base[p..] == rs[p + 1..];
    ErasedSeparated(rs, p, index);
    EraseMeans(rs, p, index);
  }

  lemma {:induction false} EraseShrunk(rs: seq<Range>, p: nat, index: nat)
    requires Separated(rs) && SearchStop(rs, index, p) && p < |rs|
    requires rs[p].first <= index && rs[p].first + 1 != rs[p].second
    ensures var base := rs[p := Range(rs[p].first, rs[p].second - 1)];
      Separated(MovedFrom(base, p + 1, -1)) && EraseSpec(rs, MovedFrom(base, p + 1, -1), index)
  {
    var less := Range(rs[p].first, rs[p].second - 1);
    var base := rs[p := less];
    assert base[..p + 1] == rs[..p] + [less] && base[p + 1..] == rs[p + 1..];
    ErasedSeparated(rs, p, index);
    EraseMeans(rs, p, index);
  }

  lemma {:induction false} EraseGlued(rs: seq<Range>, p: nat, index: nat)
    requires Separated(rs) && SearchStop(rs, index, p) && 0 < p < |rs|
    requires index < rs[p].first && rs[p - 1].second + 1 == rs[p].first
    ensures var g := rs[p - 1 := Range(rs[p - 1].first, rs[p - 1].second + (rs[p].second - rs[p].first))];
      var base := g[..p] + g[p + 1..];
      Separated(MovedFrom(base, p, -1)) && EraseSpec(rs, MovedFrom(base, p, -1), index)
  {
    var glued := Range(rs[p - 1].first, rs[p - 1].second + (rs[p].second - rs[p].first));
    var g := rs[p - 1 := glued];
    var base := g[..p] + g[p + 1..];
    assert base[..p] == rs[..p - 1] + [glued] && base[p..] == rs[p + 1..];
    ErasedSeparated(rs, p, index);
    EraseMeans(rs, p, index);
  }

  lemma {:induction false} EraseGap(rs: seq<Range>, p: nat, index: nat)
    requires Separated(rs) && SearchStop(rs, index, p) && p < |rs| && index < rs[p].first
    requires p > 0 ==> rs[p - 1].second + 1 != rs[p].first
    ensures Separated(MovedFrom(rs, p, -1)) && EraseSpec(rs, MovedFrom(rs, p, -1), index)
  {
    ErasedSeparated(rs, p, index);
    EraseMeans(rs, p, index);
  }

  /** Nothing at or after the index: erasing there changes nothing. */
  lemma {:induction false} ErasePastEnd(rs: seq<Range>, index: int)
    requires SearchStop(rs, index, |rs|)
    ensures EraseSpec(rs, rs, index)
  {
    forall x | x >= index ensures !In(rs, x) {
      NotIn(rs, x);
    }
  }

  // ---------- removing a stretch ----------

  /** While removing: nothing of `begin0..begin` is left, nothing outside `begin0..end` is lost. */
  ghost predicate RemoveInv(was: seq<Range>, now: seq<Range>, begin0: int, begin: int, end: int) {
    forall x {:trigger In(now, x)} :: In(now, x) ==> In(was, x) && !(begin0 <= x < begin)
  }

  ghost predicate RemoveKeeps(was: seq<Range>, now: seq<Range>, begin0: int, end: int) {
    forall x {:trigger In(was, x)} :: In(was, x) && !(begin0 <= x < end) ==> In(now, x)
  }

  lemma {:induction false} StopEnds(rs: seq<Range>, begin: int, p: nat, end: int)
    requires SearchStop(rs, begin, p) && begin <= end
    ensures EndBy(rs, p, end)
  {
  }

  /** The first range ending after `begin` starts at or after `lo`: nothing is between. */
  lemma {:induction false} NothingBetween(rs: seq<Range>, begin: int, p: nat, x: int)
    requires Separated(rs) && SearchStop(rs, begin, p) && begin <= x
    requires p < |rs| ==> x < rs[p].first
    ensures !In(rs, x)
  {
    InAroundStop(rs, begin, p, x);
    if p == |rs| {
      assert rs[p..] == [];
    }
  }

  /** One round of the removal loop. */
  lemma {:induction false} RemoveRound(was: seq<Range>, now: seq<Range>, next: seq<Range>, begin0: int, begin: int, end: int,
                    p: nat, lo: int, hi: int)
    requires RemoveInv(was, now, begin0, begin, end) && RemoveKeeps(was, now, begin0, end)
    requires Separated(now) && SearchStop(now, begin, p) && p < |now|
    requires begin0 <= begin <= lo < hi <= end && lo == Max(now[p].first, begin)
    requires RemoveSpec(now, next, lo, hi - lo)
    ensures RemoveInv(was, next, begin0, lo, end) && RemoveKeeps(was, next, begin0, end)
  {
    forall x {:trigger In(next, x)} | In(next, x) ensures In(was, x) && !(begin0 <= x < lo) {
      if begin <= x < lo {
        NothingBetween(now, begin, p, x);
      }
    }
    forall x {:trigger In(was, x)} | In(was, x) && !(begin0 <= x < end) ensures In(next, x) {
      assert In(now, x);
      assert In(next, x) <==> In(now, x) && !(lo <= x < hi);
    }
  }

  lemma {:induction false} RemoveEnd(was: seq<Range>, now: seq<Range>, begin0: int, begin: int, end: int, p: nat)
    requires RemoveInv(was, now, begin0, begin, end) && RemoveKeeps(was, now, begin0, end)
    requires Separated(now) && SearchStop(now, begin, p) && begin0 <= begin
    requires p < |now| ==> end <= now[p].first
    ensures RemoveSpec(was, now, begin0, end - begin0)
  {
    forall x {:trigger In(now, x)} ensures In(now, x) <==> In(was, x) && !(begin0 <= x < end) {
      if begin <= x < end {
        NothingBetween(now, begin, p, x);
      }
      if In(was, x) && !(begin0 <= x < end) {
        assert In(now, x);
      }
    }
  }

  lemma {:induction false} InUpdate(rs: seq<Range>, p: nat, r: Range, x: int)
    requires p < |rs|
    ensures In(rs, x) <==> In(rs[..p], x) || Covers(rs[p], x) || In(rs[p + 1..], x)
    ensures In(rs[p := r], x) <==> In(rs[..p], x) || Covers(r, x) || In(rs[p + 1..], x)
  {
    UpdateSplices(rs, p, r);
    UpdateSplices(rs, p, rs[p]);
    assert rs[p := rs[p]] == rs;
    In3(rs[..p], r, rs[p + 1..], x);
    In3(rs[..p], rs[p], rs[p + 1..], x);
  }

  /** Members before and after range `p` lie outside it. */
  lemma {:induction false} Outside(rs: seq<Range>, p: nat, x: int)
    requires Separated(rs) && p < |rs|
    ensures In(rs[..p], x) ==> x < rs[p].first
    ensures In(rs[p + 1..], x) ==> x >= rs[p].second
  {
    if In(rs[..p], x) {
      var i := InIndex(rs[..p], x);
      assert rs[i].second < rs[p].first;
    }
    if In(rs[p + 1..], x) {
      var i := InIndex(rs[p + 1..], x);
      assert rs[p].second < rs[p + 1 + i].first;
    }
  }

  /** A range cut down to `r`, losing the indices `lo..hi`. */
  lemma {:induction false} CutRange(rs: seq<Range>, p: nat, r: Range, lo: int, hi: int)
    requires Separated(rs) && p < |rs| && 0 <= r.first < r.second && lo < hi
    requires rs[p].first <= r.first && r.second <= rs[p].second
    requires (lo == rs[p].first && hi == r.first && r.second == rs[p].second)
      || (hi == rs[p].second && lo == r.second && r.first == rs[p].first)
    ensures Separated(rs[p := r]) && RemoveSpec(rs, rs[p := r], lo, hi - lo)
  {
    UpdateSplices(rs, p, r);
    Replace2(rs, p, p + 1, r);
    var now := rs[p := r];
    forall x {:trigger In(now, x)} ensures In(now, x) <==> In(rs, x) && !(lo <= x < hi) {
      InUpdate(rs, p, r, x);
      Outside(rs, p, x);
    }
  }

  lemma {:induction false} DropRange(rs: seq<Range>, p: nat)
    requires Separated(rs) && p < |rs|
    ensures var now := rs[..p] + rs[p + 1..];
      && Separated(now) && RemoveSpec(rs, now, rs[p].first, rs[p].second - rs[p].first)
      && (p < |now| ==> rs[p].second < now[p].first)
      && |now| == |rs| - 1
  {
    Cut(rs, p);
    Cut(rs, p + 1);
    Join(rs[..p], rs[p + 1..]);
    var now := rs[..p] + rs[p + 1..];
    forall x {:trigger In(now, x)} ensures In(now, x) <==> In(rs, x) && !(rs[p].first <= x < rs[p].second) {
      InSplit(rs[..p], rs[p + 1..], x);
      InUpdate(rs, p, rs[p], x);
      Outside(rs, p, x);
    }
  }

  /** A range split around the indices `lo..hi`. */
  lemma {:induction false} SplitRange(rs: seq<Range>, p: nat, lo: int, hi: int)
    requires Separated(rs) && p < |rs| && rs[p].first < lo < hi < rs[p].second
    ensures var front := rs[p := Range(rs[p].first, lo)];
      var now := front[..p + 1] + [Range(hi, rs[p].second)] + front[p + 1..];
      && Separated(front) && Separated(now) && RemoveSpec(rs, now, lo, hi - lo)
      && FitsAt(front, p + 1, Range(hi, rs[p].second))
  {
    var front := rs[p := Range(rs[p].first, lo)];
    CutRange(rs, p, Range(rs[p].first, lo), lo, rs[p].second);
    Replace2(front, p + 1, p + 1, Range(hi, rs[p].second));
    var now := front[..p + 1] + [Range(hi, rs[p].second)] + front[p + 1..];
    forall x {:trigger In(now, x)} ensures In(now, x) <==> In(rs, x) && !(lo <= x < hi) {
      InPut(front, p + 1, Range(hi, rs[p].second), x);
      InUpdate(rs, p, Range(rs[p].first, lo), x);
      Outside(rs, p, x);
    }
  }

  // ---------- ranks ----------

  /** How many non-members lie below `x`. */
  ghost function Rank(rs: seq<Range>, x: int): int {
    x - CountBelow(rs, x)
  }

  /** `r` is the non-member with exactly `index` non-members below it. */
  ghost predicate IsShifted(rs: seq<Range>, index: int, r: int) {
    !In(rs, r) && Rank(rs, r) == index
  }

  /** Ranks never drop, and rise by one past each non-member. */
  lemma {:induction false} RankMonotone(rs: seq<Range>, a: int, b: int)
    requires Ordered(rs) && a <= b
    ensures Rank(rs, a) <= Rank(rs, b)
    ensures a < b && !In(rs, a) ==> Rank(rs, a) < Rank(rs, b)
    decreases b - a
  {
    if a < b {
      CountStep(rs, a);
      RankMonotone(rs, a + 1, b);
    }
  }

  lemma {:induction false} ShiftedUnique(rs: seq<Range>, index: int, r: int, s: int)
    requires Ordered(rs) && IsShifted(rs, index, r) && IsShifted(rs, index, s)
    ensures r == s
  {
    if r < s {
      RankMonotone(rs, r, s);
    } else {
      RankMonotone(rs, s, r);
    }
  }

  /** A walk that has added every range starting at or below it stands at the shifted index. */
  lemma {:induction false} ShiftStop(rs: seq<Range>, index: int, p: nat, r: int)
    requires Ordered(rs) && SearchStop(rs, r, p) && (p < |rs| ==> r < rs[p].first)
    requires r == index + Total(rs[..p])
    ensures IsShifted(rs, index, r)
  {
    AtStop(rs, r, p);
  }

  lemma {:induction false} RankZero(rs: seq<Range>)
    requires Ordered(rs)
    ensures Rank(rs, 0) == 0
  {
    CountNone(rs, 0);
  }

  /** Sets that agree on a stretch, up to a shift, have the same non-members there. */
  lemma {:induction false} RankShift(a: seq<Range>, b: seq<Range>, p: int, x: int, d: int)
    requires Ordered(a) && Ordered(b) && p <= x
    requires forall y {:trigger In(a, y)} :: p <= y < x ==> (In(a, y) <==> In(b, y + d))
    ensures Rank(b, x + d) - Rank(b, p + d) == Rank(a, x) - Rank(a, p)
    decreases x - p
  {
    if p < x {
      RankShift(a, b, p, x - 1, d);
      CountStep(a, x - 1);
      CountStep(b, x - 1 + d);
    }
  }

  lemma {:induction false} RankFull(rs: seq<Range>, p: int, x: int)
    requires Ordered(rs) && p <= x
    requires forall y {:trigger In(rs, y)} :: p <= y < x ==> In(rs, y)
    ensures Rank(rs, x) == Rank(rs, p)
    decreases x - p
  {
    if p < x {
      RankFull(rs, p, x - 1);
      CountStep(rs, x - 1);
    }
  }

  lemma {:induction false} EraseRanks(was: seq<Range>, now: seq<Range>, index: nat, x: nat)
    requires Ordered(was) && Ordered(now) && EraseSpec(was, now, index)
    ensures Rank(now, x) ==
      if x <= index then Rank(was, x) else Rank(was, x + 1) - if In(was, index) then 0 else 1
  {
    RankZero(was);
    RankZero(now);
    if x <= index {
      RankShift(now, was, 0, x, 0);
    } else {
      RankShift(now, was, 0, index, 0);
      RankShift(now, was, index, x, 1);
      CountStep(was, index);
    }
  }

  lemma {:induction false} InsertRanks(was: seq<Range>, now: seq<Range>, index: nat, count: nat, x: nat)
    requires Ordered(was) && Ordered(now) && InsertSpec(was, now, index, count)
    ensures x <= index ==> Rank(now, x) == Rank(was, x)
    ensures index + count <= x ==> Rank(now, x) == Rank(was, x - count)
  {
    RankZero(was);
    RankZero(now);
    if x <= index {
      RankShift(now, was, 0, x, 0);
    } else if index + count <= x {
      RankShift(now, was, 0, index, 0);
      RankFull(now, index, index + count);
      forall y {:trigger In(now, y)} | index + count <= y < x ensures In(now, y) <==> In(was, y - count) {
      }
      RankShift(now, was, index + count, x, 0 - count);
    }
  }

  lemma {:induction false} AddRanks(was: seq<Range>, now: seq<Range>, index: nat, x: nat)
    requires Ordered(was) && Ordered(now) && AddSpec(was, now, index) && !In(was, index)
    ensures Rank(now, x) == Rank(was, x) - if index < x then 1 else 0
  {
    RankZero(was);
    RankZero(now);
    if x <= index {
      RankShift(now, was, 0, x, 0);
    } else {
      RankShift(now, was, 0, index, 0);
      CountStep(was, index);
      CountStep(now, index);
      RankShift(now, was, index + 1, x, 0);
    }
  }

  /** A set has one list of ranges with gaps between them. */
  lemma {:induction false} SeparatedUnique(p: seq<Range>, q: seq<Range>)
    requires Separated(p) && Separated(q) && forall x {:trigger In(p, x)} {:trigger In(q, x)} :: In(p, x) <==> In(q, x)
    ensures p == q
  {
    if p == [] || q == [] {
      assert p != [] ==> In(p, p[0].first);
      assert q != [] ==> In(q, q[0].first);
    } else {
      hide In, Separated;
      SameFirst(p, q);
      SameFirst(q, p);
      RestSeparated(p);
      RestSeparated(q);
      forall x {:trigger In(p[1..], x)} {:trigger In(q[1..], x)} ensures In(p[1..], x) <==> In(q[1..], x) {
        InRest(p, x);
        InRest(q, x);
      }
      SeparatedUnique(p[1..], q[1..]);
      assert p == [p[0]] + p[1..] && q == [q[0]] + q[1..];
    }
  }

  lemma {:induction false} RestSeparated(rs: seq<Range>)
    requires Separated(rs) && rs != []
    ensures Separated(rs[1..])
  {
  }

  lemma {:induction false} InRest(rs: seq<Range>, x: int)
    requires Separated(rs) && rs != []
    ensures In(rs[1..], x) <==> In(rs, x) && x >= rs[0].second
    ensures !In(rs, rs[0].second)
  {
    if In(rs[1..], x) {
      var i := InIndex(rs[1..], x);
      assert rs[1..][i] == rs[i + 1] && rs[0].second < rs[i + 1].first;
    }
    forall i | 0 <= i < |rs| ensures !Covers(rs[i], rs[0].second) {
    }
    NotIn(rs, rs[0].second);
  }

  /** The first range of one is no longer than that of the other. */
  lemma {:induction false} SameFirst(p: seq<Range>, q: seq<Range>)
    requires Separated(p) && Separated(q) && p != [] && q != []
    requires forall x {:trigger In(p, x)} {:trigger In(q, x)} :: In(p, x) <==> In(q, x)
    ensures p[0].first >= q[0].first && (p[0].first == q[0].first ==> p[0].second <= q[0].second)
  {
    assert In(p, p[0].first);
    AtLeastFirst(q, p[0].first);
    InRest(q, q[0].second);
    assert !In(q, q[0].second) && !In(p, q[0].second);
  }

  lemma {:induction false} AtLeastFirst(rs: seq<Range>, x: int)
    requires Separated(rs) && In(rs, x)
    ensures rs != [] && rs[0].first <= x < rs[|rs| - 1].second && x >= 0
  {
    var i := InIndex(rs, x);
  }
}
