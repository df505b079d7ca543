/** The first half of computing the changes between two query results: which rows are
    in both, found by sorting and merging. */
module Pairings {
  import opened Common
  import opened Ranges
  import opened Chunks
  import opened RangeOps
  import opened IndexSets

  /** A row's index in the table, its places in the old and in the new result, and its
      place among the old rows that still exist. */
  datatype RowInfo = RowInfo(index: nat, prev: Option<nat>, place: nat, shifted: nat)

  // ---------- sorting ----------

  predicate Before<T>(x: T, y: T, key: T -> int, tie: T -> int) {
    key(x) < key(y) || (key(x) == key(y) && tie(x) <= tie(y))
  }

  ghost predicate InOrder<T>(s: seq<T>, key: T -> int, tie: T -> int) {
    forall i, j :: 0 <= i < j < |s| ==> Before(s[i], s[j], key, tie)
  }

  ghost predicate Apart<T>(s: seq<T>, id: T -> int) {
    forall i, j :: 0 <= i < j < |s| ==> id(s[i]) != id(s[j])
  }

  ghost predicate SameElements<T(!new)>(s: seq<T>, r: seq<T>) {
    forall x {:trigger x in r} {:trigger x in s} :: x in r <==> x in s
  }

  /** `std::sort`; only what any sort promises is used. */
  method Sort<T(!new)>(s: seq<T>, key: T -> int, tie: T -> int, ghost id: T -> int) returns (r: seq<T>)
    requires Apart(s, id)
    ensures |r| == |s| && Apart(r, id) && SameElements(s, r) && InOrder(r, key, tie)
  {
    r := [];
    var i := 0;
    while i < |s|
      invariant i <= |s| && |r| == i && Apart(r, id) && SameElements(s[..i], r) && InOrder(r, key, tie)
    {
      var k := 0;
      while k < |r| && Before(r[k], s[i], key, tie)
        invariant k <= |r| && forall l :: 0 <= l < k ==> Before(r[l], s[i], key, tie)
      {
        k := k + 1;
      }
      PutIn(s, i, r, k, key, tie, id);
      r := r[..k] + [s[i]] + r[k..];
      i := i + 1;
    }
    assert s[..i] == s;
  }

  lemma {:induction false} PutIn<T(!new)>(s: seq<T>, i: nat, r: seq<T>, k: nat, key: T -> int, tie: T -> int, id: T -> int)
    requires i < |s| && k <= |r| && Apart(s, id) && Apart(r, id) && SameElements(s[..i], r) && InOrder(r, key, tie)
    requires forall l :: 0 <= l < k ==> Before(r[l], s[i], key, tie)
    requires k < |r| ==> !Before(r[k], s[i], key, tie)
    ensures var now := r[..k] + [s[i]] + r[k..];
      Apart(now, id) && SameElements(s[..i + 1], now) && InOrder(now, key, tie)
  {
    var now := r[..k] + [s[i]] + r[k..];
    assert s[..i + 1] == s[..i] + [s[i]];
    forall l | 0 <= l < |r| ensures id(r[l]) != id(s[i]) {
      assert r[l] in r;
      assert r[l] in s[..i];
    }
    forall x ensures x in now <==> x in s[..i + 1] {
      assert r == r[..k] + r[k..];
      assert x in r <==> x in r[..k] || x in r[k..];
    }
    forall l | k < l < |r| ensures Before(s[i], r[l], key, tie) {
      assert Before(r[k], r[l], key, tie);
    }
  }

  // ---------- the rows ----------

  /** How many of the first `x` old rows still exist. */
  ghost function Present(prev: seq<Option<nat>>, x: nat): nat
    requires x <= |prev|
  {
    if x == 0 then 0 else Present(prev, x - 1) + if prev[x - 1].Some? then 1 else 0
  }

  ghost function OldRow(prev: seq<Option<nat>>, x: nat): RowInfo
    requires x < |prev| && prev[x].Some?
  {
    RowInfo(prev[x].value, None, x, Present(prev, x))
  }

  ghost predicate OldRows(prev: seq<Option<nat>>, rows: seq<RowInfo>) {
    && Apart(rows, (r: RowInfo) => r.place)
    && (forall r {:trigger r in rows} :: r in rows <==> r.place < |prev| && prev[r.place].Some? && r == OldRow(prev, r.place))
  }

  ghost predicate NewRows(next: seq<nat>, rows: seq<RowInfo>) {
    && Apart(rows, (r: RowInfo) => r.place)
    && (forall r {:trigger r in rows} :: r in rows <==> r.place < |next| && r == RowInfo(next[r.place], None, r.place, 0))
  }

  /** The set of old rows that no longer exist. */
  ghost predicate Vanished(prev: seq<Option<nat>>, upTo: nat, del: seq<Range>)
    requires upTo <= |prev|
  {
    forall x {:trigger In(del, x)} :: In(del, x) <==> 0 <= x < upTo && prev[x].None?
  }

  method ListOld(prev: seq<Option<nat>>, deletions: IndexSet) returns (rows: seq<RowInfo>)
    requires deletions.Valid() && deletions.Rs() == []
    modifies deletions.vec
    ensures deletions.Valid() && Vanished(prev, |prev|, deletions.Rs()) && OldRows(prev, rows)
  {
    rows := [];
    var deleted := 0;
    var i := 0;
    while i < |prev|
      invariant i <= |prev| && deletions.Valid() && Vanished(prev, i, deletions.Rs()) && deleted == i - Present(prev, i)
      invariant OldRows(prev[..i], rows)
    {
      ghost var now := deletions.Rs();
      PresentPrefix(prev, i);
      if prev[i].None? {
        deleted := deleted + 1;
        deletions.Add(i);
        assert AddSpec(now, deletions.Rs(), i);
      } else {
        rows := rows + [RowInfo(prev[i].value, None, i, i - deleted)];
      }
      i := i + 1;
    }
    assert prev[..i] == prev;
  }

  lemma {:induction false} PresentPrefix(prev: seq<Option<nat>>, i: nat)
    requires i < |prev|
    ensures forall rows {:trigger OldRows(prev[..i], rows)} :: OldRows(prev[..i], rows) ==>
      OldRows(prev[..i + 1], if prev[i].None? then rows else rows + [RowInfo(prev[i].value, None, i, Present(prev, i))])
  {
    forall x: nat | x <= i ensures Present(prev[..i], x) == Present(prev, x) == Present(prev[..i + 1], x) {
      PresentSame(prev[..i], prev, x);
      PresentSame(prev[..i + 1], prev, x);
    }
    forall rows | OldRows(prev[..i], rows)
      ensures OldRows(prev[..i + 1], if prev[i].None? then rows else rows + [RowInfo(prev[i].value, None, i, Present(prev, i))])
    {
      OldRowsNext(prev, i, rows);
    }
  }

  lemma {:induction false} OldRowsNext(prev: seq<Option<nat>>, i: nat, rows: seq<RowInfo>)
    requires i < |prev| && OldRows(prev[..i], rows)
    requires forall x: nat :: x <= i ==> Present(prev[..i], x) == Present(prev, x) == Present(prev[..i + 1], x)
    ensures OldRows(prev[..i + 1], if prev[i].None? then rows else rows + [RowInfo(prev[i].value, None, i, Present(prev, i))])
  {
    hide Present;
    var now := if prev[i].None? then rows else rows + [RowInfo(prev[i].value, None, i, Present(prev, i))];
    var p, p' := prev[..i], prev[..i + 1];
    forall r ensures r in now <==> r.place < |p'| && p'[r.place].Some? && r == OldRow(p', r.place) {
      if r.place < i {
        assert p'[r.place] == p[r.place];
      }
    }
    forall k | 0 <= k < |rows| ensures rows[k].place < i {
      assert rows[k] in rows;
    }
  }

  lemma {:induction false} PresentSame(p: seq<Option<nat>>, q: seq<Option<nat>>, x: nat)
    requires x <= |p| <= |q| && p == q[..|p|]
    ensures Present(p, x) == Present(q, x)
  {
    if x > 0 {
      PresentSame(p, q, x - 1);
    }
  }

  method ListNew(next: seq<nat>) returns (rows: seq<RowInfo>)
    ensures NewRows(next, rows)
  {
    rows := [];
    var i := 0;
    while i < |next|
      invariant i <= |next| && |rows| == i
      invariant forall k :: 0 <= k < i ==> rows[k] == RowInfo(next[k], None, k, 0)
    {
      rows := rows + [RowInfo(next[i], None, i, 0)];
      i := i + 1;
    }
    forall r ensures r in rows <==> r.place < |next| && r == RowInfo(next[r.place], None, r.place, 0) {
      if r.place < |next| && r == RowInfo(next[r.place], None, r.place, 0) {
        assert rows[r.place] == r;
      }
    }
  }

  // ---------- the merge ----------

  function Joined(r: RowInfo, o: RowInfo): RowInfo {
    r.(prev := Some(o.place), shifted := o.shifted)
  }

  /** `i` old and `|used|` new rows, both in the order of the table, are dealt with;
      `used` says which old row each of those new ones was joined with. */
  ghost predicate Merging(olds: seq<RowInfo>, news: seq<RowInfo>, now: seq<RowInfo>, used: seq<Option<nat>>, i: nat) {
    && i <= |olds| && |used| <= |news| == |now|
    && (forall k :: |used| <= k < |news| ==> now[k] == news[k])
    && (forall k :: 0 <= k < |used| ==>
          if used[k].Some? then
            used[k].value < i && olds[used[k].value].index == news[k].index && now[k] == Joined(news[k], olds[used[k].value])
          else now[k] == news[k])
    && (forall k, l :: 0 <= k < l < |used| && used[k].Some? && used[l].Some? ==> used[k].value < used[l].value)
  }

  ghost predicate Left(olds: seq<RowInfo>, used: seq<Option<nat>>, i: nat, removed: seq<Range>)
    requires i <= |olds|
  {
    forall x {:trigger In(removed, x)} :: In(removed, x) <==> exists l :: 0 <= l < i && olds[l].place == x && Some(l) !in used
  }

  ghost predicate Came(news: seq<RowInfo>, used: seq<Option<nat>>, ins: seq<Range>)
    requires |used| <= |news|
  {
    forall x {:trigger In(ins, x)} :: In(ins, x) <==> exists k :: 0 <= k < |used| && news[k].place == x && used[k].None?
  }

  /** No row passed over on one side is met later on the other, or was passed over there. */
  ghost predicate Thorough(olds: seq<RowInfo>, news: seq<RowInfo>, used: seq<Option<nat>>, i: nat)
    requires i <= |olds| && |used| <= |news|
  {
    && (forall l, k :: 0 <= l < i && Some(l) !in used && 0 <= k < |news| && (k < |used| ==> used[k].None?) ==>
          olds[l].index != news[k].index)
    && (forall l, k :: i <= l < |olds| && 0 <= k < |used| && used[k].None? ==> olds[l].index != news[k].index)
  }

  lemma {:induction false} JoinStep(olds: seq<RowInfo>, news: seq<RowInfo>, now: seq<RowInfo>, used: seq<Option<nat>>, i: nat,
                                    removed: seq<Range>, ins: seq<Range>)
    requires Merging(olds, news, now, used, i) && Left(olds, used, i, removed) && Came(news, used, ins)
    requires Thorough(olds, news, used, i)
    requires i < |olds| && |used| < |news| && olds[i].index == news[|used|].index
    ensures var used', j := used + [Some(i)], |used|;
      && Merging(olds, news, now[j := Joined(now[j], olds[i])], used', i + 1)
      && Left(olds, used', i + 1, removed) && Came(news, used', ins) && Thorough(olds, news, used', i + 1)
  {
  }

  lemma {:induction false} OldStep(olds: seq<RowInfo>, news: seq<RowInfo>, now: seq<RowInfo>, used: seq<Option<nat>>, i: nat,
                                   removed: seq<Range>, removed': seq<Range>)
    requires Merging(olds, news, now, used, i) && Left(olds, used, i, removed) && Thorough(olds, news, used, i)
    requires i < |olds| && AddSpec(removed, removed', olds[i].place)
    requires forall k :: |used| <= k < |news| ==> olds[i].index < news[k].index
    ensures Merging(olds, news, now, used, i + 1) && Left(olds, used, i + 1, removed') && Thorough(olds, news, used, i + 1)
  {
  }

  lemma {:induction false} NewStep(olds: seq<RowInfo>, news: seq<RowInfo>, now: seq<RowInfo>, used: seq<Option<nat>>, i: nat,
                                   removed: seq<Range>, ins: seq<Range>, ins': seq<Range>)
    requires Merging(olds, news, now, used, i) && Left(olds, used, i, removed) && Came(news, used, ins)
    requires Thorough(olds, news, used, i) && |used| < |news| && AddSpec(ins, ins', news[|used|].place)
    requires forall l :: i <= l < |olds| ==> news[|used|].index < olds[l].index
    ensures var used' := used + [None];
      && Merging(olds, news, now, used', i) && Left(olds, used', i, removed) && Came(news, used', ins')
      && Thorough(olds, news, used', i)
  {
    var used' := used + [None];
    forall l: nat ensures Some(l) in used' <==> Some(l) in used {
    }
    forall x {:trigger In(ins', x)}
      ensures In(ins', x) <==> exists k :: 0 <= k < |used'| && news[k].place == x && used'[k].None?
    {
      if In(ins, x) {
        var k :| 0 <= k < |used| && news[k].place == x && used[k].None?;
        assert used'[k].None?;
      }
      if x == news[|used|].place {
        assert used'[|used|].None?;
      }
    }
  }

  // ---------- the result ----------

  /** The rows that are in both results, each joined with one old place. */
  ghost predicate Paired(prev: seq<Option<nat>>, next: seq<nat>, rows: seq<RowInfo>) {
    && (forall r :: r in rows ==>
          && r.place < |next| && next[r.place] == r.index
          && r.prev.Some? && r.prev.value < |prev| && prev[r.prev.value] == Some(r.index)
          && r.shifted == Present(prev, r.prev.value))
    && (forall r, s :: r in rows && s in rows && r.prev == s.prev ==> r == s)
    && Apart(rows, (r: RowInfo) => r.place)
  }

  ghost predicate Unpaired(prev: seq<Option<nat>>, next: seq<nat>, rows: seq<RowInfo>, removed: seq<Range>, ins: seq<Range>) {
    && (forall x {:trigger In(removed, x)} :: In(removed, x) <==>
          0 <= x < |prev| && prev[x].Some? && forall r :: r in rows ==> r.prev != Some(x))
    && (forall x {:trigger In(ins, x)} :: In(ins, x) <==> 0 <= x < |next| && forall r :: r in rows ==> r.place != x)
    && (forall x, y {:trigger In(removed, x), In(ins, y)} :: In(removed, x) && In(ins, y) ==> prev[x] != Some(next[y]))
  }

  method Pair(prev: seq<Option<nat>>, next: seq<nat>, removed: IndexSet, insertions: IndexSet, deletions: IndexSet)
    returns (rows: seq<RowInfo>)
    requires removed.Valid() && insertions.Valid() && deletions.Valid()
    requires removed.Rs() == [] && insertions.Rs() == [] && deletions.Rs() == []
    requires removed.vec != insertions.vec && removed.vec != deletions.vec && insertions.vec != deletions.vec
    modifies removed.vec, insertions.vec, deletions.vec
    ensures removed.Valid() && insertions.Valid() && deletions.Valid() && Vanished(prev, |prev|, deletions.Rs())
    ensures Paired(prev, next, rows) && Unpaired(prev, next, rows, removed.Rs(), insertions.Rs())
    ensures forall i, j :: 0 <= i < j < |rows| ==> rows[i].place < rows[j].place
  {
    hide Separated, ChunksOk, OldRows, NewRows, Apart, InOrder, Paired, Unpaired, SameElements, Vanished;
    var olds := ListOld(prev, deletions);
    OldRowsApart(prev, olds);
    var byIndex := Sort(olds, (r: RowInfo) => r.index, (r: RowInfo) => 0, (r: RowInfo) => r.place);
    OldRowsSame(prev, olds, byIndex);
    var news := ListNew(next);
    NewRowsApart(next, news);
    var newByIndex := Sort(news, (r: RowInfo) => r.index, (r: RowInfo) => 0, (r: RowInfo) => r.place);
    NewRowsSame(next, news, newByIndex);
    rows := MergeRows(prev, next, byIndex, newByIndex, removed, insertions);
    PairedApart(prev, next, rows);
    ghost var was := rows;
    rows := Sort(rows, (r: RowInfo) => r.place, (r: RowInfo) => 0, (r: RowInfo) => r.place);
    PairedSame(prev, next, was, rows, removed.Rs(), insertions.Rs());
    ByPlace(rows);
  }

  lemma {:induction false} OldRowsApart(prev: seq<Option<nat>>, rows: seq<RowInfo>)
    requires OldRows(prev, rows)
    ensures Apart(rows, (r: RowInfo) => r.place)
  {
  }

  lemma {:induction false} NewRowsApart(next: seq<nat>, rows: seq<RowInfo>)
    requires NewRows(next, rows)
    ensures Apart(rows, (r: RowInfo) => r.place)
  {
  }

  lemma {:induction false} PairedApart(prev: seq<Option<nat>>, next: seq<nat>, rows: seq<RowInfo>)
    requires Paired(prev, next, rows)
    ensures Apart(rows, (r: RowInfo) => r.place)
  {
  }

  lemma {:induction false} OldRowsSame(prev: seq<Option<nat>>, rows: seq<RowInfo>, now: seq<RowInfo>)
    requires OldRows(prev, rows) && SameElements(rows, now) && Apart(now, (r: RowInfo) => r.place)
    ensures OldRows(prev, now)
  {
  }

  lemma {:induction false} NewRowsSame(next: seq<nat>, rows: seq<RowInfo>, now: seq<RowInfo>)
    requires NewRows(next, rows) && SameElements(rows, now) && Apart(now, (r: RowInfo) => r.place)
    ensures NewRows(next, now)
  {
  }

  lemma {:induction false} PairedSame(prev: seq<Option<nat>>, next: seq<nat>, rows: seq<RowInfo>, now: seq<RowInfo>,
                                      removed: seq<Range>, ins: seq<Range>)
    requires Paired(prev, next, rows) && Unpaired(prev, next, rows, removed, ins)
    requires SameElements(rows, now) && Apart(now, (r: RowInfo) => r.place)
    ensures Paired(prev, next, now) && Unpaired(prev, next, now, removed, ins)
  {
  }

  lemma {:induction false} ByPlace(rows: seq<RowInfo>)
    requires Apart(rows, (r: RowInfo) => r.place) && InOrder(rows, (r: RowInfo) => r.place, (r: RowInfo) => 0)
    ensures forall i, j :: 0 <= i < j < |rows| ==> rows[i].place < rows[j].place
  {
  }

  /** Both lists in the order of the table are gone through together; then the rows
      that were not found in the old one are left out. */
  method MergeRows(prev: seq<Option<nat>>, next: seq<nat>, olds: seq<RowInfo>, news: seq<RowInfo>, removed: IndexSet,
                   insertions: IndexSet) returns (rows: seq<RowInfo>)
    requires OldRows(prev, olds) && NewRows(next, news)
    requires InOrder(olds, (r: RowInfo) => r.index, (r: RowInfo) => 0)
    requires InOrder(news, (r: RowInfo) => r.index, (r: RowInfo) => 0)
    requires removed.Valid() && insertions.Valid() && removed.Rs() == [] && insertions.Rs() == []
    requires removed.vec != insertions.vec
    modifies removed.vec, insertions.vec
    ensures removed.Valid() && insertions.Valid()
    ensures Paired(prev, next, rows) && Unpaired(prev, next, rows, removed.Rs(), insertions.Rs())
  {
    hide Separated, ChunksOk, OldRows, NewRows, InOrder, Paired, Unpaired, AddSpec, Merging, Left, Came, Thorough, In;
    Ascending(olds);
    Ascending(news);
    var i, j := 0, 0;
    var now := news;
    ghost var used: seq<Option<nat>> := [];
    MergeStart(olds, news);
    while i < |olds| && j < |news|
      invariant i <= |olds| && j == |used| <= |news| == |now| && removed.Valid() && insertions.Valid()
      invariant Merging(olds, news, now, used, i) && Left(olds, used, i, removed.Rs()) && Came(news, used, insertions.Rs())
      invariant Thorough(olds, news, used, i)
      decreases |olds| - i + |news| - j
    {
      Untouched(olds, news, now, used, i);
      if olds[i].index == now[j].index {
        JoinStep(olds, news, now, used, i, removed.Rs(), insertions.Rs());
        now := now[j := now[j].(prev := Some(olds[i].place), shifted := olds[i].shifted)];
        used := used + [Some(i)];
        i, j := i + 1, j + 1;
      } else if olds[i].index < now[j].index {
        ghost var was := removed.Rs();
        removed.Add(olds[i].place);
        OldStep(olds, news, now, used, i, was, removed.Rs());
        i := i + 1;
      } else {
        ghost var was := insertions.Rs();
        insertions.Add(now[j].place);
        NewStep(olds, news, now, used, i, removed.Rs(), was, insertions.Rs());
        used := used + [None];
        j := j + 1;
      }
    }
    while i < |olds|
      invariant i <= |olds| && j == |used| <= |news| == |now| && removed.Valid() && insertions.Valid()
      invariant i == |olds| || j == |news|
      invariant Merging(olds, news, now, used, i) && Left(olds, used, i, removed.Rs()) && Came(news, used, insertions.Rs())
      invariant Thorough(olds, news, used, i)
    {
      ghost var was := removed.Rs();
      removed.Add(olds[i].place);
      OldStep(olds, news, now, used, i, was, removed.Rs());
      i := i + 1;
    }
    while j < |news|
      invariant i == |olds| && j == |used| <= |news| == |now| && removed.Valid() && insertions.Valid()
      invariant Merging(olds, news, now, used, i) && Left(olds, used, i, removed.Rs()) && Came(news, used, insertions.Rs())
      invariant Thorough(olds, news, used, i)
    {
      Untouched(olds, news, now, used, i);
      ghost var was := insertions.Rs();
      insertions.Add(now[j].place);
      NewStep(olds, news, now, used, i, removed.Rs(), was, insertions.Rs());
      used := used + [None];
      j := j + 1;
    }
    rows := KeepPaired(now);
    MergeEnd(prev, next, olds, news, now, used, rows);
    MergeEndSets(prev, next, olds, news, now, used, rows, removed.Rs(), insertions.Rs());
  }

  lemma {:induction false} Ascending(rows: seq<RowInfo>)
    requires InOrder(rows, (r: RowInfo) => r.index, (r: RowInfo) => 0)
    ensures forall i, j :: 0 <= i < j < |rows| ==> rows[i].index <= rows[j].index
  {
  }

  lemma {:induction false} MergeStart(olds: seq<RowInfo>, news: seq<RowInfo>)
    ensures Merging(olds, news, news, [], 0) && Left(olds, [], 0, []) && Came(news, [], []) && Thorough(olds, news, [], 0)
  {
  }

  lemma {:induction false} Untouched(olds: seq<RowInfo>, news: seq<RowInfo>, now: seq<RowInfo>, used: seq<Option<nat>>, i: nat)
    requires Merging(olds, news, now, used, i)
    ensures forall k :: |used| <= k < |news| ==> now[k] == news[k]
  {
  }

  /** `remove_if` the row has no old place. */
  method KeepPaired(now: seq<RowInfo>) returns (rows: seq<RowInfo>)
    ensures forall r {:trigger r in rows} :: r in rows <==> r in now && r.prev.Some?
    ensures Apart(now, (r: RowInfo) => r.place) ==> Apart(rows, (r: RowInfo) => r.place)
  {
    rows := [];
    var i := 0;
    while i < |now|
      invariant i <= |now|
      invariant forall r {:trigger r in rows} :: r in rows <==> r in now[..i] && r.prev.Some?
      invariant Apart(now, (r: RowInfo) => r.place) ==> Apart(rows, (r: RowInfo) => r.place)
    {
      assert now[..i + 1] == now[..i] + [now[i]];
      KeptApart(now, i, rows);
      if now[i].prev.Some? {
        rows := rows + [now[i]];
      }
      i := i + 1;
    }
    assert now[..i] == now;
  }

  lemma {:induction false} KeptApart(now: seq<RowInfo>, i: nat, rows: seq<RowInfo>)
    requires i < |now| && forall r {:trigger r in rows} :: r in rows <==> r in now[..i] && r.prev.Some?
    ensures Apart(now, (r: RowInfo) => r.place) && Apart(rows, (r: RowInfo) => r.place) ==>
              Apart(rows + [now[i]], (r: RowInfo) => r.place)
  {
    var id := (r: RowInfo) => r.place;
    forall k | 0 <= k < |rows| && Apart(now, id) ensures rows[k].place != now[i].place {
      assert rows[k] in rows;
      var l :| 0 <= l < i && now[..i][l] == rows[k];
      assert id(now[l]) != id(now[i]);
    }
  }

  lemma {:induction false} MergeEnd(prev: seq<Option<nat>>, next: seq<nat>, olds: seq<RowInfo>, news: seq<RowInfo>,
                                    now: seq<RowInfo>, used: seq<Option<nat>>, rows: seq<RowInfo>)
    requires OldRows(prev, olds) && NewRows(next, news) && Merging(olds, news, now, used, |olds|) && |used| == |news|
    requires forall r {:trigger r in rows} :: r in rows <==> r in now && r.prev.Some?
    requires Apart(now, (r: RowInfo) => r.place) ==> Apart(rows, (r: RowInfo) => r.place)
    ensures Paired(prev, next, rows)
  {
    var id := (r: RowInfo) => r.place;
    forall k, l | 0 <= k < l < |now| ensures id(now[k]) != id(now[l]) {
      assert id(news[k]) != id(news[l]);
    }
    forall r | r in rows
      ensures r.place < |next| && next[r.place] == r.index
      ensures r.prev.Some? && r.prev.value < |prev| && prev[r.prev.value] == Some(r.index)
      ensures r.shifted == Present(prev, r.prev.value)
    {
      var k := JoinedFrom(olds, news, now, used, rows, r);
      assert news[k] in news && olds[used[k].value] in olds;
    }
    forall r, s | r in rows && s in rows && r.prev == s.prev ensures r == s {
      var k := JoinedFrom(olds, news, now, used, rows, r);
      var l := JoinedFrom(olds, news, now, used, rows, s);
      SameOld(prev, olds, used[k].value, used[l].value);
    }
  }

  lemma {:induction false} SameOld(prev: seq<Option<nat>>, olds: seq<RowInfo>, k: nat, l: nat)
    requires OldRows(prev, olds) && k < |olds| && l < |olds| && olds[k].place == olds[l].place
    ensures k == l
  {
  }

  lemma {:induction false} JoinedFrom(olds: seq<RowInfo>, news: seq<RowInfo>, now: seq<RowInfo>, used: seq<Option<nat>>,
                                      rows: seq<RowInfo>, r: RowInfo) returns (k: nat)
    requires Merging(olds, news, now, used, |olds|) && |used| == |news|
    requires forall n :: n in news ==> n.prev.None?
    requires r in now && r.prev.Some?
    ensures k < |used| && used[k].Some? && used[k].value < |olds| && r == now[k] == Joined(news[k], olds[used[k].value])
    ensures olds[used[k].value].index == news[k].index
  {
    k :| 0 <= k < |now| && now[k] == r;
    assert news[k] in news;
  }

  lemma {:induction false} MergeEndSets(prev: seq<Option<nat>>, next: seq<nat>, olds: seq<RowInfo>, news: seq<RowInfo>,
                                        now: seq<RowInfo>, used: seq<Option<nat>>, rows: seq<RowInfo>, removed: seq<Range>,
                                        ins: seq<Range>)
    requires OldRows(prev, olds) && NewRows(next, news) && Merging(olds, news, now, used, |olds|) && |used| == |news|
    requires Left(olds, used, |olds|, removed) && Came(news, used, ins) && Thorough(olds, news, used, |olds|)
    requires forall r {:trigger r in rows} :: r in rows <==> r in now && r.prev.Some?
    ensures Unpaired(prev, next, rows, removed, ins)
  {
    hide In, Present;
    forall x {:trigger In(removed, x)}
      ensures In(removed, x) <==> 0 <= x < |prev| && prev[x].Some? && forall r :: r in rows ==> r.prev != Some(x)
    {
      RemovedExactly(prev, next, olds, news, now, used, rows, removed, x);
    }
    forall x {:trigger In(ins, x)} ensures In(ins, x) <==> 0 <= x < |next| && forall r :: r in rows ==> r.place != x {
      InsertedExactly(next, olds, news, now, used, rows, ins, x);
    }
    forall x, y | In(removed, x) && In(ins, y) ensures prev[x] != Some(next[y]) {
      var l :| 0 <= l < |olds| && olds[l].place == x && Some(l) !in used;
      var k :| 0 <= k < |used| && news[k].place == y && used[k].None?;
      assert olds[l] in olds && news[k] in news;
    }
  }

  lemma {:induction false} RemovedExactly(prev: seq<Option<nat>>, next: seq<nat>, olds: seq<RowInfo>, news: seq<RowInfo>,
                                          now: seq<RowInfo>, used: seq<Option<nat>>, rows: seq<RowInfo>, removed: seq<Range>, x: int)
    requires OldRows(prev, olds) && NewRows(next, news) && Merging(olds, news, now, used, |olds|) && |used| == |news|
    requires Left(olds, used, |olds|, removed)
    requires forall r {:trigger r in rows} :: r in rows <==> r in now && r.prev.Some?
    ensures In(removed, x) <==> 0 <= x < |prev| && prev[x].Some? && forall r :: r in rows ==> r.prev != Some(x)
  {
    hide In, Present;
    if In(removed, x) {
      var l :| 0 <= l < |olds| && olds[l].place == x && Some(l) !in used;
      assert olds[l] in olds;
      forall r | r in rows ensures r.prev != Some(x) {
        var k := JoinedFrom(olds, news, now, used, rows, r);
        assert used[k] in used;
        if olds[used[k].value].place == x {
          SameOld(prev, olds, used[k].value, l);
        }
      }
    }
    if 0 <= x < |prev| && prev[x].Some? && forall r :: r in rows ==> r.prev != Some(x) {
      var o := OldRow(prev, x);
      assert o in olds;
      var l :| 0 <= l < |olds| && olds[l] == o;
      forall k | 0 <= k < |used| ensures used[k] != Some(l) {
        assert now[k] in now;
        assert now[k].prev.Some? ==> now[k] in rows;
      }
      assert Some(l) !in used;
    }
  }

  lemma {:induction false} InsertedExactly(next: seq<nat>, olds: seq<RowInfo>, news: seq<RowInfo>, now: seq<RowInfo>,
                                           used: seq<Option<nat>>, rows: seq<RowInfo>, ins: seq<Range>, x: int)
    requires NewRows(next, news) && Merging(olds, news, now, used, |olds|) && |used| == |news| && Came(news, used, ins)
    requires forall r {:trigger r in rows} :: r in rows <==> r in now && r.prev.Some?
    ensures In(ins, x) <==> 0 <= x < |next| && forall r :: r in rows ==> r.place != x
  {
    hide In;
    var id := (r: RowInfo) => r.place;
    if In(ins, x) {
      var k :| 0 <= k < |used| && news[k].place == x && used[k].None?;
      assert news[k] in news;
      forall r | r in rows ensures r.place != x {
        var l := JoinedFrom(olds, news, now, used, rows, r);
        assert l < k ==> id(news[l]) != id(news[k]);
        assert k < l ==> id(news[k]) != id(news[l]);
      }
    }
    if 0 <= x < |next| && forall r :: r in rows ==> r.place != x {
      var n := RowInfo(next[x], None, x, 0);
      assert n in news;
      var k :| 0 <= k < |news| && news[k] == n;
      assert now[k] in now;
      assert now[k].prev.Some? ==> now[k] in rows;
    }
  }
}
