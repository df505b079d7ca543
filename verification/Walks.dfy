/** The walk that finds rows out of place (`calculate_moves_unsorted`), as a function of
    the orders of the rows, and exactly when the rows it leaves are in the old order. */
module Walks {
  import opened Common
  import opened Ranges
  import opened RangeOps
  import opened Pairings

  ghost predicate ByPlaces(rows: seq<RowInfo>) {
    forall i, j :: 0 <= i < j < |rows| ==> rows[i].place < rows[j].place
  }

  /** The rows are in the old order. */
  ghost predicate Unchanged(kept: seq<RowInfo>) {
    forall i, j :: 0 <= i < j < |kept| ==> kept[i].shifted < kept[j].shifted
  }

  ghost predicate ShiftsDiffer(rows: seq<RowInfo>) {
    forall i, j :: 0 <= i < j < |rows| ==> rows[i].shifted != rows[j].shifted
  }

  ghost predicate Distinct(prev: seq<Option<nat>>) {
    forall x, y :: 0 <= x < y < |prev| && prev[x].Some? ==> prev[x] != prev[y]
  }

  // ---------- the walk ----------

  /** How many of the rows were before the place. */
  function Smaller(rows: seq<RowInfo>, s: int): nat {
    if rows == [] then 0 else (if rows[0].shifted < s then 1 else 0) + Smaller(rows[1..], s)
  }

  /** How many of the rows were behind the place. */
  function Larger(rows: seq<RowInfo>, s: int): nat {
    if rows == [] then 0 else (if rows[0].shifted > s then 1 else 0) + Larger(rows[1..], s)
  }

  /** The rows that stay, and where the next one is expected. */
  datatype Walk = Walk(kept: seq<RowInfo>, expected: nat)

  /** A row stays where it is the next one, where it cannot have moved, and where it got
      in front of as many rows that stay as rows to come got in front of it. */
  predicate Stays(rows: seq<RowInfo>, candidates: seq<Range>, k: nat, w: Walk)
    requires k < |rows|
  {
    || rows[k].shifted == w.expected
    || !In(candidates, rows[k].index)
    || Smaller(rows[k + 1..], rows[k].shifted) == Larger(w.kept, rows[k].shifted)
  }

  function WalkTo(rows: seq<RowInfo>, candidates: seq<Range>, k: nat): Walk
    requires k <= |rows|
  {
    if k == 0 then Walk([], 0)
    else
      var w := WalkTo(rows, candidates, k - 1);
      if Stays(rows, candidates, k - 1, w) then Walk(w.kept + [rows[k - 1]], rows[k - 1].shifted + 1) else w
  }

  lemma {:induction false} WalkStep(rows: seq<RowInfo>, candidates: seq<Range>, k: nat)
    requires k < |rows|
    ensures var w := WalkTo(rows, candidates, k);
      WalkTo(rows, candidates, k + 1) ==
      if Stays(rows, candidates, k, w) then Walk(w.kept + [rows[k]], rows[k].shifted + 1) else w
  {
  }

  /** Every row that got in front of one that stays is itself moved: it is a candidate,
      and not as many of the rows to come got in front of it. */
  ghost predicate OvertakersMove(rows: seq<RowInfo>, candidates: seq<Range>) {
    forall k: nat {:trigger WalkTo(rows, candidates, k)} ::
      k < |rows| && Larger(WalkTo(rows, candidates, k).kept, rows[k].shifted) > 0 ==>
        && In(candidates, rows[k].index)
        && Smaller(rows[k + 1..], rows[k].shifted) != Larger(WalkTo(rows, candidates, k).kept, rows[k].shifted)
  }

  lemma {:induction false} SmallerSplit(a: seq<RowInfo>, b: seq<RowInfo>, s: int)
    ensures Smaller(a + b, s) == Smaller(a, s) + Smaller(b, s)
  {
    if a == [] {
      assert a + b == b;
    } else {
      assert (a + b)[1..] == a[1..] + b;
      SmallerSplit(a[1..], b, s);
    }
  }

  lemma {:induction false} SmallerNone(rows: seq<RowInfo>, s: int)
    ensures Smaller(rows, s) == 0 <==> forall r :: r in rows ==> r.shifted >= s
  {
    if rows != [] {
      SmallerNone(rows[1..], s);
      assert rows == [rows[0]] + rows[1..];
    }
  }

  lemma {:induction false} LargerNone(rows: seq<RowInfo>, s: int)
    ensures Larger(rows, s) == 0 <==> forall r :: r in rows ==> r.shifted <= s
  {
    if rows != [] {
      LargerNone(rows[1..], s);
      assert rows == [rows[0]] + rows[1..];
    }
  }

  lemma {:induction false} BothSides(rows: seq<RowInfo>, s: int)
    requires forall r :: r in rows ==> r.shifted != s
    ensures Smaller(rows, s) + Larger(rows, s) == |rows|
  {
    if rows != [] {
      forall r | r in rows[1..] ensures r in rows {
      }
      BothSides(rows[1..], s);
    }
  }

  lemma {:induction false} KeptOf(rows: seq<RowInfo>, candidates: seq<Range>, k: nat)
    requires k <= |rows|
    ensures forall r :: r in WalkTo(rows, candidates, k).kept ==> r in rows[..k]
  {
    hide Stays;
    if k > 0 {
      KeptOf(rows, candidates, k - 1);
      assert rows[..k] == rows[..k - 1] + [rows[k - 1]];
    }
  }

  lemma {:induction false} KeptApart(rows: seq<RowInfo>, candidates: seq<Range>, k: nat)
    requires k < |rows| && ShiftsDiffer(rows)
    ensures forall r :: r in WalkTo(rows, candidates, k).kept ==> r.shifted != rows[k].shifted
  {
    hide WalkTo;
    KeptOf(rows, candidates, k);
    forall r | r in rows[..k] ensures r.shifted != rows[k].shifted {
      var i :| 0 <= i < k && rows[i] == r;
    }
  }

  lemma {:induction false} KeptGrows(rows: seq<RowInfo>, candidates: seq<Range>, k: nat, n: nat)
    requires k <= n <= |rows|
    ensures WalkTo(rows, candidates, k).kept <= WalkTo(rows, candidates, n).kept
    decreases n - k
  {
    hide Stays;
    if k < n {
      KeptGrows(rows, candidates, k, n - 1);
    }
  }

  /** The rows that stay are in the old order, and the next is expected behind them. */
  ghost predicate Ascends(w: Walk) {
    Unchanged(w.kept) && forall r :: r in w.kept ==> r.shifted < w.expected
  }

  lemma {:induction false} StaysInOrder(rows: seq<RowInfo>, candidates: seq<Range>, k: nat)
    requires k <= |rows| && ShiftsDiffer(rows) && OvertakersMove(rows, candidates)
    ensures Ascends(WalkTo(rows, candidates, k))
  {
    hide In, ShiftsDiffer;
    if k > 0 {
      StaysInOrder(rows, candidates, k - 1);
      var w, row := WalkTo(rows, candidates, k - 1), rows[k - 1];
      KeptApart(rows, candidates, k - 1);
      LargerNone(w.kept, row.shifted);
    }
  }

  /** The rows that stay are in the old order exactly if every row that got in front of
      one of them is itself moved. */
  lemma {:induction false} InOrderIff(rows: seq<RowInfo>, candidates: seq<Range>)
    requires ShiftsDiffer(rows)
    ensures Unchanged(WalkTo(rows, candidates, |rows|).kept) <==> OvertakersMove(rows, candidates)
  {
    hide In, WalkTo, ShiftsDiffer;
    if OvertakersMove(rows, candidates) {
      StaysInOrder(rows, candidates, |rows|);
    }
    if Unchanged(WalkTo(rows, candidates, |rows|).kept) {
      forall k: nat {:trigger WalkTo(rows, candidates, k)}
        | k < |rows| && Larger(WalkTo(rows, candidates, k).kept, rows[k].shifted) > 0
        ensures !Stays(rows, candidates, k, WalkTo(rows, candidates, k))
      {
        if Stays(rows, candidates, k, WalkTo(rows, candidates, k)) {
          StayedBehind(rows, candidates, k);
          KeptGrows(rows, candidates, k + 1, |rows|);
        }
      }
    }
  }

  lemma {:induction false} StayedBehind(rows: seq<RowInfo>, candidates: seq<Range>, k: nat)
    requires k < |rows| && Stays(rows, candidates, k, WalkTo(rows, candidates, k))
    requires Larger(WalkTo(rows, candidates, k).kept, rows[k].shifted) > 0
    ensures !Unchanged(WalkTo(rows, candidates, k + 1).kept)
  {
    hide Stays;
    var kept := WalkTo(rows, candidates, k).kept;
    LargerNone(kept, rows[k].shifted);
    var r :| r in kept && r.shifted > rows[k].shifted;
    var i :| 0 <= i < |kept| && kept[i] == r;
    assert WalkTo(rows, candidates, k + 1).kept == kept + [rows[k]];
    assert (kept + [rows[k]])[i].shifted > (kept + [rows[k]])[|kept|].shifted;
  }

  // ---------- without the walk ----------

  /** A row that cannot have moved overtakes it: before it in the new order, behind it in
      the old one. */
  predicate Overtaken(rows: seq<RowInfo>, candidates: seq<Range>, k: nat)
    requires k < |rows|
  {
    exists i :: 0 <= i < k && !In(candidates, rows[i].index) && rows[i].shifted > rows[k].shifted
  }

  /** A row that cannot have moved, one that overtakes nothing, or one right behind an
      earlier such row. */
  predicate Fixed(rows: seq<RowInfo>, candidates: seq<Range>, k: nat)
    requires k < |rows|
    decreases k
  {
    || !In(candidates, rows[k].index)
    || Smaller(rows[k + 1..], rows[k].shifted) == 0
    || exists i :: 0 <= i < k && rows[i].shifted + 1 == rows[k].shifted && Fixed(rows, candidates, i)
  }

  predicate Rests(rows: seq<RowInfo>, candidates: seq<Range>, k: nat)
    requires k < |rows|
  {
    Fixed(rows, candidates, k) && !Overtaken(rows, candidates, k)
  }

  /** How many of the first `n` rows were behind the place, and rest. */
  function RestingBehind(rows: seq<RowInfo>, candidates: seq<Range>, n: nat, s: int): nat
    requires n <= |rows|
  {
    if n == 0 then 0
    else
      RestingBehind(rows, candidates, n - 1, s) +
      if rows[n - 1].shifted > s && Rests(rows, candidates, n - 1) then 1 else 0
  }

  /** A row overtaken by one that cannot have moved gives way: it can have moved, and it
      is not overtaken by as many resting rows as it overtakes itself. */
  predicate GivesWay(rows: seq<RowInfo>, candidates: seq<Range>, k: nat)
    requires k < |rows|
  {
    Overtaken(rows, candidates, k) ==>
      && In(candidates, rows[k].index)
      && Smaller(rows[k + 1..], rows[k].shifted) != RestingBehind(rows, candidates, k, rows[k].shifted)
  }

  predicate AllGiveWay(rows: seq<RowInfo>, candidates: seq<Range>) {
    forall k :: 0 <= k < |rows| ==> GivesWay(rows, candidates, k)
  }

  lemma {:induction false} LargerSplit(a: seq<RowInfo>, b: seq<RowInfo>, s: int)
    ensures Larger(a + b, s) == Larger(a, s) + Larger(b, s)
  {
    if a == [] {
      assert a + b == b;
    } else {
      assert (a + b)[1..] == a[1..] + b;
      LargerSplit(a[1..], b, s);
    }
  }

  /** The first row to stay before a row it overtakes cannot have moved. */
  lemma {:induction false} FirstBehind(rows: seq<RowInfo>, candidates: seq<Range>, n: nat, k: nat)
    requires n <= k < |rows| && ShiftsDiffer(rows)
    ensures var w := WalkTo(rows, candidates, n);
      || (exists i :: 0 <= i < n && !In(candidates, rows[i].index) && rows[i].shifted > rows[k].shifted)
      || (w.expected <= rows[k].shifted && forall r :: r in w.kept ==> r.shifted < rows[k].shifted)
  {
    hide In, WalkTo, ShiftsDiffer;
    if n == 0 {
      assert WalkTo(rows, candidates, 0) == Walk([], 0) by { WalkNone(rows, candidates); }
    } else {
      FirstBehind(rows, candidates, n - 1, k);
      WalkStep(rows, candidates, n - 1);
      ShiftsApart(rows, n - 1, k);
      var w, row := WalkTo(rows, candidates, n - 1), rows[n - 1];
      LargerNone(w.kept, row.shifted);
      SmallerNone(rows[n..], row.shifted);
      assert rows[k] in rows[n..];
    }
  }

  lemma {:induction false} WalkNone(rows: seq<RowInfo>, candidates: seq<Range>)
    ensures WalkTo(rows, candidates, 0) == Walk([], 0)
  {
  }

  lemma {:induction false} ShiftsApart(rows: seq<RowInfo>, i: nat, k: nat)
    requires ShiftsDiffer(rows) && i < k < |rows|
    ensures rows[i].shifted != rows[k].shifted
  {
  }

  /** A row is overtaken by one that stays exactly if by one that cannot have moved. */
  lemma {:induction false} OvertakenIff(rows: seq<RowInfo>, candidates: seq<Range>, k: nat)
    requires k < |rows| && ShiftsDiffer(rows)
    ensures Larger(WalkTo(rows, candidates, k).kept, rows[k].shifted) > 0 <==> Overtaken(rows, candidates, k)
  {
    hide In, WalkTo, ShiftsDiffer;
    FirstBehind(rows, candidates, k, k);
    OthersKept(rows, candidates, k);
    LargerNone(WalkTo(rows, candidates, k).kept, rows[k].shifted);
  }

  /** Up to a row, every one gave way. */
  ghost predicate GaveWay(rows: seq<RowInfo>, candidates: seq<Range>, n: nat)
    requires n <= |rows|
  {
    forall k :: 0 <= k < n ==> GivesWay(rows, candidates, k)
  }

  /** As long as all give way, just the resting rows stay. */
  ghost predicate Resting(rows: seq<RowInfo>, candidates: seq<Range>, n: nat, w: Walk)
    requires n <= |rows|
  {
    && Ascends(w)
    && (if w.kept == [] then w.expected == 0 else w.expected == w.kept[|w.kept| - 1].shifted + 1)
    && (forall i :: 0 <= i < n ==> (rows[i] in w.kept <==> Rests(rows, candidates, i)))
    && (forall s {:trigger Larger(w.kept, s)} :: Larger(w.kept, s) == RestingBehind(rows, candidates, n, s))
  }

  lemma {:induction false} RestingStay(rows: seq<RowInfo>, candidates: seq<Range>, n: nat)
    requires n <= |rows| && ShiftsDiffer(rows) && GaveWay(rows, candidates, n)
    ensures Resting(rows, candidates, n, WalkTo(rows, candidates, n))
  {
    hide In, WalkTo, ShiftsDiffer, Resting, GivesWay, Stays, Rests, RestingBehind;
    if n == 0 {
      WalkNone(rows, candidates);
      RestingNone(rows, candidates);
    } else {
      RestingStay(rows, candidates, n - 1);
      WalkStep(rows, candidates, n - 1);
      assert GivesWay(rows, candidates, n - 1);
      var w := WalkTo(rows, candidates, n - 1);
      KeptOf(rows, candidates, n - 1);
      KeptApart(rows, candidates, n - 1);
      OvertakenIff(rows, candidates, n - 1);
      StaysIff(rows, candidates, n - 1, w);
      RestingNext(rows, candidates, n - 1, w);
    }
  }

  lemma {:induction false} RestingNone(rows: seq<RowInfo>, candidates: seq<Range>)
    ensures Resting(rows, candidates, 0, Walk([], 0))
  {
  }

  lemma {:induction false} StaysIff(rows: seq<RowInfo>, candidates: seq<Range>, n: nat, w: Walk)
    requires n < |rows| && ShiftsDiffer(rows) && Resting(rows, candidates, n, w) && GivesWay(rows, candidates, n)
    requires Larger(w.kept, rows[n].shifted) > 0 <==> Overtaken(rows, candidates, n)
    requires forall r :: r in w.kept ==> r in rows[..n] && r.shifted != rows[n].shifted
    ensures Stays(rows, candidates, n, w) <==> Rests(rows, candidates, n)
    ensures Rests(rows, candidates, n) ==> forall r :: r in w.kept ==> r.shifted < rows[n].shifted
  {
    hide In, ShiftsDiffer, Smaller, Larger, RestingBehind;
    LargerNone(w.kept, rows[n].shifted);
    if !Overtaken(rows, candidates, n) {
      if rows[n].shifted == w.expected {
        FixedNext(rows, candidates, n, w);
      }
      if i :| 0 <= i < n && rows[i].shifted + 1 == rows[n].shifted && Fixed(rows, candidates, i) {
        NotOvertaken(rows, candidates, i, n);
        assert Rests(rows, candidates, i);
        var j :| 0 <= j < |w.kept| && w.kept[j] == rows[i];
        assert w.kept[|w.kept| - 1] in w.kept;
      }
    }
  }

  lemma {:induction false} NotOvertaken(rows: seq<RowInfo>, candidates: seq<Range>, i: nat, n: nat)
    requires i < n < |rows| && ShiftsDiffer(rows) && rows[i].shifted + 1 == rows[n].shifted && !Overtaken(rows, candidates, n)
    ensures !Overtaken(rows, candidates, i)
  {
    hide In;
  }

  lemma {:induction false} FixedNext(rows: seq<RowInfo>, candidates: seq<Range>, n: nat, w: Walk)
    requires n < |rows| && Resting(rows, candidates, n, w) && rows[n].shifted == w.expected
    requires forall r :: r in w.kept ==> r in rows[..n]
    ensures Fixed(rows, candidates, n)
  {
    hide In, Larger, RestingBehind;
    if w.kept == [] {
      SmallerNone(rows[n + 1..], 0);
    } else {
      var r := w.kept[|w.kept| - 1];
      assert r in w.kept;
      var i :| 0 <= i < n && rows[i] == r;
      assert Rests(rows, candidates, i);
    }
  }

  lemma {:induction false} RestingNext(rows: seq<RowInfo>, candidates: seq<Range>, n: nat, w: Walk)
    requires n < |rows| && ShiftsDiffer(rows) && Resting(rows, candidates, n, w)
    requires forall r :: r in w.kept ==> r in rows[..n] && r.shifted != rows[n].shifted
    requires Rests(rows, candidates, n) ==> forall r :: r in w.kept ==> r.shifted < rows[n].shifted
    ensures Resting(rows, candidates, n + 1, if Rests(rows, candidates, n) then Walk(w.kept + [rows[n]], rows[n].shifted + 1) else w)
  {
    hide In, Rests, ShiftsDiffer;
    forall i | 0 <= i < n ensures rows[i] != rows[n] {
      ShiftsApart(rows, i, n);
    }
    if Rests(rows, candidates, n) {
      var now := w.kept + [rows[n]];
      forall s {:trigger Larger(now, s)} ensures Larger(now, s) == RestingBehind(rows, candidates, n + 1, s) {
        LargerSplit(w.kept, [rows[n]], s);
        assert [rows[n]][1..] == [];
      }
    }
  }

  /** The resting rows among the first `n`. */
  function Resters(rows: seq<RowInfo>, candidates: seq<Range>, n: nat): seq<RowInfo>
    requires n <= |rows|
  {
    if n == 0 then []
    else Resters(rows, candidates, n - 1) + if Rests(rows, candidates, n - 1) then [rows[n - 1]] else []
  }

  /** Where all give way, the walk leaves just the resting rows. */
  lemma {:induction false} RestersKept(rows: seq<RowInfo>, candidates: seq<Range>, n: nat)
    requires n <= |rows| && ShiftsDiffer(rows) && AllGiveWay(rows, candidates)
    ensures WalkTo(rows, candidates, n).kept == Resters(rows, candidates, n)
  {
    hide In, WalkTo, ShiftsDiffer, Resting, GivesWay, Stays, Rests;
    if n == 0 {
      WalkNone(rows, candidates);
    } else {
      RestersKept(rows, candidates, n - 1);
      RestingStay(rows, candidates, n - 1);
      WalkStep(rows, candidates, n - 1);
      KeptOf(rows, candidates, n - 1);
      KeptApart(rows, candidates, n - 1);
      OvertakenIff(rows, candidates, n - 1);
      StaysIff(rows, candidates, n - 1, WalkTo(rows, candidates, n - 1));
    }
  }

  /** The same condition read off the orders and the candidates, without the walk. */
  lemma {:induction false} GiveWayIff(rows: seq<RowInfo>, candidates: seq<Range>)
    requires ShiftsDiffer(rows)
    ensures OvertakersMove(rows, candidates) <==> AllGiveWay(rows, candidates)
  {
    hide In, WalkTo, ShiftsDiffer, GivesWay;
    if AllGiveWay(rows, candidates) {
      forall k: nat {:trigger WalkTo(rows, candidates, k)} | k < |rows|
        ensures WaysMatch(rows, candidates, k)
      {
        MatchIff(rows, candidates, k);
        assert GivesWay(rows, candidates, k);
      }
    }
    if OvertakersMove(rows, candidates) {
      GaveAll(rows, candidates, |rows|);
    }
  }

  /** What `OvertakersMove` asks of one row. */
  ghost predicate WaysMatch(rows: seq<RowInfo>, candidates: seq<Range>, k: nat)
    requires k < |rows|
  {
    var kept := WalkTo(rows, candidates, k).kept;
    Larger(kept, rows[k].shifted) > 0 ==>
      In(candidates, rows[k].index) && Smaller(rows[k + 1..], rows[k].shifted) != Larger(kept, rows[k].shifted)
  }

  lemma {:induction false} MatchIff(rows: seq<RowInfo>, candidates: seq<Range>, k: nat)
    requires k < |rows| && ShiftsDiffer(rows) && GaveWay(rows, candidates, k)
    ensures GivesWay(rows, candidates, k) <==> WaysMatch(rows, candidates, k)
  {
    hide In, WalkTo, ShiftsDiffer, Overtaken, Smaller, Larger, RestingBehind, Ascends, Rests;
    RestingStay(rows, candidates, k);
    OvertakenIff(rows, candidates, k);
  }

  lemma {:induction false} GaveAll(rows: seq<RowInfo>, candidates: seq<Range>, n: nat)
    requires n <= |rows| && ShiftsDiffer(rows) && OvertakersMove(rows, candidates)
    ensures GaveWay(rows, candidates, n)
  {
    hide In, WalkTo, ShiftsDiffer, GivesWay;
    if n > 0 {
      GaveAll(rows, candidates, n - 1);
      MatchIff(rows, candidates, n - 1);
      assert WaysMatch(rows, candidates, n - 1);
    }
  }

  // ---------- simple conditions ----------

  /** Of two rows that changed their order, the first one in the new order is among
      those that may have moved. */
  ghost predicate OthersStay(rows: seq<RowInfo>, candidates: seq<Range>) {
    forall i, j {:trigger rows[i], rows[j]} :: 0 <= i < j < |rows| && rows[i].shifted > rows[j].shifted ==>
      In(candidates, rows[i].index)
  }

  lemma {:induction false} NoneBehind(rows: seq<RowInfo>, candidates: seq<Range>, k: nat)
    requires k <= |rows| && ShiftsDiffer(rows) && OthersStay(rows, candidates)
    ensures var w := WalkTo(rows, candidates, k);
      && (forall r :: r in w.kept ==> r.shifted < w.expected)
      && (forall l :: k <= l < |rows| ==> w.expected <= rows[l].shifted)
  {
    hide In;
    if k > 0 {
      NoneBehind(rows, candidates, k - 1);
      var w, row := WalkTo(rows, candidates, k - 1), rows[k - 1];
      LargerNone(w.kept, row.shifted);
      SmallerNone(rows[k..], row.shifted);
      forall l | k <= l < |rows| && Stays(rows, candidates, k - 1, w) ensures row.shifted < rows[l].shifted {
        assert rows[l] in rows[k..];
      }
    }
  }

  /** If only candidates overtake others, those that stay keep their order. */
  lemma {:induction false} OthersStayKept(rows: seq<RowInfo>, candidates: seq<Range>)
    requires ShiftsDiffer(rows) && OthersStay(rows, candidates)
    ensures OvertakersMove(rows, candidates)
  {
    hide In, WalkTo;
    forall k: nat {:trigger WalkTo(rows, candidates, k)} | k < |rows|
      ensures Larger(WalkTo(rows, candidates, k).kept, rows[k].shifted) == 0
    {
      NoneBehind(rows, candidates, k);
      LargerNone(WalkTo(rows, candidates, k).kept, rows[k].shifted);
    }
  }

  lemma {:induction false} OthersKept(rows: seq<RowInfo>, candidates: seq<Range>, k: nat)
    requires k <= |rows|
    ensures forall l :: 0 <= l < k && !In(candidates, rows[l].index) ==> rows[l] in WalkTo(rows, candidates, k).kept
  {
    if k > 0 {
      OthersKept(rows, candidates, k - 1);
    }
  }

  // ---------- shifted places ----------

  lemma {:induction false} PresentStep(prev: seq<Option<nat>>, x: nat, y: nat)
    requires x <= y <= |prev|
    ensures Present(prev, x) <= Present(prev, y)
    ensures x < y && prev[x].Some? ==> Present(prev, x) < Present(prev, y)
    decreases y
  {
    if x < y {
      PresentStep(prev, x, y - 1);
    }
  }

  /** Among rows that still exist, the order of places is the order of shifted places. */
  lemma {:induction false} ShiftedOrder(prev: seq<Option<nat>>, next: seq<nat>, rows: seq<RowInfo>, r: RowInfo, s: RowInfo)
    requires Paired(prev, next, rows) && r in rows && s in rows
    ensures r.prev.value < s.prev.value <==> r.shifted < s.shifted
    ensures r.shifted == s.shifted ==> r == s
  {
    if r.prev.value <= s.prev.value {
      PresentStep(prev, r.prev.value, s.prev.value);
    }
    if s.prev.value <= r.prev.value {
      PresentStep(prev, s.prev.value, r.prev.value);
    }
  }

  lemma {:induction false} PairedDiffer(prev: seq<Option<nat>>, next: seq<nat>, rows: seq<RowInfo>)
    requires Paired(prev, next, rows) && ByPlaces(rows)
    ensures ShiftsDiffer(rows)
  {
    forall i, j | 0 <= i < j < |rows| ensures rows[i].shifted != rows[j].shifted {
      assert rows[i] in rows && rows[j] in rows;
      ShiftedOrder(prev, next, rows, rows[i], rows[j]);
    }
  }

  // ---------- the count that finds a row in place ----------

  /** How many of the first `x` old rows exist and are not removed. */
  ghost function Free(prev: seq<Option<nat>>, removed: seq<Range>, x: nat): nat
    requires x <= |prev|
  {
    if x == 0 then 0
    else Free(prev, removed, x - 1) + if prev[x - 1].Some? && !In(removed, x - 1) then 1 else 0
  }

  lemma {:induction false} FreeCount(prev: seq<Option<nat>>, removed: seq<Range>, x: nat)
    requires x <= |prev| && Ordered(removed)
    requires forall y {:trigger In(removed, y)} :: In(removed, y) ==> 0 <= y < |prev| && prev[y].Some?
    ensures Present(prev, x) == CountBelow(removed, x) + Free(prev, removed, x)
  {
    if x == 0 {
      RankZero(removed);
    } else {
      FreeCount(prev, removed, x - 1);
      CountStep(removed, x - 1);
    }
  }

  /** Old rows, one for each that exists and is not removed. */
  ghost predicate FreeRows(prev: seq<Option<nat>>, removed: seq<Range>, s: seq<RowInfo>) {
    && (forall r :: r in s ==> r.prev.Some? && r.prev.value < |prev| && prev[r.prev.value].Some? && r.shifted == Present(prev, r.prev.value))
    && ShiftsDiffer(s)
    && (forall x {:trigger In(removed, x)} :: 0 <= x < |prev| && prev[x].Some? ==> (In(removed, x) <==> forall r :: r in s ==> r.prev != Some(x)))
  }

  lemma {:induction false} FreeIs(prev: seq<Option<nat>>, removed: seq<Range>, s: seq<RowInfo>, x: nat)
    requires FreeRows(prev, removed, s) && x <= |prev|
    ensures Free(prev, removed, x) == Smaller(s, Present(prev, x))
  {
    hide In, ShiftsDiffer;
    if x == 0 {
      SmallerNone(s, 0);
    } else {
      FreeIs(prev, removed, s, x - 1);
      var y := x - 1;
      if prev[y].Some? {
        SmallerStep(s, Present(prev, y));
        forall r | r in s ensures r.shifted == Present(prev, y) <==> r.prev == Some(y) {
          PresentOrder(prev, r.prev.value, y);
        }
      }
    }
  }

  lemma {:induction false} PresentOrder(prev: seq<Option<nat>>, x: nat, y: nat)
    requires x < |prev| && y < |prev| && prev[x].Some? && prev[y].Some?
    ensures Present(prev, x) == Present(prev, y) <==> x == y
  {
    if x <= y {
      PresentStep(prev, x, y);
    } else {
      PresentStep(prev, y, x);
    }
  }

  lemma {:induction false} SmallerStep(s: seq<RowInfo>, p: int)
    requires ShiftsDiffer(s)
    ensures Smaller(s, p + 1) == Smaller(s, p) + if exists r :: r in s && r.shifted == p then 1 else 0
  {
    if s != [] {
      SmallerStep(s[1..], p);
      assert s == [s[0]] + s[1..];
      forall r | r in s[1..] ensures r.shifted != s[0].shifted {
        var i :| 0 < i < |s| && s[i] == r;
      }
    }
  }

  // ---------- the rows in both results ----------

  lemma {:induction false} RowOf(prev: seq<Option<nat>>, next: seq<nat>, rows: seq<RowInfo>, removed: seq<Range>,
                                 ins: seq<Range>, x: nat, i: nat) returns (k: nat)
    requires Paired(prev, next, rows) && Unpaired(prev, next, rows, removed, ins) && Distinct(prev) && NoDup(next)
    requires x < |prev| && i < |next| && prev[x] == Some(next[i])
    ensures k < |rows| && rows[k].place == i && rows[k].prev == Some(x) && rows[k].index == next[i]
  {
    hide In, Present;
    assert !(In(removed, x) && In(ins, i));
    var r :| r in rows && (r.place == i || r.prev == Some(x));
    k :| 0 <= k < |rows| && rows[k] == r;
  }

  function OldPlace(prev: seq<Option<nat>>, v: nat): (x: nat)
    requires Some(v) in prev
    ensures x < |prev| && prev[x] == Some(v)
  {
    if prev[0] == Some(v) then 0 else 1 + OldPlace(prev[1..], v)
  }

  /** The rows among the first `n` new ones that were in the old result. */
  ghost function Shared(prev: seq<Option<nat>>, next: seq<nat>, n: nat): seq<RowInfo>
    requires n <= |next|
  {
    if n == 0 then []
    else
      Shared(prev, next, n - 1) +
      if Some(next[n - 1]) in prev then
        var x := OldPlace(prev, next[n - 1]);
        [RowInfo(next[n - 1], Some(x), n - 1, Present(prev, x))]
      else []
  }

  /** Distinct rows are paired in one way only. */
  lemma {:induction false} SharedIs(prev: seq<Option<nat>>, next: seq<nat>, rows: seq<RowInfo>, removed: seq<Range>,
                                    ins: seq<Range>, n: nat) returns (m: nat)
    requires Paired(prev, next, rows) && Unpaired(prev, next, rows, removed, ins) && ByPlaces(rows)
    requires Distinct(prev) && NoDup(next) && n <= |next|
    ensures m <= |rows| && rows[..m] == Shared(prev, next, n)
    ensures (forall i :: 0 <= i < m ==> rows[i].place < n) && forall i :: m <= i < |rows| ==> rows[i].place >= n
  {
    hide In, Unpaired, NoDup;
    if n == 0 {
      m := 0;
    } else {
      m := SharedIs(prev, next, rows, removed, ins, n - 1);
      var v := next[n - 1];
      if m < |rows| && rows[m].place == n - 1 {
        assert rows[m] in rows;
        var x := OldPlace(prev, v);
        assert prev[rows[m].prev.value] == prev[x];
        assert rows[..m + 1] == rows[..m] + [rows[m]];
        m := m + 1;
      } else if Some(v) in prev {
        var k := RowOf(prev, next, rows, removed, ins, OldPlace(prev, v), n - 1);
        assert m < k;
      }
    }
  }

  lemma {:induction false} SharedWhole(prev: seq<Option<nat>>, next: seq<nat>, rows: seq<RowInfo>, removed: seq<Range>, ins: seq<Range>)
    requires Paired(prev, next, rows) && Unpaired(prev, next, rows, removed, ins) && ByPlaces(rows)
    requires Distinct(prev) && NoDup(next)
    ensures rows == Shared(prev, next, |next|)
  {
    hide In, Unpaired, NoDup, Shared, Distinct;
    var m := SharedIs(prev, next, rows, removed, ins, |next|);
    forall i | 0 <= i < |rows| ensures rows[i].place < |next| && i < m {
      assert rows[i] in rows;
    }
    assert |rows| == 0 || rows[|rows| - 1].place < |next|;
    assert rows[..|rows|] == rows;
  }
}
