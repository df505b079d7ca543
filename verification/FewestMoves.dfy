/** Whether a report on a query result without a sort leaves as many rows in place as any
    right report could. */
module FewestMoves {
  import opened Common
  import opened Ranges
  import opened RangeOps
  import opened Changes
  import opened ChangeBuilder
  import opened Pairings
  import opened Walks
  import opened Stayers
  import opened Overtakers
  import opened Diffs

  // ---------- rows that stay, and reports ----------

  /** Rows at the places `p` can stay and get the places `q`. */
  ghost predicate StaySame(prev: seq<Option<nat>>, next: seq<nat>, p: seq<nat>, q: seq<nat>) {
    && Increasing(p, |prev|) && Increasing(q, |next|) && |p| == |q|
    && forall k :: 0 <= k < |p| ==> prev[p[k]] == Some(next[q[k]])
  }

  /** No report that leads from the old rows to the new ones leaves more than `n` rows. */
  ghost predicate NoneLeavesMore(prev: seq<Option<nat>>, next: seq<nat>, n: int) {
    forall del, ins, moves {:trigger Leads(prev, Shown(next), del, ins, moves)} ::
      Separated(del) && Separated(ins) && Leads(prev, Shown(next), del, ins, moves) ==> Rank(del, |prev|) <= n
  }

  ghost function Outside(n: nat, gone: seq<Range>): seq<nat> {
    if n == 0 then [] else Outside(n - 1, gone) + if In(gone, n - 1) then [] else [n - 1]
  }

  lemma {:induction false} OutsideRises(n: nat, gone: seq<Range>)
    ensures Increasing(Outside(n, gone), n)
  {
    hide In;
    if n > 0 {
      OutsideRises(n - 1, gone);
    }
  }

  lemma {:induction false} SurvivorsOutside<T>(s: seq<T>, gone: seq<Range>)
    ensures |Survivors(s, gone)| == |Outside(|s|, gone)| && Increasing(Outside(|s|, gone), |s|)
    ensures forall k :: 0 <= k < |Outside(|s|, gone)| ==> Survivors(s, gone)[k] == s[Outside(|s|, gone)[k]]
  {
    hide In, Increasing;
    OutsideRises(|s|, gone);
    Below(Outside(|s|, gone), |s|);
    if s != [] {
      var init := s[..|s| - 1];
      SurvivorsOutside(init, gone);
      OutsideRises(|init|, gone);
      Below(Outside(|init|, gone), |init|);
      forall k | 0 <= k < |Outside(|s|, gone)| ensures Survivors(s, gone)[k] == s[Outside(|s|, gone)[k]] {
        if k < |Outside(|init|, gone)| {
          assert Survivors(init, gone)[k] == init[Outside(|init|, gone)[k]];
        }
      }
    }
  }

  lemma {:induction false} Below(s: seq<nat>, n: nat)
    requires Increasing(s, n)
    ensures forall k :: 0 <= k < |s| ==> s[k] < n
  {
  }

  /** Every report leaves rows that can stay. */
  lemma {:induction false} ReportStays(prev: seq<Option<nat>>, next: seq<nat>, del: seq<Range>, ins: seq<Range>, moves: seq<Move>)
    returns (p: seq<nat>, q: seq<nat>)
    requires Ordered(del) && Leads(prev, Shown(next), del, ins, moves)
    ensures StaySame(prev, next, p, q) && |p| == Rank(del, |prev|)
  {
    hide In, Rank, Survivors, Outside;
    LeadsMeans(prev, Shown(next), del, ins, moves);
    SurvivorsOutside(prev, del);
    SurvivorsOutside(Shown(next), ins);
    SurvivorsCount(prev, del);
    p, q := Outside(|prev|, del), Outside(|next|, ins);
  }

  /** The ranges of the numbers below `n` that are not in the list. */
  ghost function Gaps(n: nat, s: seq<nat>): seq<Range> {
    if n == 0 then []
    else
      var rs := Gaps(n - 1, s);
      if n - 1 in s then rs
      else if rs != [] && rs[|rs| - 1].second == n - 1 then rs[..|rs| - 1] + [Range(rs[|rs| - 1].first, n)]
      else rs + [Range(n - 1, n)]
  }

  lemma {:induction false} LastGrows(rs: seq<Range>, n: nat, x: int)
    requires Separated(rs) && rs != [] && rs[|rs| - 1].second == n - 1
    ensures In(rs[..|rs| - 1] + [Range(rs[|rs| - 1].first, n)], x) <==> In(rs, x) || x == n - 1
  {
    hide In;
    var init, last := rs[..|rs| - 1], rs[|rs| - 1];
    assert rs == init + [last];
    InSplit(init, [last], x);
    InSplit(init, [Range(last.first, n)], x);
    InOne(last, x);
    InOne(Range(last.first, n), x);
  }

  lemma {:induction false} LastReaches(rs: seq<Range>, n: nat)
    requires Separated(rs) && rs != [] && rs[|rs| - 1].second == n - 1
    ensures Separated(rs[..|rs| - 1] + [Range(rs[|rs| - 1].first, n)])
  {
    var init, now := rs[..|rs| - 1], Range(rs[|rs| - 1].first, n);
    forall i, j | 0 <= i < j < |rs| ensures (init + [now])[i].second < (init + [now])[j].first {
      assert (init + [now])[i] == rs[i] && (init + [now])[j].first == rs[j].first;
    }
  }

  lemma {:induction false} OneMore(rs: seq<Range>, n: nat)
    requires Separated(rs) && n > 0 && (rs != [] ==> rs[|rs| - 1].second < n - 1)
    ensures Separated(rs + [Range(n - 1, n)])
  {
    forall i | 0 <= i < |rs| ensures rs[i].second < n - 1 {
      assert i < |rs| - 1 ==> rs[i].second < rs[|rs| - 1].first;
    }
  }

  lemma {:induction false} GapsSeparated(n: nat, s: seq<nat>)
    ensures var rs := Gaps(n, s); Separated(rs) && (rs != [] ==> rs[|rs| - 1].second <= n)
  {
    hide Separated;
    if n == 0 {
      assert Separated([]) by {
        NothingSeparated();
      }
    } else {
      GapsSeparated(n - 1, s);
      var rs := Gaps(n - 1, s);
      if rs != [] && rs[|rs| - 1].second == n - 1 {
        LastReaches(rs, n);
      } else {
        OneMore(rs, n);
      }
    }
  }

  lemma {:induction false} NothingSeparated()
    ensures Separated([])
  {
  }

  lemma {:induction false} GapsAre(n: nat, s: seq<nat>)
    ensures Separated(Gaps(n, s))
    ensures forall x: int {:trigger In(Gaps(n, s), x)} :: In(Gaps(n, s), x) <==> 0 <= x < n && x !in s
  {
    hide In, Separated;
    GapsSeparated(n, s);
    if n == 0 {
      NothingIn();
    } else {
      GapsSeparated(n - 1, s);
      GapsAre(n - 1, s);
      var rs := Gaps(n - 1, s);
      forall x: int ensures In(Gaps(n, s), x) <==> 0 <= x < n && x !in s {
        if n - 1 !in s {
          if rs != [] && rs[|rs| - 1].second == n - 1 {
            LastGrows(rs, n, x);
          } else {
            InSplit(rs, [Range(n - 1, n)], x);
            InOne(Range(n - 1, n), x);
          }
        }
      }
    }
  }

  /** Rows that can stay are left by some report. */
  lemma {:induction false} ReportFor(prev: seq<Option<nat>>, next: seq<nat>, p: seq<nat>, q: seq<nat>)
    returns (del: seq<Range>, ins: seq<Range>)
    requires StaySame(prev, next, p, q)
    ensures Separated(del) && Separated(ins) && Leads(prev, Shown(next), del, ins, []) && Rank(del, |prev|) == |p|
  {
    hide In, Rank, Gaps, Account, Leads;
    del, ins := Gaps(|prev|, p), Gaps(|next|, q);
    GapsAre(|prev|, p);
    GapsAre(|next|, q);
    GapsKeepOrder(del);
    GapsKeepOrder(ins);
    RestRank(del, |prev|, p);
    NothingIn();
    AccountHolds(prev, next, del, ins, p, q, [], []);
    AccountLeads(prev, Shown(next), Account(|next|, p, q, [], []), del, ins, []);
  }

  // ---------- the rows in both results ----------

  ghost predicate InBothResults(prev: seq<Option<nat>>, next: seq<nat>, r: RowInfo) {
    && r.place < |next| && r.prev.Some? && r.prev.value < |prev| && prev[r.prev.value] == Some(next[r.place])
    && r.shifted == Present(prev, r.prev.value)
  }

  lemma {:induction false} SharedRows(prev: seq<Option<nat>>, next: seq<nat>, n: nat)
    requires n <= |next|
    ensures forall r :: r in Shared(prev, next, n) ==> InBothResults(prev, next, r) && r.place < n
    ensures ByPlaces(Shared(prev, next, n))
  {
    if n > 0 {
      SharedRows(prev, next, n - 1);
      var s, r := Shared(prev, next, n - 1), Shared(prev, next, n);
      forall i | 0 <= i < |s| ensures s[i].place < n - 1 {
        assert s[i] in s;
      }
    }
  }

  lemma {:induction false} PresentBelow(prev: seq<Option<nat>>, x: nat)
    requires x <= |prev|
    ensures Present(prev, x) <= x
  {
    if x > 0 {
      PresentBelow(prev, x - 1);
    }
  }

  lemma {:induction false} SharedDiffer(prev: seq<Option<nat>>, next: seq<nat>)
    requires NoDup(next)
    ensures ShiftsDiffer(Shared(prev, next, |next|)) && InFront(Shared(prev, next, |next|), |prev|)
  {
    hide Shared, Present;
    var rows := Shared(prev, next, |next|);
    SharedRows(prev, next, |next|);
    forall r | r in rows ensures r.shifted < |prev| {
      PresentBelow(prev, r.prev.value);
    }
    forall i, j | 0 <= i < j < |rows| ensures rows[i].shifted != rows[j].shifted {
      assert rows[i] in rows && rows[j] in rows;
      PresentOrder(prev, rows[i].prev.value, rows[j].prev.value);
    }
  }

  // ---------- choices of rows are rows that can stay ----------

  ghost function RowsAt(prev: seq<Option<nat>>, next: seq<nat>, p: seq<nat>, q: seq<nat>): (s: seq<RowInfo>)
    requires StaySame(prev, next, p, q)
    ensures |s| == |p| &&
            forall k :: 0 <= k < |p| ==> s[k] == RowInfo(next[q[k]], Some(p[k]), q[k], Present(prev, p[k]))
  {
    seq(|p|, k requires 0 <= k < |p| => RowInfo(next[q[k]], Some(p[k]), q[k], Present(prev, p[k])))
  }

  lemma {:induction false} StayersAmong(prev: seq<Option<nat>>, next: seq<nat>, p: seq<nat>, q: seq<nat>, n: nat)
    requires StaySame(prev, next, p, q) && Distinct(prev) && n <= |next| && forall k :: 0 <= k < |q| ==> q[k] < n
    ensures Among(RowsAt(prev, next, p, q), Shared(prev, next, n))
    decreases n
  {
    hide Among, Present;
    var s := RowsAt(prev, next, p, q);
    if |q| == 0 {
      assert s == [];
      NoneAmong(Shared(prev, next, n));
    } else if q[|q| - 1] == n - 1 {
      var l := |q| - 1;
      assert StaySame(prev, next, p[..l], q[..l]);
      StayersAmong(prev, next, p[..l], q[..l], n - 1);
      assert prev[p[l]] == Some(next[n - 1]) && Some(next[n - 1]) in prev;
      var x := OldPlace(prev, next[n - 1]);
      assert x == p[l];
      AmongMore(RowsAt(prev, next, p[..l], q[..l]), Shared(prev, next, n - 1), s[l]);
      assert s == RowsAt(prev, next, p[..l], q[..l]) + [s[l]];
    } else {
      StayersAmong(prev, next, p, q, n - 1);
      if Some(next[n - 1]) in prev {
        var x := OldPlace(prev, next[n - 1]);
        AmongMore(s, Shared(prev, next, n - 1), RowInfo(next[n - 1], Some(x), n - 1, Present(prev, x)));
      } else {
        assert Shared(prev, next, n) == Shared(prev, next, n - 1);
      }
    }
  }

  lemma {:induction false} StayersUnchanged(prev: seq<Option<nat>>, next: seq<nat>, p: seq<nat>, q: seq<nat>)
    requires StaySame(prev, next, p, q)
    ensures Unchanged(RowsAt(prev, next, p, q)) && InFront(RowsAt(prev, next, p, q), |prev|)
  {
    hide Present;
    var s := RowsAt(prev, next, p, q);
    forall i, j | 0 <= i < j < |s| ensures s[i].shifted < s[j].shifted {
      PresentStep(prev, p[i], p[j]);
    }
    forall r | r in s ensures r.shifted < |prev| {
      var k :| 0 <= k < |s| && s[k] == r;
      PresentBelow(prev, p[k]);
    }
  }

  lemma {:induction false} ChoiceStays(prev: seq<Option<nat>>, next: seq<nat>, s: seq<RowInfo>)
    requires Among(s, Shared(prev, next, |next|)) && Unchanged(s)
    ensures forall r :: r in s ==> r.prev.Some?
    ensures StaySame(prev, next, OldPlaces(s), Places(s))
  {
    hide Among, Shared, Present, Unchanged;
    var rows := Shared(prev, next, |next|);
    SharedRows(prev, next, |next|);
    forall a | 0 <= a < |s| ensures InBothResults(prev, next, s[a]) {
      var i, j := AmongOrder(s, rows, a, a);
      assert rows[i] in rows;
    }
    forall a, b | 0 <= a < b < |s| ensures s[a].place < s[b].place && s[a].prev.value < s[b].prev.value {
      var i, j := AmongOrder(s, rows, a, b);
      assert rows[i].place < rows[j].place;
      Climbs(s, a, b);
      PresentFalls(prev, s[a].prev.value, s[b].prev.value);
    }
  }

  lemma {:induction false} Climbs(s: seq<RowInfo>, a: nat, b: nat)
    requires Unchanged(s) && a < b < |s|
    ensures s[a].shifted < s[b].shifted
  {
  }

  lemma {:induction false} PresentFalls(prev: seq<Option<nat>>, x: nat, y: nat)
    requires x <= |prev| && y <= |prev| && Present(prev, x) < Present(prev, y)
    ensures x < y
  {
    if y <= x {
      PresentStep(prev, y, x);
    }
  }

  /** The most rows any report leaves is the length of a longest choice of rows in both
      results that are in the old order. */
  lemma {:induction false} NoneLeavesMoreIff(prev: seq<Option<nat>>, next: seq<nat>, n: int)
    requires Distinct(prev)
    ensures NoneLeavesMore(prev, next, n) <==> Longest(Shared(prev, next, |next|), |prev|) <= n
  {
    hide Among, Shared, Present, Leads, Rank, Distinct, Longest, Separated;
    var rows := Shared(prev, next, |next|);
    if NoneLeavesMore(prev, next, n) {
      var s := LongestChosen(rows, |prev|);
      ChoiceStays(prev, next, s);
      var del, ins := ReportFor(prev, next, OldPlaces(s), Places(s));
    }
    if Longest(rows, |prev|) <= n {
      forall del, ins, moves {:trigger Leads(prev, Shown(next), del, ins, moves)}
        | Separated(del) && Separated(ins) && Leads(prev, Shown(next), del, ins, moves)
        ensures Rank(del, |prev|) <= n
      {
        GapsKeepOrder(del);
        var p, q := ReportStays(prev, next, del, ins, moves);
        StayersAmong(prev, next, p, q, |next|);
        StayersUnchanged(prev, next, p, q);
        AtMostLongest(RowsAt(prev, next, p, q), rows, |prev|);
      }
    }
  }

  /** The promise of the walk's own description, a minimal report: if only candidates
      overtake others, no right report leaves more rows in place exactly if the rows that
      overtake none are as many as a longest choice in the old order. They are if any two
      rows that overtake others changed their own order, too. */
  lemma {:induction false} FewestIff(prev: seq<Option<nat>>, next: seq<nat>, candidates: seq<Range>, del: seq<Range>,
                                     ins: seq<Range>, moves: seq<Move>)
    requires Separated(del) && Distinct(prev) && NoDup(next)
    requires UnsortedReport(prev, next, candidates, del, ins, moves) && OnlyCandidatesMove(prev, next, candidates)
    ensures var rows := Shared(prev, next, |next|);
      && Rank(del, |prev|) == |Quiet(rows, |rows|)|
      && (NoneLeavesMore(prev, next, Rank(del, |prev|)) <==> |Quiet(rows, |rows|)| == Longest(rows, |prev|))
      && (OvertakersInverted(rows) ==> NoneLeavesMore(prev, next, Rank(del, |prev|)))
  {
    hide Among, Shared, Present, Rank, Distinct, NoDup, Longest, Quiet, OnlyCandidatesMove, NoneLeavesMore, OvertakersInverted;
    hide AllGiveWay, MovesListed, Resters, In;
    var rows := Shared(prev, next, |next|);
    SharedDiffer(prev, next);
    QuietFits(rows, |prev|);
    QuietAmong(rows, |rows|);
    assert rows[..|rows|] == rows;
    QuietUnchanged(rows, |rows|);
    ChoiceStays(prev, next, Quiet(rows, |rows|));
    GapsKeepOrder(del);
    RestRank(del, |prev|, OldPlaces(Quiet(rows, |rows|)));
    NoneLeavesMoreIff(prev, next, Rank(del, |prev|));
    if OvertakersInverted(rows) {
      QuietLongest(rows, |prev|);
    }
  }

  // ---------- in terms of the results ----------

  /** The row that was at `x` and is now at `i` got in front of another one. */
  ghost predicate Overtook(prev: seq<Option<nat>>, next: seq<nat>, x: nat, i: nat) {
    exists y: nat, j: nat {:trigger prev[y], next[j]} :: y < x && y < |prev| && i < j < |next| && prev[y] == Some(next[j])
  }

  lemma {:induction false} SharedAt(prev: seq<Option<nat>>, next: seq<nat>, x: nat, i: nat, n: nat) returns (k: nat)
    requires Distinct(prev) && x < |prev| && i < n <= |next| && prev[x] == Some(next[i])
    ensures k < |Shared(prev, next, n)|
    ensures Shared(prev, next, n)[k] == RowInfo(next[i], Some(x), i, Present(prev, x))
    decreases n
  {
    hide Present;
    if i == n - 1 {
      assert prev[x] in prev;
      assert OldPlace(prev, next[i]) == x;
      k := |Shared(prev, next, n - 1)|;
    } else {
      k := SharedAt(prev, next, x, i, n - 1);
    }
  }

  lemma {:induction false} OvertakesOvertook(prev: seq<Option<nat>>, next: seq<nat>, k: nat)
    requires Distinct(prev) && k < |Shared(prev, next, |next|)|
    ensures var r := Shared(prev, next, |next|)[k];
      InBothResults(prev, next, r) && (Overtakes(Shared(prev, next, |next|), k) <==> Overtook(prev, next, r.prev.value, r.place))
  {
    hide Shared, Present, Distinct;
    var rows := Shared(prev, next, |next|);
    SharedRows(prev, next, |next|);
    var r := rows[k];
    assert r in rows;
    if j :| k < j < |rows| && rows[j].shifted < r.shifted {
      assert rows[j] in rows;
      PresentFalls(prev, rows[j].prev.value, r.prev.value);
      assert prev[rows[j].prev.value] == Some(next[rows[j].place]);
    }
    if y: nat, j: nat :| y < r.prev.value && r.place < j < |next| && prev[y] == Some(next[j]) {
      var l := SharedAt(prev, next, y, j, |next|);
      PresentStep(prev, y, r.prev.value);
      ByPlacesOrder(rows, k, l);
    }
  }

  lemma {:induction false} ByPlacesOrder(rows: seq<RowInfo>, k: nat, l: nat)
    requires ByPlaces(rows) && k < |rows| && l < |rows| && rows[k].place < rows[l].place
    ensures k < l
  {
  }

  /** A row in both results is deleted, inserted again and reported moved exactly if it
      got in front of another one; nothing else is reported moved. */
  lemma {:induction false} JustOvertakersMove(prev: seq<Option<nat>>, next: seq<nat>, candidates: seq<Range>, del: seq<Range>,
                                              ins: seq<Range>, moves: seq<Move>, x: nat, i: nat)
    requires Distinct(prev) && NoDup(next)
    requires UnsortedReport(prev, next, candidates, del, ins, moves) && OnlyCandidatesMove(prev, next, candidates)
    requires x < |prev| && i < |next|
    ensures prev[x] == Some(next[i]) ==> (In(del, x) <==> Overtook(prev, next, x, i)) && (In(ins, i) <==> Overtook(prev, next, x, i))
    ensures Move(x, i) in moves <==> prev[x] == Some(next[i]) && Overtook(prev, next, x, i)
  {
    hide Shared, Present, Distinct, NoDup, Quiet, Overtakes, Overtook, OnlyCandidatesMove, AllGiveWay, Resters, In, ShiftsDiffer;
    if prev[x] == Some(next[i]) {
      var rows := Shared(prev, next, |next|);
      var k := SharedAt(prev, next, x, i, |next|);
      OvertakesOvertook(prev, next, k);
      SharedDiffer(prev, next);
      SharedRows(prev, next, |next|);
      QuietIn(rows, |rows|);
      var quiet := Quiet(rows, |rows|);
      InPlaces(quiet, i);
      InOldPlaces(quiet, x);
      forall r | r in quiet && (r.place == i || r.prev == Some(x)) ensures r == rows[k] {
        SameRow(prev, next, r, rows[k]);
      }
    }
  }

  lemma {:induction false} SameRow(prev: seq<Option<nat>>, next: seq<nat>, r: RowInfo, s: RowInfo)
    requires Distinct(prev) && NoDup(next) && r in Shared(prev, next, |next|) && s in Shared(prev, next, |next|)
    requires r.place == s.place || r.prev == s.prev
    ensures r == s
  {
    hide Shared, Present;
    var rows := Shared(prev, next, |next|);
    SharedRows(prev, next, |next|);
    var i :| 0 <= i < |rows| && rows[i] == r;
    var j :| 0 <= j < |rows| && rows[j] == s;
    assert r.place == s.place;
  }
}
