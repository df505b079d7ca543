/** Computing the changes between two query results (`calculate`): rows in both are
    paired, rows out of place are found, and the change set is put together. */
module Diffs {
  import opened Common
  import opened Ranges
  import opened Chunks
  import opened RangeOps
  import opened IndexSets
  import opened IndexCounts
  import opened Changes
  import opened SetOperations
  import opened Merges
  import opened ChangeBuilder
  import opened Matches
  import opened Pairings
  import opened Walks
  import opened Overtakers
  import opened Stayers

  // ---------- change sets from the rows that stay ----------

  ghost predicate Rest(rs: seq<Range>, n: nat, s: seq<nat>) {
    forall x {:trigger In(rs, x)} :: In(rs, x) <==> 0 <= x < n && x !in s
  }

  ghost predicate RestBelow(rs: seq<Range>, n: nat, s: seq<nat>) {
    forall x {:trigger In(rs, x)} :: 0 <= x < n ==> (In(rs, x) <==> x !in s)
  }

  /** Rows at the places `p` stay and get the places `q`; all others are deleted and
      inserted. */
  ghost predicate Kept(prev: seq<Option<nat>>, next: seq<nat>, del: seq<Range>, ins: seq<Range>, p: seq<nat>, q: seq<nat>) {
    && Increasing(p, |prev|) && Increasing(q, |next|) && |p| == |q|
    && (forall k :: 0 <= k < |p| ==> prev[p[k]] == Some(next[q[k]]))
    && Rest(del, |prev|, p) && Rest(ins, |next|, q)
  }

  lemma {:induction false} RestRankAt(rs: seq<Range>, n: nat, s: seq<nat>, x: nat, k: nat)
    requires Ordered(rs) && Increasing(s, n) && RestBelow(rs, n, s) && x <= n && k <= |s|
    requires (forall l :: 0 <= l < k ==> s[l] < x) && (forall l :: k <= l < |s| ==> s[l] >= x)
    ensures Rank(rs, x) == k
  {
    if x == 0 {
      RankZero(rs);
    } else {
      CountStep(rs, x - 1);
      if k > 0 && s[k - 1] == x - 1 {
        RestRankAt(rs, n, s, x - 1, k - 1);
      } else {
        RestRankAt(rs, n, s, x - 1, k);
      }
    }
  }

  lemma {:induction false} RestRankBelow(rs: seq<Range>, n: nat, s: seq<nat>)
    requires Ordered(rs) && Increasing(s, n) && RestBelow(rs, n, s)
    ensures Rank(rs, n) == |s|
  {
    RestRankAt(rs, n, s, n, |s|);
  }

  lemma {:induction false} RestRank(rs: seq<Range>, n: nat, s: seq<nat>)
    requires Ordered(rs) && Increasing(s, n) && Rest(rs, n, s)
    ensures Rank(rs, n) == |s| && forall k :: 0 <= k < |s| ==> Rank(rs, s[k]) == k
  {
    RestRankAt(rs, n, s, n, |s|);
    forall k | 0 <= k < |s| ensures Rank(rs, s[k]) == k {
      RestRankAt(rs, n, s, s[k], k);
    }
  }

  ghost function Account(n: nat, p: seq<nat>, q: seq<nat>, moves: seq<Move>, mods: seq<Range>): (items: seq<Item>)
    requires |p| == |q|
    ensures |items| == n && forall j :: 0 <= j < n ==> items[j] == AccountAt(p, q, moves, mods, j)
  {
    seq(n, j requires 0 <= j < n => AccountAt(p, q, moves, mods, j))
  }

  ghost function AccountAt(p: seq<nat>, q: seq<nat>, moves: seq<Move>, mods: seq<Range>, j: nat): Item
    requires |p| == |q|
  {
    if j in q then var k :| 0 <= k < |q| && q[k] == j; Item(Some(p[k]), false, In(mods, j))
    else if exists m :: m in moves && m.to == j then
      var m :| m in moves && m.to == j; Item(Some(m.from), true, In(mods, j))
    else Item(None, false, In(mods, j))
  }

  ghost predicate MovesFit(prev: seq<Option<nat>>, next: seq<nat>, p: seq<nat>, q: seq<nat>, moves: seq<Move>) {
    && (forall m :: m in moves ==>
          m.from < |prev| && m.to < |next| && prev[m.from] == Some(next[m.to]) && m.from !in p && m.to !in q)
    && (forall m, m2 :: m in moves && m2 in moves && (m.from == m2.from || m.to == m2.to) ==> m == m2)
    && DistinctTos(moves)
  }

  /** The new rows, as the old ones are given. */
  ghost function Shown(next: seq<nat>): (rows: seq<Option<nat>>)
    ensures |rows| == |next| && forall j :: 0 <= j < |next| ==> rows[j] == Some(next[j])
  {
    seq(|next|, j requires 0 <= j < |next| => Some(next[j]))
  }

  ghost predicate AccountFacts(p: seq<nat>, q: seq<nat>, moves: seq<Move>, mods: seq<Range>, j: nat)
    requires |p| == |q|
  {
    var x := AccountAt(p, q, moves, mods, j);
    && (j in q ==> !x.moved && exists k :: 0 <= k < |q| && q[k] == j && x.origin == Some(p[k]))
    && (j !in q && x.moved ==> x.origin.Some? && Move(x.origin.value, j) in moves)
    && (j !in q && !x.moved ==> x.origin.None? && forall m :: m in moves ==> m.to != j)
    && x.dirty == In(mods, j)
  }

  lemma {:induction false} AccountItem(p: seq<nat>, q: seq<nat>, moves: seq<Move>, mods: seq<Range>, j: nat)
    requires |p| == |q|
    ensures AccountFacts(p, q, moves, mods, j)
  {
  }

  /** The account of which rows stay and which move is what the sets say. */
  lemma {:induction false} AccountHolds(prev: seq<Option<nat>>, next: seq<nat>, del: seq<Range>, ins: seq<Range>,
                                        p: seq<nat>, q: seq<nat>, moves: seq<Move>, mods: seq<Range>)
    requires Ordered(del) && Ordered(ins) && Kept(prev, next, del, ins, p, q) && MovesFit(prev, next, p, q, moves)
    requires forall x {:trigger In(mods, x)} :: In(mods, x) ==> 0 <= x < |next|
    ensures var items := Account(|next|, p, q, moves, mods);
      && Tally(|prev|, items, del, ins) && Inserted(items, ins) && Sources(items, del) && MovesAre(items, moves)
      && Modified(items, mods) && Tracks(prev, Shown(next), items)
  {
    hide AccountAt, In, Rank;
    var items := Account(|next|, p, q, moves, mods);
    RestRank(del, |prev|, p);
    RestRank(ins, |next|, q);
    forall j: nat ensures AccountFacts(p, q, moves, mods, j) {
      AccountItem(p, q, moves, mods, j);
    }
    forall j | 0 <= j < |items| ensures Placed(items[j]) <==> j !in q {
      assert AccountFacts(p, q, moves, mods, j);
    }
    forall j | 0 <= j < |items| && !Placed(items[j]) ensures Stayed(|prev|, items[j], j, del, ins) {
      assert AccountFacts(p, q, moves, mods, j);
    }
    forall j | 0 <= j < |items| && items[j].origin.Some?
      ensures items[j].origin.value < |prev| && prev[items[j].origin.value] == Some(next[j])
    {
      assert AccountFacts(p, q, moves, mods, j);
    }
    forall j | 0 <= j < |items| && items[j].moved
      ensures items[j].origin.Some? && In(del, items[j].origin.value) && Move(items[j].origin.value, j) in moves
    {
      assert AccountFacts(p, q, moves, mods, j);
    }
    forall m ensures m in moves <==> Moves(items, m) {
      if m in moves {
        assert AccountFacts(p, q, moves, mods, m.to);
      }
    }
    forall x {:trigger In(mods, x)} ensures In(mods, x) <==> 0 <= x < |items| && items[x].dirty {
      if 0 <= x < |items| {
        assert AccountFacts(p, q, moves, mods, x);
      }
    }
  }

  // ---------- rows out of place, without a sort ----------

  /** After the first `k` rows: which of them stay, which are reported moved. */
  ghost predicate Walked(prev: seq<Option<nat>>, next: seq<nat>, rows: seq<RowInfo>, k: nat, kept: seq<RowInfo>,
                         moves: seq<Move>, removed: seq<Range>, ins: seq<Range>)
  {
    && k <= |rows| && StayIn(rows, k, kept)
    && (forall x {:trigger In(removed, x)} :: In(removed, x) <==>
          0 <= x < |prev| && prev[x].Some? && (forall r :: r in kept || r in rows[k..] ==> r.prev != Some(x)))
    && (forall x {:trigger In(ins, x)} :: In(ins, x) <==>
          0 <= x < |next| && (forall r :: r in kept || r in rows[k..] ==> r.place != x))
    && (forall m {:trigger m in moves} :: m in moves <==>
          exists r :: r in rows[..k] && r !in kept && r.prev == Some(m.from) && r.place == m.to)
    && DistinctTos(moves)
  }

  ghost predicate StayIn(rows: seq<RowInfo>, k: nat, kept: seq<RowInfo>)
    requires k <= |rows|
  {
    && (forall r :: r in kept ==> r in rows[..k])
    && (forall i, j :: 0 <= i < j < |kept| ==> kept[i].place < kept[j].place)
  }

  lemma {:induction false} WalkStart(prev: seq<Option<nat>>, next: seq<nat>, rows: seq<RowInfo>, removed: seq<Range>,
                                     ins: seq<Range>, candidates: seq<Range>)
    requires Unpaired(prev, next, rows, removed, ins)
    ensures WalkTo(rows, candidates, 0) == Walk([], 0) && Walked(prev, next, rows, 0, [], [], removed, ins)
  {
  }

  lemma {:induction false} WalkKeep(prev: seq<Option<nat>>, next: seq<nat>, rows: seq<RowInfo>, k: nat, kept: seq<RowInfo>,
                                    moves: seq<Move>, removed: seq<Range>, ins: seq<Range>)
    requires Walked(prev, next, rows, k, kept, moves, removed, ins) && ByPlaces(rows) && k < |rows|
    ensures Walked(prev, next, rows, k + 1, kept + [rows[k]], moves, removed, ins)
  {
    var now := kept + [rows[k]];
    Split(rows, k);
    forall r ensures r in now || r in rows[k + 1..] <==> r in kept || r in rows[k..] {
    }
    forall i | 0 <= i < |kept| ensures kept[i].place < rows[k].place {
      assert kept[i] in kept;
      var l :| 0 <= l < k && rows[l] == kept[i];
    }
    forall m ensures m in moves <==> exists r :: r in rows[..k + 1] && r !in now && r.prev == Some(m.from) && r.place == m.to {
      if m in moves {
        var r :| r in rows[..k] && r !in kept && r.prev == Some(m.from) && r.place == m.to;
        var l :| 0 <= l < k && rows[l] == r;
        assert r in rows[..k + 1] && r !in now;
      }
    }
  }

  lemma {:induction false} Split(rows: seq<RowInfo>, k: nat)
    requires k < |rows|
    ensures rows[..k + 1] == rows[..k] + [rows[k]] && rows[k..] == [rows[k]] + rows[k + 1..]
  {
  }

  lemma {:induction false} WalkMove(prev: seq<Option<nat>>, next: seq<nat>, rows: seq<RowInfo>, k: nat, kept: seq<RowInfo>,
                                    moves: seq<Move>, removed: seq<Range>, ins: seq<Range>, removed': seq<Range>, ins': seq<Range>)
    requires Paired(prev, next, rows) && ByPlaces(rows) && k < |rows|
    requires Walked(prev, next, rows, k, kept, moves, removed, ins)
    requires rows[k].prev.Some? && AddSpec(removed, removed', rows[k].prev.value) && AddSpec(ins, ins', rows[k].place)
    ensures Walked(prev, next, rows, k + 1, kept, moves + [Move(rows[k].prev.value, rows[k].place)], removed', ins')
  {
    hide In, Present, Paired;
    var row := rows[k];
    Split(rows, k);
    OthersDiffer(prev, next, rows, k);
    forall r | r in kept ensures r.prev != row.prev && r.place != row.place {
      assert r in rows[..k];
    }
    var now := moves + [Move(row.prev.value, row.place)];
    forall m ensures m in now <==> exists r :: r in rows[..k + 1] && r !in kept && r.prev == Some(m.from) && r.place == m.to {
      if m in moves {
        var r :| r in rows[..k] && r !in kept && r.prev == Some(m.from) && r.place == m.to;
        assert r in rows[..k + 1];
      }
      if m == Move(row.prev.value, row.place) {
        assert row in rows[..k + 1] && row !in kept;
      }
    }
    forall i | 0 <= i < |moves| ensures moves[i].to != row.place {
      assert moves[i] in moves;
    }
  }

  lemma {:induction false} OthersDiffer(prev: seq<Option<nat>>, next: seq<nat>, rows: seq<RowInfo>, k: nat)
    requires Paired(prev, next, rows) && ByPlaces(rows) && k < |rows|
    ensures forall r :: r in rows[..k] || r in rows[k + 1..] ==> r.prev != rows[k].prev && r.place != rows[k].place
    ensures rows[k].place < |next| && rows[k].prev.Some? && rows[k].prev.value < |prev| && prev[rows[k].prev.value].Some?
  {
  }

  // ---------- where a row is to be expected ----------

  ghost function Places(rows: seq<RowInfo>): (s: seq<nat>)
    ensures |s| == |rows| && forall k :: 0 <= k < |s| ==> s[k] == rows[k].place
  {
    seq(|rows|, k requires 0 <= k < |rows| => rows[k].place)
  }

  ghost function OldPlaces(rows: seq<RowInfo>): (s: seq<nat>)
    requires forall r :: r in rows ==> r.prev.Some?
    ensures |s| == |rows| && forall k :: 0 <= k < |s| ==> s[k] == rows[k].prev.value
  {
    seq(|rows|, k requires 0 <= k < |rows| => assert rows[k] in rows; rows[k].prev.value)
  }

  lemma {:induction false} KeptSoFar(prev: seq<Option<nat>>, next: seq<nat>, rows: seq<RowInfo>, k: nat, kept: seq<RowInfo>,
                                     moves: seq<Move>, removed: seq<Range>, ins: seq<Range>)
    requires Paired(prev, next, rows) && ByPlaces(rows) && k < |rows|
    requires Walked(prev, next, rows, k, kept, moves, removed, ins)
    ensures Increasing(Places(kept), rows[k].place) && RestBelow(ins, rows[k].place, Places(kept))
  {
    hide In, Present;
    forall i | 0 <= i < |kept| ensures kept[i].place < rows[k].place {
      assert kept[i] in kept;
      var l :| 0 <= l < k && rows[l] == kept[i];
    }
    assert rows[k] in rows;
    forall x {:trigger In(ins, x)} | 0 <= x < rows[k].place ensures In(ins, x) <==> x !in Places(kept) {
      forall r | r in rows[k..] ensures r.place != x {
        var l :| k <= l < |rows| && rows[l] == r;
      }
      if x in Places(kept) {
        var i :| 0 <= i < |kept| && Places(kept)[i] == x;
        assert kept[i] in kept;
      } else {
        forall r | r in kept ensures r.place != x {
          var i :| 0 <= i < |kept| && kept[i] == r;
          assert Places(kept)[i] == r.place;
        }
      }
    }
  }

  /** Counting removals and insertions tells whether a row got in front of as many rows
      that stay as rows to come got in front of it. */
  lemma {:induction false} ExpectedIff(prev: seq<Option<nat>>, next: seq<nat>, rows: seq<RowInfo>, k: nat, kept: seq<RowInfo>,
                                       moves: seq<Move>, removed: seq<Range>, ins: seq<Range>)
    requires Paired(prev, next, rows) && ByPlaces(rows) && k < |rows|
    requires Walked(prev, next, rows, k, kept, moves, removed, ins) && Ordered(removed) && Ordered(ins)
    ensures rows[k].prev.Some?
    ensures rows[k].shifted == rows[k].place - CountBelow(ins, rows[k].place) + CountBelow(removed, rows[k].prev.value) <==>
            Smaller(rows[k + 1..], rows[k].shifted) == Larger(kept, rows[k].shifted)
  {
    hide Present, In, Paired, Walked, Increasing, RestBelow;
    var row := rows[k];
    OthersDiffer(prev, next, rows, k);
    KeptSoFar(prev, next, rows, k, kept, moves, removed, ins);
    RestRankBelow(ins, row.place, Places(kept));
    FreeRowsAre(prev, next, rows, k, kept, moves, removed, ins);
    FreeCount(prev, removed, row.prev.value);
    FreeIs(prev, removed, kept + rows[k..], row.prev.value);
    SmallerSplit(kept, rows[k..], row.shifted);
    BothSides(kept, row.shifted);
  }

  lemma {:induction false} KeptPlaces(rows: seq<RowInfo>, k: nat, kept: seq<RowInfo>)
    requires ByPlaces(rows) && k < |rows| && StayIn(rows, k, kept)
    ensures (forall r :: r in kept ==> r in rows && r.place < rows[k].place) && ByPlaces(kept)
  {
  }

  /** The rows that stay so far and those to come are paired rows in the new order. */
  lemma {:induction false} KeptAndComing(prev: seq<Option<nat>>, next: seq<nat>, rows: seq<RowInfo>, k: nat, kept: seq<RowInfo>)
    requires Paired(prev, next, rows) && ByPlaces(rows) && k < |rows|
    requires (forall r :: r in kept ==> r in rows && r.place < rows[k].place) && ByPlaces(kept)
    ensures ByPlaces(kept + rows[k..]) && Paired(prev, next, kept + rows[k..])
  {
    hide Present;
    var s := kept + rows[k..];
    forall i, j | 0 <= i < j < |s| ensures s[i].place < s[j].place {
      assert i < |kept| ==> kept[i] in kept;
      assert i < |kept| <= j ==> rows[k].place <= s[j].place;
    }
    forall r | r in s ensures r in rows {
      assert r in kept || r in rows[k..];
    }
  }

  lemma {:induction false} FreeRowsAre(prev: seq<Option<nat>>, next: seq<nat>, rows: seq<RowInfo>, k: nat, kept: seq<RowInfo>,
                                       moves: seq<Move>, removed: seq<Range>, ins: seq<Range>)
    requires Paired(prev, next, rows) && ByPlaces(rows) && k < |rows|
    requires Walked(prev, next, rows, k, kept, moves, removed, ins)
    ensures rows[k].prev.Some? && rows[k].prev.value < |prev| && rows[k].shifted == Present(prev, rows[k].prev.value)
    ensures FreeRows(prev, removed, kept + rows[k..])
    ensures forall x {:trigger In(removed, x)} :: In(removed, x) ==> 0 <= x < |prev| && prev[x].Some?
    ensures forall r :: r in kept ==> r.shifted != rows[k].shifted
  {
    hide Present, In, ByPlaces;
    var s := kept + rows[k..];
    KeptSoFar(prev, next, rows, k, kept, moves, removed, ins);
    KeptPlaces(rows, k, kept);
    KeptAndComing(prev, next, rows, k, kept);
    assert rows[k] in rows;
    PairedDiffer(prev, next, s);
    assert s[|kept|] == rows[k];
    forall r | r in kept ensures r.shifted != rows[k].shifted {
      var i :| 0 <= i < |kept| && kept[i] == r;
      assert s[i] == r;
    }
  }

  // ---------- the walk ----------

  ghost predicate StayersKept(rows: seq<RowInfo>, k: nat, kept: seq<RowInfo>, candidates: seq<Range>)
    requires k <= |rows|
  {
    forall l :: 0 <= l < k && !In(candidates, rows[l].index) ==> rows[l] in kept
  }

  /** `calculate_moves_unsorted`: the rows the walk leaves stay, all others are reported
      moved. */
  method CalculateMovesUnsorted(prev: seq<Option<nat>>, ghost next: seq<nat>, rows: seq<RowInfo>, removed: IndexSet,
                                candidates: IndexSet, insertions: IndexSet) returns (moves: seq<Move>)
    requires removed.Valid() && candidates.Valid() && insertions.Valid()
    requires removed.vec != insertions.vec && candidates.vec != removed.vec && candidates.vec != insertions.vec
    requires Paired(prev, next, rows) && Unpaired(prev, next, rows, removed.Rs(), insertions.Rs()) && ByPlaces(rows)
    modifies removed.vec, insertions.vec
    ensures removed.Valid() && insertions.Valid()
    ensures Walked(prev, next, rows, |rows|, WalkTo(rows, candidates.Rs(), |rows|).kept, moves, removed.Rs(), insertions.Rs())
  {
    hide Separated, ChunksOk, Paired, Unpaired, ByPlaces, Walked, In, Present, AddSpec, WalkTo, Smaller, Larger;
    moves := [];
    var expected: nat := 0;
    var k := 0;
    WalkStart(prev, next, rows, removed.Rs(), insertions.Rs(), candidates.Rs());
    while k < |rows|
      invariant k <= |rows| && removed.Valid() && insertions.Valid() && expected == WalkTo(rows, candidates.Rs(), k).expected
      invariant Walked(prev, next, rows, k, WalkTo(rows, candidates.Rs(), k).kept, moves, removed.Rs(), insertions.Rs())
    {
      var row := rows[k];
      ghost var w := WalkTo(rows, candidates.Rs(), k);
      OthersDiffer(prev, next, rows, k);
      WalkStep(rows, candidates.Rs(), k);
      var stays := row.shifted == expected;
      if !stays {
        var candidate := candidates.Contains(row.index);
        if !candidate {
          stays := true;
        } else {
          var came := Count(insertions.vec.data, 0, row.place);
          var went := Count(removed.vec.data, 0, row.prev.value);
          CountedRight(insertions.vec.data, row.place);
          CountedRight(removed.vec.data, row.prev.value);
          GapsKeepOrder(removed.Rs());
          GapsKeepOrder(insertions.Rs());
          ExpectedIff(prev, next, rows, k, w.kept, moves, removed.Rs(), insertions.Rs());
          stays := row.shifted == row.place - came + went;
        }
      }
      if stays {
        WalkKeep(prev, next, rows, k, w.kept, moves, removed.Rs(), insertions.Rs());
        expected := row.shifted + 1;
      } else {
        ghost var was, old_ := insertions.Rs(), removed.Rs();
        insertions.Add(row.place);
        removed.Add(row.prev.value);
        WalkMove(prev, next, rows, k, w.kept, moves, old_, was, removed.Rs(), insertions.Rs());
        moves := moves + [Move(row.prev.value, row.place)];
      }
      k := k + 1;
    }
  }

  lemma {:induction false} CountedRight(d: seq<Chunk>, end: nat)
    requires ChunksOk(d) && Separated(Flat(d))
    ensures Between(Flat(d), 0, end) - Overlooked(d, 0, end) == CountBelow(Flat(d), end)
  {
    CountRightIff(d, 0, end);
    CountNone(Flat(d), 0);
  }

  // ---------- what the walk leaves ----------

  lemma {:induction false} WalkedKept(prev: seq<Option<nat>>, next: seq<nat>, rows: seq<RowInfo>, kept: seq<RowInfo>,
                                      moves: seq<Move>, vanished: seq<Range>, removed: seq<Range>, del: seq<Range>,
                                      ins: seq<Range>)
    requires Paired(prev, next, rows) && ByPlaces(rows) && Walked(prev, next, rows, |rows|, kept, moves, removed, ins)
    requires Vanished(prev, |prev|, vanished) && Both(vanished, removed, del)
    ensures forall r :: r in kept ==> r in rows && r.prev.Some?
    ensures Rest(ins, |next|, Places(kept)) && Increasing(Places(kept), |next|)
    ensures Rest(del, |prev|, OldPlaces(kept))
    ensures forall k :: 0 <= k < |kept| ==> kept[k].prev.value < |prev| && prev[kept[k].prev.value] == Some(next[kept[k].place])
  {
    hide In, Present;
    assert rows[|rows|..] == [];
    assert rows[..|rows|] == rows;
    forall k | 0 <= k < |kept| ensures kept[k] in kept && kept[k] in rows {
    }
    forall x: int ensures x in Places(kept) <==> exists r :: r in kept && r.place == x {
      InPlaces(kept, x);
    }
    forall x: int ensures x in OldPlaces(kept) <==> exists r :: r in kept && r.prev == Some(x) {
      InOldPlaces(kept, x);
    }
  }

  lemma {:induction false} InPlaces(kept: seq<RowInfo>, x: int)
    ensures x in Places(kept) <==> exists r :: r in kept && r.place == x
  {
  }

  lemma {:induction false} InOldPlaces(kept: seq<RowInfo>, x: int)
    requires forall r :: r in kept ==> r.prev.Some?
    ensures x in OldPlaces(kept) <==> exists r :: r in kept && r.prev == Some(x)
  {
  }

  lemma {:induction false} WalkedMoves(prev: seq<Option<nat>>, next: seq<nat>, rows: seq<RowInfo>, kept: seq<RowInfo>,
                                       moves: seq<Move>, removed: seq<Range>, ins: seq<Range>)
    requires Paired(prev, next, rows) && ByPlaces(rows) && Walked(prev, next, rows, |rows|, kept, moves, removed, ins)
    ensures forall r :: r in kept ==> r.prev.Some?
    ensures MovesFit(prev, next, OldPlaces(kept), Places(kept), moves)
  {
    hide In, Present;
    assert rows[..|rows|] == rows;
    forall r | r in kept ensures r in rows && r.prev.Some? {
    }
    forall m | m in moves
      ensures m.from < |prev| && m.to < |next| && prev[m.from] == Some(next[m.to])
      ensures m.from !in OldPlaces(kept) && m.to !in Places(kept)
    {
      var r := MovedRow(rows, kept, moves, m);
      forall k | 0 <= k < |kept| ensures kept[k].prev.value != m.from && kept[k].place != m.to {
        assert kept[k] in kept;
        SamePlace(rows, kept[k], r);
      }
    }
    forall m, m2 | m in moves && m2 in moves && (m.from == m2.from || m.to == m2.to) ensures m == m2 {
      var r := MovedRow(rows, kept, moves, m);
      var r2 := MovedRow(rows, kept, moves, m2);
      SamePlace(rows, r, r2);
    }
  }

  lemma {:induction false} MovedRow(rows: seq<RowInfo>, kept: seq<RowInfo>, moves: seq<Move>, m: Move) returns (r: RowInfo)
    requires m in moves
    requires forall m {:trigger m in moves} :: m in moves <==>
      exists r :: r in rows[..|rows|] && r !in kept && r.prev == Some(m.from) && r.place == m.to
    ensures r in rows && r !in kept && r.prev == Some(m.from) && r.place == m.to
  {
    r :| r in rows[..|rows|] && r !in kept && r.prev == Some(m.from) && r.place == m.to;
  }

  lemma {:induction false} SamePlace(rows: seq<RowInfo>, r: RowInfo, s: RowInfo)
    requires ByPlaces(rows) && r in rows && s in rows
    ensures r.place == s.place ==> r == s
  {
  }

  lemma {:induction false} OldPlacesInOrder(prev: seq<Option<nat>>, next: seq<nat>, rows: seq<RowInfo>, kept: seq<RowInfo>)
    requires Paired(prev, next, rows) && (forall r :: r in kept ==> r in rows)
    ensures forall r :: r in kept ==> r.prev.Some?
    ensures Unchanged(kept) <==> Increasing(OldPlaces(kept), |prev|)
  {
    hide Present;
    forall i, j | 0 <= i < j < |kept| ensures kept[i].prev.value < kept[j].prev.value <==> kept[i].shifted < kept[j].shifted {
      assert kept[i] in kept && kept[j] in kept;
      ShiftedOrder(prev, next, rows, kept[i], kept[j]);
    }
    forall k | 0 <= k < |kept| ensures kept[k].prev.value < |prev| {
      assert kept[k] in kept;
    }
  }

  lemma {:induction false} SurvivorsDistinct<T>(s: seq<T>, gone: seq<Range>)
    requires Ordered(gone) && NoDup(s)
    ensures NoDup(Survivors(s, gone))
  {
    forall k, l | 0 <= k < l < |Survivors(s, gone)| ensures Survivors(s, gone)[k] != Survivors(s, gone)[l] {
      var i := SurvivorFrom(s, gone, k);
      var j := SurvivorFrom(s, gone, l);
    }
  }

  lemma {:induction false} NothingIn()
    ensures forall x {:trigger In([], x)} :: !In([], x)
  {
  }

  /** With distinct rows the change set leads from the old to the new ones exactly if the
      rows that stay are in the old order. */
  lemma {:induction false} RightExactlyInOrder(prev: seq<Option<nat>>, next: seq<nat>, del: seq<Range>, ins: seq<Range>,
                                               p: seq<nat>, q: seq<nat>)
    requires Separated(del) && Separated(ins) && NoDup(next) && |p| == |q| && Increasing(q, |next|)
    requires Rest(del, |prev|, p) && Rest(ins, |next|, q)
    requires forall k :: 0 <= k < |p| ==> p[k] < |prev| && prev[p[k]] == Some(next[q[k]])
    ensures Survivors(prev, del) == Survivors(Shown(next), ins) <==> Increasing(p, |prev|)
  {
    hide In, Rank, Survivors, Account;
    GapsKeepOrder(del);
    GapsKeepOrder(ins);
    if Increasing(p, |prev|) {
      NothingIn();
      AccountHolds(prev, next, del, ins, p, q, [], []);
      SameRemainder(prev, Shown(next), Account(|next|, p, q, [], []), del, ins);
    }
    if Survivors(prev, del) == Survivors(Shown(next), ins) {
      SurvivorsDistinct(Shown(next), ins);
      RestRank(ins, |next|, q);
      forall k | 0 <= k < |p| ensures Rank(del, p[k]) == k {
        SurvivorAt(prev, del, p[k]);
        SurvivorAt(Shown(next), ins, q[k]);
      }
      forall k, l | 0 <= k < l < |p| ensures p[k] < p[l] {
        if p[l] <= p[k] {
          RankMonotone(del, p[l], p[k]);
        }
      }
    }
  }

  // ---------- rows out of place, with a sort ----------

  /** The rows of the old result that are in the new one, with their old places. */
  method PrevRows(rows: seq<RowInfo>) returns (a: seq<Row>)
    requires forall r :: r in rows ==> r.prev.Some?
    ensures |a| == |rows| && forall k :: 0 <= k < |a| ==> a[k] == Row(rows[k].index, OldPlaces(rows)[k])
  {
    a := [];
    var i := 0;
    while i < |rows|
      invariant i <= |rows| && |a| == i
      invariant forall k :: 0 <= k < i ==> a[k] == Row(rows[k].index, OldPlaces(rows)[k])
    {
      assert rows[i] in rows;
      a := a + [Row(rows[i].index, rows[i].prev.value)];
      i := i + 1;
    }
  }

  method NextRows(rows: seq<RowInfo>) returns (b: seq<Row>)
    ensures |b| == |rows| && forall k :: 0 <= k < |b| ==> b[k] == Row(rows[k].index, k)
  {
    b := [];
    var i := 0;
    while i < |rows|
      invariant i <= |rows| && |b| == i && forall k :: 0 <= k < i ==> b[k] == Row(rows[k].index, k)
    {
      b := b + [Row(rows[i].index, i)];
      i := i + 1;
    }
  }

  ghost function RowIndexes(rows: seq<RowInfo>): (v: seq<nat>)
    ensures |v| == |rows| && forall k :: 0 <= k < |v| ==> v[k] == rows[k].index
  {
    seq(|rows|, k requires 0 <= k < |rows| => rows[k].index)
  }

  ghost function RowPlaces(a: seq<Row>): (s: seq<nat>)
    ensures |s| == |a| && forall k :: 0 <= k < |s| ==> s[k] == a[k].place
  {
    seq(|a|, k requires 0 <= k < |a| => a[k].place)
  }

  /** The first `i` places have been reported, but for those with the numbers `stay`. */
  ghost predicate Reported(was: seq<Range>, now: seq<Range>, places: seq<nat>, i: nat, stay: seq<nat>)
    requires i <= |places|
  {
    forall x {:trigger In(now, x)} :: In(now, x) <==> In(was, x) || exists l :: 0 <= l < i && l !in stay && places[l] == x
  }

  /** The numbers of rows that stay, in both lists. */
  ghost predicate Matching(u: seq<nat>, v: seq<nat>, ps: seq<nat>, qs: seq<nat>, i: nat, j: nat)
    requires i <= |u| && j <= |v|
  {
    && Increasing(ps, i) && Increasing(qs, j) && |ps| == |qs|
    && forall k :: 0 <= k < |ps| ==> u[ps[k]] == v[qs[k]]
  }

  /** `for (; i < end; ++i) set.add(places[i])`. */
  method AddPlaces(target: IndexSet, places: seq<nat>, from: nat, end: nat, ghost was: seq<Range>, ghost stay: seq<nat>)
    requires target.Valid() && from <= end <= |places| && Increasing(stay, from)
    requires Reported(was, target.Rs(), places, from, stay)
    modifies target.vec
    ensures target.Valid() && Reported(was, target.Rs(), places, end, stay)
  {
    hide Separated, ChunksOk, In, Reported, AddSpec;
    var i := from;
    while i < end
      invariant from <= i <= end && target.Valid() && Reported(was, target.Rs(), places, i, stay)
    {
      ghost var now := target.Rs();
      target.Add(places[i]);
      ReportOne(was, now, target.Rs(), places, i, stay);
      i := i + 1;
    }
  }

  lemma {:induction false} ReportOne(was: seq<Range>, now: seq<Range>, now': seq<Range>, places: seq<nat>, i: nat, stay: seq<nat>)
    requires i < |places| && Reported(was, now, places, i, stay) && AddSpec(now, now', places[i])
    requires forall k :: 0 <= k < |stay| ==> stay[k] < i
    ensures Reported(was, now', places, i + 1, stay)
  {
  }

  lemma {:induction false} ReportBlock(was: seq<Range>, now: seq<Range>, places: seq<nat>, i: nat, n: nat, stay: seq<nat>)
    requires i + n <= |places| && Reported(was, now, places, i, stay)
    ensures Reported(was, now, places, i + n, stay + Numbers(i, n))
  {
    var stay' := stay + Numbers(i, n);
    forall l | 0 <= l < i + n ensures l !in stay' <==> l < i && l !in stay {
      if l >= i {
        assert Numbers(i, n)[l - i] == l;
      }
    }
    forall x {:trigger In(now, x)} ensures In(now, x) <==> In(was, x) || exists l :: 0 <= l < i + n && l !in stay' && places[l] == x {
      if l :| 0 <= l < i && l !in stay && places[l] == x {
        assert l < i + n && l !in stay';
      }
    }
  }

  lemma {:induction false} MatchBlock(u: seq<nat>, v: seq<nat>, ps: seq<nat>, qs: seq<nat>, i0: nat, j0: nat, i: nat, j: nat, n: nat)
    requires i0 <= i && j0 <= j && i0 <= |u| && j0 <= |v| && Matching(u, v, ps, qs, i0, j0) && Same(u, v, i, j, n)
    ensures Matching(u, v, ps + Numbers(i, n), qs + Numbers(j, n), i + n, j + n)
  {
  }

  /** The last loop of `calculate_moves_sorted`: rows between the blocks are deleted and
      inserted. */
  method Align(a: seq<Row>, rows: seq<RowInfo>, matches: seq<Match>, first: nat, deletions: IndexSet, insertions: IndexSet)
    returns (ghost ps: seq<nat>, ghost qs: seq<nat>)
    requires deletions.Valid() && insertions.Valid() && deletions.vec != insertions.vec
    requires first <= |a| && first <= |rows| && forall k :: 0 <= k < first ==> a[k].index == rows[k].index
    requires Aligned(Indexes(a), RowIndexes(rows), matches, Frame(first, |a|, first, |rows|))
    requires matches != [] && Ends(matches[|matches| - 1], |a|, |rows|)
    modifies deletions.vec, insertions.vec
    ensures deletions.Valid() && insertions.Valid()
    ensures Matching(Indexes(a), RowIndexes(rows), ps, qs, |a|, |rows|)
    ensures Reported(old(deletions.Rs()), deletions.Rs(), RowPlaces(a), |a|, ps)
    ensures Reported(old(insertions.Rs()), insertions.Rs(), Places(rows), |rows|, qs)
    ensures ps == Numbers(0, first) + InFirst(matches) && qs == Numbers(0, first) + InSecond(matches)
  {
    hide Separated, ChunksOk, In, Reported, Matching, Same, InFirst, InSecond;
    ghost var u, v, del, ins := Indexes(a), RowIndexes(rows), deletions.Rs(), insertions.Rs();
    var i: nat, j: nat := first, first;
    ps, qs := Numbers(0, first), Numbers(0, first);
    AlignStart(a, rows, first, del, ins);
    var places := PlacesOf(rows);
    var oldPlaces := OldPlacesOf(a);
    var k := 0;
    assert matches[0..] == matches;
    NoBlockYet(matches, ps);
    while k < |matches|
      invariant k <= |matches| && i <= |a| && j <= |rows| && deletions.Valid() && insertions.Valid()
      invariant ps == Numbers(0, first) + InFirst(matches[..k]) && qs == Numbers(0, first) + InSecond(matches[..k])
      invariant Aligned(u, v, matches[k..], Frame(i, |a|, j, |rows|))
      invariant k > 0 ==> i == matches[k - 1].i + matches[k - 1].size && j == matches[k - 1].j + matches[k - 1].size
      invariant Matching(u, v, ps, qs, i, j)
      invariant Reported(del, deletions.Rs(), RowPlaces(a), i, ps)
      invariant Reported(ins, insertions.Rs(), Places(rows), j, qs)
    {
      var m := matches[k];
      assert matches[k..][0] == m && matches[k..][1..] == matches[k + 1..];
      MatchingBounds(u, v, ps, qs, i, j);
      AddPlaces(deletions, oldPlaces, i, m.i, del, ps);
      AddPlaces(insertions, places, j, m.j, ins, qs);
      ReportBlock(del, deletions.Rs(), RowPlaces(a), m.i, m.size, ps);
      ReportBlock(ins, insertions.Rs(), Places(rows), m.j, m.size, qs);
      MatchBlock(u, v, ps, qs, i, j, m.i, m.j, m.size);
      NextBlock(matches, k, Numbers(0, first));
      i, j := m.i + m.size, m.j + m.size;
      ps, qs := ps + Numbers(m.i, m.size), qs + Numbers(m.j, m.size);
      k := k + 1;
    }
    assert matches[..k] == matches;
  }

  lemma {:induction false} NoBlockYet(ms: seq<Match>, ps: seq<nat>)
    ensures ps == ps + InFirst(ms[..0]) && ps == ps + InSecond(ms[..0])
  {
  }

  lemma {:induction false} NextBlock(ms: seq<Match>, k: nat, start: seq<nat>)
    requires k < |ms|
    ensures start + InFirst(ms[..k]) + Numbers(ms[k].i, ms[k].size) == start + InFirst(ms[..k + 1])
    ensures start + InSecond(ms[..k]) + Numbers(ms[k].j, ms[k].size) == start + InSecond(ms[..k + 1])
  {
    assert ms[..k + 1][..k] == ms[..k];
    Regroup(start, InFirst(ms[..k]), Numbers(ms[k].i, ms[k].size));
    Regroup(start, InSecond(ms[..k]), Numbers(ms[k].j, ms[k].size));
  }

  ghost predicate Ends(m: Match, i: nat, j: nat) {
    m.i == i && m.j == j && m.size == 0
  }

  lemma {:induction false} MatchingBounds(u: seq<nat>, v: seq<nat>, ps: seq<nat>, qs: seq<nat>, i: nat, j: nat)
    requires i <= |u| && j <= |v| && Matching(u, v, ps, qs, i, j)
    ensures Increasing(ps, i) && Increasing(qs, j)
  {
  }

  lemma {:induction false} AlignStart(a: seq<Row>, rows: seq<RowInfo>, first: nat, del: seq<Range>, ins: seq<Range>)
    requires first <= |a| && first <= |rows| && forall k :: 0 <= k < first ==> a[k].index == rows[k].index
    ensures Matching(Indexes(a), RowIndexes(rows), Numbers(0, first), Numbers(0, first), first, first)
    ensures Reported(del, del, RowPlaces(a), first, Numbers(0, first))
    ensures Reported(ins, ins, Places(rows), first, Numbers(0, first))
  {
    forall l | 0 <= l < first ensures l in Numbers(0, first) {
      assert Numbers(0, first)[l] == l;
    }
  }

  method PlacesOf(rows: seq<RowInfo>) returns (s: seq<nat>)
    ensures s == Places(rows)
  {
    s := seq(|rows|, k requires 0 <= k < |rows| => rows[k].place);
  }

  method OldPlacesOf(a: seq<Row>) returns (s: seq<nat>)
    ensures s == RowPlaces(a)
  {
    s := seq(|a|, k requires 0 <= k < |a| => a[k].place);
  }

  lemma {:induction false} PrevApart(prev: seq<Option<nat>>, next: seq<nat>, rows: seq<RowInfo>, a: seq<Row>)
    requires Paired(prev, next, rows) && |a| == |rows|
    requires forall k :: 0 <= k < |a| ==> a[k] == Row(rows[k].index, OldPlaces(rows)[k])
    ensures Apart(a, (r: Row) => r.place)
  {
  }

  /** The old list by place: the places of the paired rows, each once. */
  ghost predicate OldList(rows: seq<RowInfo>, a: seq<Row>) {
    && |a| == |rows|
    && (forall k, l :: 0 <= k < l < |a| ==> a[k].place < a[l].place)
    && (forall r :: r in a ==> exists s :: s in rows && s.prev == Some(r.place) && s.index == r.index)
    && (forall s :: s in rows ==> s.prev.Some? && Row(s.index, s.prev.value) in a)
  }

  lemma {:induction false} OldListSorted(rows: seq<RowInfo>, a0: seq<Row>, a: seq<Row>)
    requires |a0| == |rows| && forall s :: s in rows ==> s.prev.Some?
    requires forall k :: 0 <= k < |a0| ==> a0[k] == Row(rows[k].index, OldPlaces(rows)[k])
    requires |a| == |a0| && SameElements(a0, a) && Apart(a, (r: Row) => r.place)
    requires InOrder(a, (r: Row) => r.place, (r: Row) => r.index)
    ensures OldList(rows, a)
  {
  }

  lemma {:induction false} NewApart(rows: seq<RowInfo>, b: seq<Row>)
    requires |b| == |rows| && forall k :: 0 <= k < |b| ==> b[k] == Row(rows[k].index, k)
    ensures Apart(b, (r: Row) => r.place)
  {
  }

  lemma {:induction false} NewListSorted(rows: seq<RowInfo>, b0: seq<Row>, b: seq<Row>)
    requires |b0| == |rows| && forall k :: 0 <= k < |b0| ==> b0[k] == Row(rows[k].index, k)
    requires |b| == |b0| && SameElements(b0, b) && Apart(b, (r: Row) => r.place)
    requires InOrder(b, (r: Row) => r.index, (r: Row) => r.place)
    ensures ByIndex(b, RowIndexes(rows))
  {
  }

  lemma {:induction false} OldInNew(rows: seq<RowInfo>, a: seq<Row>)
    requires OldList(rows, a)
    ensures forall r :: r in a ==> r.index in RowIndexes(rows)
  {
  }

  lemma {:induction false} EndsAligned(u: seq<nat>, v: seq<nat>, ms: seq<Match>, f: Frame)
    requires Aligned(u, v, ms, f) && f.begin1 <= f.end1 == |u| && f.begin2 <= f.end2 == |v|
    ensures Aligned(u, v, ms + [Match(|u|, |v|, 0, Some(0))], f)
  {
    var m := Match(|u|, |v|, 0, Some(0));
    assert Matches.Left(f, m) == f;
    AlignedJoin(u, v, ms, m, [], f);
    assert ms + [m] + [] == ms + [m];
  }

  /** Deletions, together with the rows removed, and insertions leave out just the rows
      that stay. */
  ghost predicate Stay(prev: seq<Option<nat>>, next: seq<nat>, del: seq<Range>, removed: seq<Range>, ins: seq<Range>,
                       p: seq<nat>, q: seq<nat>) {
    && Increasing(p, |prev|) && Increasing(q, |next|) && |p| == |q|
    && (forall k :: 0 <= k < |p| ==> prev[p[k]] == Some(next[q[k]]))
    && (forall x: int {:trigger In(del, x)} {:trigger In(removed, x)} :: In(del, x) || In(removed, x) <==> 0 <= x < |prev| && x !in p)
    && Rest(ins, |next|, q)
  }

  lemma {:induction false} AlignedStay(prev: seq<Option<nat>>, next: seq<nat>, rows: seq<RowInfo>, a: seq<Row>,
                                       vanished: seq<Range>, removed: seq<Range>, came: seq<Range>, del: seq<Range>,
                                       ins: seq<Range>, ps: seq<nat>, qs: seq<nat>)
    requires Paired(prev, next, rows) && Unpaired(prev, next, rows, removed, came) && ByPlaces(rows) && OldList(rows, a)
    requires Vanished(prev, |prev|, vanished) && Matching(Indexes(a), RowIndexes(rows), ps, qs, |a|, |rows|)
    requires Reported(vanished, del, RowPlaces(a), |a|, ps) && Reported(came, ins, Places(rows), |rows|, qs)
    ensures |ps| == |qs| && forall k :: 0 <= k < |ps| ==> ps[k] < |a| && qs[k] < |rows|
    ensures Stay(prev, next, del, removed, ins, Selected(RowPlaces(a), ps), Selected(Places(rows), qs))
  {
    hide In, Present, Paired, Unpaired, Reported;
    var p, q := Selected(RowPlaces(a), ps), Selected(Places(rows), qs);
    PairedPlaces(prev, next, rows);
    forall k | 0 <= k < |p| ensures p[k] < |prev| && q[k] < |next| && prev[p[k]] == Some(next[q[k]]) {
      assert a[ps[k]] in a && rows[qs[k]] in rows;
      assert Indexes(a)[ps[k]] == RowIndexes(rows)[qs[k]];
    }
    forall x: int ensures In(del, x) || In(removed, x) <==> 0 <= x < |prev| && x !in p {
      DeletedOrStays(prev, next, rows, a, vanished, removed, came, del, ps, x);
    }
    forall x ensures In(ins, x) <==> 0 <= x < |next| && x !in q {
      InsertedOrStays(prev, next, rows, removed, came, ins, qs, x);
    }
  }

  lemma {:induction false} PairedPlaces(prev: seq<Option<nat>>, next: seq<nat>, rows: seq<RowInfo>)
    requires Paired(prev, next, rows)
    ensures forall r :: r in rows ==> r.place < |next| && next[r.place] == r.index && r.prev.Some?
    ensures forall r :: r in rows ==> r.prev.value < |prev| && prev[r.prev.value] == Some(r.index)
  {
  }

  lemma {:induction false} DeletedOrStays(prev: seq<Option<nat>>, next: seq<nat>, rows: seq<RowInfo>, a: seq<Row>,
                                          vanished: seq<Range>, removed: seq<Range>, came: seq<Range>, del: seq<Range>,
                                          ps: seq<nat>, x: int)
    requires Paired(prev, next, rows) && Unpaired(prev, next, rows, removed, came) && OldList(rows, a)
    requires Vanished(prev, |prev|, vanished) && Increasing(ps, |a|) && Reported(vanished, del, RowPlaces(a), |a|, ps)
    ensures In(del, x) || In(removed, x) <==> 0 <= x < |prev| && x !in Selected(RowPlaces(a), ps)
  {
  }

  lemma {:induction false} InsertedOrStays(prev: seq<Option<nat>>, next: seq<nat>, rows: seq<RowInfo>, removed: seq<Range>,
                                           came: seq<Range>, ins: seq<Range>, qs: seq<nat>, x: int)
    requires Paired(prev, next, rows) && Unpaired(prev, next, rows, removed, came) && ByPlaces(rows)
    requires Increasing(qs, |rows|) && Reported(came, ins, Places(rows), |rows|, qs)
    ensures In(ins, x) <==> 0 <= x < |next| && x !in Selected(Places(rows), qs)
  {
  }

  /** The rows of both lists from the first difference on are compared. */
  method Compare(rows: seq<RowInfo>, a: seq<Row>, first: nat, modifications: IndexSet, deletions: IndexSet,
                 insertions: IndexSet) returns (ghost ps: seq<nat>, ghost qs: seq<nat>)
    requires modifications.Valid() && deletions.Valid() && insertions.Valid()
    requires deletions.vec != insertions.vec && modifications.vec != deletions.vec && modifications.vec != insertions.vec
    requires OldList(rows, a) && first < |a| == |rows| && forall k :: 0 <= k < first ==> a[k].index == rows[k].index
    requires a[first].index != rows[first].index
    modifies deletions.vec, insertions.vec
    ensures deletions.Valid() && insertions.Valid()
    ensures Matching(Indexes(a), RowIndexes(rows), ps, qs, |a|, |rows|)
    ensures Reported(old(deletions.Rs()), deletions.Rs(), RowPlaces(a), |a|, ps)
    ensures Reported(old(insertions.Rs()), insertions.Rs(), Places(rows), |rows|, qs)
    ensures ps == StayFirst(Indexes(a), RowIndexes(rows), modifications.vec.data)
    ensures qs == StaySecond(Indexes(a), RowIndexes(rows), modifications.vec.data)
  {
    hide Separated, ChunksOk, In, InOrder, Apart, SameElements, Matching, Reported, Aligned, Blocks, ByIndex, OldList;
    hide InFirst, InSecond, CommonStart;
    ghost var u, v, f := Indexes(a), RowIndexes(rows), Frame(first, |a|, first, |rows|);
    OldListLength(rows, a);
    var byPlace := NextRows(rows);
    NewApart(rows, byPlace);
    var b := Sort(byPlace, (r: Row) => r.index, (r: Row) => r.place, (r: Row) => r.place);
    NewListSorted(rows, byPlace, b);
    OldInNew(rows, a);
    var calculator := new LongestCommonSubsequenceCalculator(a, b, first, modifications, v);
    BlocksAligned(u, v, modifications.vec.data, f);
    EndsAligned(u, v, Blocks(u, v, modifications.vec.data, f), f);
    ps, qs := Align(a, rows, calculator.longestMatches, first, deletions, insertions);
    StartIs(u, v, first);
    WithoutEnd(Blocks(u, v, modifications.vec.data, f), |a|, |rows|);
  }

  /** The block of no rows at the end adds none. */
  lemma {:induction false} WithoutEnd(ms: seq<Match>, i: nat, j: nat)
    ensures InFirst(ms + [Match(i, j, 0, Some(0))]) == InFirst(ms) && InSecond(ms + [Match(i, j, 0, Some(0))]) == InSecond(ms)
  {
    assert (ms + [Match(i, j, 0, Some(0))])[..|ms|] == ms;
  }

  lemma {:induction false} OldListLength(rows: seq<RowInfo>, a: seq<Row>)
    requires OldList(rows, a)
    ensures |a| == |rows|
  {
  }

  method OldOrder(ghost prev: seq<Option<nat>>, ghost next: seq<nat>, rows: seq<RowInfo>) returns (a: seq<Row>)
    requires Paired(prev, next, rows)
    ensures OldList(rows, a)
  {
    hide Paired, InOrder, Apart, SameElements, OldList;
    PairedPlaces(prev, next, rows);
    var inOrder := PrevRows(rows);
    PrevApart(prev, next, rows, inOrder);
    a := Sort(inOrder, (r: Row) => r.place, (r: Row) => r.index, (r: Row) => r.place);
    OldListSorted(rows, inOrder, a);
  }

  /** `calculate_moves_sorted`. */
  method CalculateMovesSorted(ghost prev: seq<Option<nat>>, ghost next: seq<nat>, rows: seq<RowInfo>,
                              ghost removed: seq<Range>, modifications: IndexSet, deletions: IndexSet, insertions: IndexSet)
    returns (ghost p: seq<nat>, ghost q: seq<nat>, ghost old_: seq<Row>)
    requires modifications.Valid() && deletions.Valid() && insertions.Valid()
    requires deletions.vec != insertions.vec && modifications.vec != deletions.vec && modifications.vec != insertions.vec
    requires Paired(prev, next, rows) && Unpaired(prev, next, rows, removed, insertions.Rs()) && ByPlaces(rows)
    requires Vanished(prev, |prev|, deletions.Rs())
    modifies deletions.vec, insertions.vec
    ensures deletions.Valid() && insertions.Valid()
    ensures Stay(prev, next, deletions.Rs(), removed, insertions.Rs(), p, q)
    ensures OldList(rows, old_)
    ensures p == Selected(RowPlaces(old_), StayFirst(Indexes(old_), RowIndexes(rows), modifications.vec.data))
    ensures q == Selected(Places(rows), StaySecond(Indexes(old_), RowIndexes(rows), modifications.vec.data))
    ensures Distinct(prev) && NoDup(next) ==>
      p == StayingOld(prev, next, modifications.vec.data) && q == StayingNew(prev, next, modifications.vec.data)
  {
    hide Separated, ChunksOk, Paired, Unpaired, ByPlaces, Vanished, In, InOrder, Apart, SameElements, Matching, Reported, Stay;
    hide OldList;
    ghost var vanished, came := deletions.Rs(), insertions.Rs();
    var a := OldOrder(prev, next, rows);
    OldListLength(rows, a);
    var first := 0;
    while first < |a| && a[first].index == rows[first].index
      invariant first <= |a| && forall k :: 0 <= k < first ==> a[k].index == rows[k].index
    {
      first := first + 1;
    }
    ghost var ps, qs;
    if first == |a| {
      ps, qs := Numbers(0, first), Numbers(0, first);
      AlignStart(a, rows, first, vanished, came);
      StartIs(Indexes(a), RowIndexes(rows), first);
      AllCommon(Indexes(a), RowIndexes(rows), modifications.vec.data);
    } else {
      ps, qs := Compare(rows, a, first, modifications, deletions, insertions);
    }
    AlignedStay(prev, next, rows, a, vanished, removed, came, deletions.Rs(), insertions.Rs(), ps, qs);
    p, q, old_ := Selected(RowPlaces(a), ps), Selected(Places(rows), qs), a;
    if Distinct(prev) && NoDup(next) {
      OrdersAre(prev, next, rows, a, removed, came);
    }
  }

  /** The old places of the rows that are in the new result too, and the new places of
      those that were in the old one. */
  ghost function SharedOld(prev: seq<Option<nat>>, next: seq<nat>, n: nat): (s: seq<nat>)
    requires n <= |prev|
    ensures Increasing(s, n) && forall x: nat :: x in s <==> x < n && prev[x].Some? && prev[x].value in next
  {
    if n == 0 then []
    else SharedOld(prev, next, n - 1) + if prev[n - 1].Some? && prev[n - 1].value in next then [n - 1] else []
  }

  ghost function SharedNew(prev: seq<Option<nat>>, next: seq<nat>, n: nat): (s: seq<nat>)
    requires n <= |next|
    ensures Increasing(s, n) && forall y: nat :: y in s <==> y < n && Some(next[y]) in prev
  {
    if n == 0 then []
    else SharedNew(prev, next, n - 1) + if Some(next[n - 1]) in prev then [n - 1] else []
  }

  /** Those rows in the old and in the new order. */
  ghost function OldOrderOf(prev: seq<Option<nat>>, next: seq<nat>): (u: seq<nat>)
    ensures |u| == |SharedOld(prev, next, |prev|)|
  {
    var s := SharedOld(prev, next, |prev|);
    seq(|s|, k requires 0 <= k < |s| => assert s[k] in s; prev[s[k]].value)
  }

  ghost function NewOrderOf(prev: seq<Option<nat>>, next: seq<nat>): (v: seq<nat>)
    ensures |v| == |SharedNew(prev, next, |next|)|
  {
    var s := SharedNew(prev, next, |next|);
    seq(|s|, k requires 0 <= k < |s| => assert s[k] in s; next[s[k]])
  }

  /** The old and the new places of the rows that stay: of the common beginning of the two
      orders and of the common blocks found after it. */
  ghost function StayingOld(prev: seq<Option<nat>>, next: seq<nat>, d: seq<Chunk>): seq<nat> {
    Selected(SharedOld(prev, next, |prev|), StayFirst(OldOrderOf(prev, next), NewOrderOf(prev, next), d))
  }

  ghost function StayingNew(prev: seq<Option<nat>>, next: seq<nat>, d: seq<Chunk>): seq<nat> {
    Selected(SharedNew(prev, next, |next|), StaySecond(OldOrderOf(prev, next), NewOrderOf(prev, next), d))
  }

  lemma {:induction false} OrdersAre(prev: seq<Option<nat>>, next: seq<nat>, rows: seq<RowInfo>, a: seq<Row>,
                                     removed: seq<Range>, came: seq<Range>)
    requires Paired(prev, next, rows) && Unpaired(prev, next, rows, removed, came) && ByPlaces(rows) && OldList(rows, a)
    requires Distinct(prev) && NoDup(next)
    ensures RowPlaces(a) == SharedOld(prev, next, |prev|) && Indexes(a) == OldOrderOf(prev, next)
    ensures Places(rows) == SharedNew(prev, next, |next|) && RowIndexes(rows) == NewOrderOf(prev, next)
  {
    hide Paired, Unpaired, Distinct, NoDup, In, SharedOld, SharedNew;
    PairedPlaces(prev, next, rows);
    OldPlacesAre(prev, next, rows, a, removed, came);
    NewPlacesAre(prev, next, rows, removed, came);
    SameIncreasing(RowPlaces(a), SharedOld(prev, next, |prev|), |prev|);
    SameIncreasing(Places(rows), SharedNew(prev, next, |next|), |next|);
    forall k | 0 <= k < |a| ensures Indexes(a)[k] == OldOrderOf(prev, next)[k] {
      assert a[k] in a;
      var r :| r in rows && r.prev == Some(a[k].place) && r.index == a[k].index;
    }
    forall k | 0 <= k < |rows| ensures RowIndexes(rows)[k] == NewOrderOf(prev, next)[k] {
      assert rows[k] in rows;
    }
  }

  lemma {:induction false} OldPlacesAre(prev: seq<Option<nat>>, next: seq<nat>, rows: seq<RowInfo>, a: seq<Row>,
                                        removed: seq<Range>, came: seq<Range>)
    requires Paired(prev, next, rows) && Unpaired(prev, next, rows, removed, came) && OldList(rows, a)
    requires Distinct(prev) && NoDup(next)
    ensures Increasing(RowPlaces(a), |prev|)
    ensures forall x :: x in RowPlaces(a) <==> x in SharedOld(prev, next, |prev|)
  {
    hide Paired, Unpaired, Distinct, NoDup, In, SharedOld;
    PairedPlaces(prev, next, rows);
    forall k | 0 <= k < |a| ensures a[k].place < |prev| && a[k].place in SharedOld(prev, next, |prev|) {
      assert a[k] in a;
      var r :| r in rows && r.prev == Some(a[k].place) && r.index == a[k].index;
      assert next[r.place] in next;
    }
    forall x | x in SharedOld(prev, next, |prev|) ensures x in RowPlaces(a) {
      var y :| 0 <= y < |next| && next[y] == prev[x].value;
      var k := RowOf(prev, next, rows, removed, came, x, y);
      assert rows[k] in rows;
      assert Row(rows[k].index, x) in a;
      var l :| 0 <= l < |a| && a[l] == Row(rows[k].index, x);
      assert RowPlaces(a)[l] == x;
    }
  }

  lemma {:induction false} NewPlacesAre(prev: seq<Option<nat>>, next: seq<nat>, rows: seq<RowInfo>, removed: seq<Range>, came: seq<Range>)
    requires Paired(prev, next, rows) && Unpaired(prev, next, rows, removed, came) && ByPlaces(rows)
    requires Distinct(prev) && NoDup(next)
    ensures Increasing(Places(rows), |next|)
    ensures forall y :: y in Places(rows) <==> y in SharedNew(prev, next, |next|)
  {
    hide Paired, Unpaired, Distinct, NoDup, In, SharedNew;
    PairedPlaces(prev, next, rows);
    forall k | 0 <= k < |rows| ensures rows[k].place < |next| && rows[k].place in SharedNew(prev, next, |next|) {
      assert rows[k] in rows;
      assert prev[rows[k].prev.value] in prev;
    }
    forall y | y in SharedNew(prev, next, |next|) ensures y in Places(rows) {
      var x :| 0 <= x < |prev| && prev[x] == Some(next[y]);
      var k := RowOf(prev, next, rows, removed, came, x, y);
      assert Places(rows)[k] == y;
    }
  }

  // ---------- what a sorted comparison saves ----------

  /** What is reported says of two sorted results: at least as many rows stay as any common
      block of the two orders has; and a row in both that is deleted and inserted again,
      between the same rows that stay, was not searched for. */
  ghost predicate Economical(prev: seq<Option<nat>>, next: seq<nat>, d: seq<Chunk>, del: seq<Range>, ins: seq<Range>) {
    && (forall i: nat, j: nat, n: nat {:trigger Same(OldOrderOf(prev, next), NewOrderOf(prev, next), i, j, n)} ::
          Same(OldOrderOf(prev, next), NewOrderOf(prev, next), i, j, n) ==> n <= Rank(del, |prev|))
    && (forall x: nat, y: nat {:trigger In(del, x), In(ins, y)} ::
          x < |prev| && y < |next| && In(del, x) && In(ins, y) && prev[x] == Some(next[y]) && Rank(del, x) == Rank(ins, y) ==>
            Unsearched(OldOrderOf(prev, next), NewOrderOf(prev, next), d, Rank(del, x)))
  }

  /** The gap after `k` rows that stay is behind a block whose end in the old order is not
      before the end of the gap in the new one. */
  ghost predicate Unsearched(u: seq<nat>, v: seq<nat>, d: seq<Chunk>, k: int) {
    CommonStart(u, v) < k <= |StayFirst(u, v, d)| &&
    StayFirst(u, v, d)[k - 1] + 1 >= if k < |StaySecond(u, v, d)| then StaySecond(u, v, d)[k] else |v|
  }

  lemma {:induction false} StayersEconomical(prev: seq<Option<nat>>, next: seq<nat>, d: seq<Chunk>, del: seq<Range>, ins: seq<Range>)
    requires Ordered(del) && Ordered(ins) && Distinct(prev) && NoDup(next)
    requires Rest(del, |prev|, StayingOld(prev, next, d)) && Rest(ins, |next|, StayingNew(prev, next, d))
    ensures Economical(prev, next, d, del, ins)
  {
    hide In, Rank, Distinct, NoDup, StayFirst, StaySecond, SharedOld, SharedNew, Rest, Same, OldOrderOf, NewOrderOf, Unsearched, InGap;
    var u, v, p, q := OldOrderOf(prev, next), NewOrderOf(prev, next), StayingOld(prev, next, d), StayingNew(prev, next, d);
    StayingIncrease(prev, next, d);
    RestRank(del, |prev|, p);
    OrdersDistinct(prev, next);
    forall i: nat, j: nat, n: nat {:trigger Same(u, v, i, j, n)} | Same(u, v, i, j, n) ensures n <= Rank(del, |prev|) {
      LongestStays(u, v, d, i, j, n);
    }
    forall x: nat, y: nat {:trigger In(del, x), In(ins, y)}
      | x < |prev| && y < |next| && In(del, x) && In(ins, y) && prev[x] == Some(next[y]) && Rank(del, x) == Rank(ins, y)
      ensures Unsearched(u, v, d, Rank(del, x))
    {
      var i, j, k := NumbersOf(prev, next, d, del, ins, x, y);
      UnmatchedUnsearched(u, v, d, i, j, k);
      GapIsUnsearched(u, v, d, k);
    }
  }

  lemma {:induction false} GapIsUnsearched(u: seq<nat>, v: seq<nat>, d: seq<Chunk>, k: nat)
    requires CommonStart(u, v) < k <= |StayFirst(u, v, d)|
    requires StayFirst(u, v, d)[k - 1] + 1 >= if k < |StaySecond(u, v, d)| then StaySecond(u, v, d)[k] else |v|
    ensures Unsearched(u, v, d, k)
  {
  }

  lemma {:induction false} SelectedIncreasing(s: seq<nat>, ks: seq<nat>, n: nat)
    requires Increasing(s, n) && Increasing(ks, |s|)
    ensures Increasing(Selected(s, ks), n)
  {
  }

  lemma {:induction false} StayingIncrease(prev: seq<Option<nat>>, next: seq<nat>, d: seq<Chunk>)
    ensures Increasing(StayingOld(prev, next, d), |prev|) && Increasing(StayingNew(prev, next, d), |next|)
    ensures |StayingOld(prev, next, d)| == |StayFirst(OldOrderOf(prev, next), NewOrderOf(prev, next), d)|
  {
    hide StayFirst, StaySecond, SharedOld, SharedNew, Increasing;
    var u, v := OldOrderOf(prev, next), NewOrderOf(prev, next);
    SelectedIncreasing(SharedOld(prev, next, |prev|), StayFirst(u, v, d), |prev|);
    SelectedIncreasing(SharedNew(prev, next, |next|), StaySecond(u, v, d), |next|);
  }

  lemma {:induction false} OrdersDistinct(prev: seq<Option<nat>>, next: seq<nat>)
    requires Distinct(prev) && NoDup(next)
    ensures NoDup(OldOrderOf(prev, next)) && NoDup(NewOrderOf(prev, next))
  {
    hide SharedOld, SharedNew;
    var s, t := SharedOld(prev, next, |prev|), SharedNew(prev, next, |next|);
    forall k, l | 0 <= k < l < |s| ensures OldOrderOf(prev, next)[k] != OldOrderOf(prev, next)[l] {
      assert s[k] in s && s[l] in s && s[k] < s[l];
    }
    forall k, l | 0 <= k < l < |t| ensures NewOrderOf(prev, next)[k] != NewOrderOf(prev, next)[l] {
      assert t[k] in t && t[l] in t && t[k] < t[l];
    }
  }

  /** The row's numbers among the rows in both results, and the gap they are in. */
  lemma {:induction false} NumbersOf(prev: seq<Option<nat>>, next: seq<nat>, d: seq<Chunk>, del: seq<Range>, ins: seq<Range>, x: nat, y: nat)
    returns (i: nat, j: nat, k: nat)
    requires Ordered(del) && Ordered(ins)
    requires Rest(del, |prev|, StayingOld(prev, next, d)) && Rest(ins, |next|, StayingNew(prev, next, d))
    requires x < |prev| && y < |next| && In(del, x) && In(ins, y) && prev[x] == Some(next[y]) && Rank(del, x) == Rank(ins, y)
    ensures var u, v := OldOrderOf(prev, next), NewOrderOf(prev, next);
      && i < |u| && j < |v| && u[i] == v[j] && k == Rank(del, x) && InGap(StayFirst(u, v, d), StaySecond(u, v, d), i, j, k)
  {
    hide In, Rank, StayFirst, StaySecond, SharedOld, SharedNew;
    var s, t, u, v := SharedOld(prev, next, |prev|), SharedNew(prev, next, |next|), OldOrderOf(prev, next), NewOrderOf(prev, next);
    var p, q := StayingOld(prev, next, d), StayingNew(prev, next, d);
    StayingIncrease(prev, next, d);
    assert next[y] in next && prev[x] in prev;
    assert x in s && y in t;
    i :| 0 <= i < |s| && s[i] == x;
    j :| 0 <= j < |t| && t[j] == y;
    var kx := GapOf(del, |prev|, p, x);
    var ky := GapOf(ins, |next|, q, y);
    k := kx;
    NumbersInGap(s, t, StayFirst(u, v, d), StaySecond(u, v, d), i, j, k);
  }

  lemma {:induction false} GapOf(rs: seq<Range>, n: nat, s: seq<nat>, x: nat) returns (k: nat)
    requires Ordered(rs) && Increasing(s, n) && Rest(rs, n, s) && x < n && In(rs, x)
    ensures k <= |s| && k == Rank(rs, x)
    ensures (forall l :: 0 <= l < k ==> s[l] < x) && forall l :: k <= l < |s| ==> s[l] > x
  {
    hide In, Rank;
    k := 0;
    while k < |s| && s[k] < x
      invariant k <= |s| && forall l :: 0 <= l < k ==> s[l] < x
    {
      k := k + 1;
    }
    forall l | k <= l < |s| ensures s[l] > x {
      assert s[l] in s;
    }
    RestRankAt(rs, n, s, x, k);
  }

  lemma {:induction false} NumbersInGap(s: seq<nat>, t: seq<nat>, ps: seq<nat>, qs: seq<nat>, i: nat, j: nat, k: nat)
    requires Increasing(ps, |s|) && Increasing(qs, |t|) && |ps| == |qs| && i < |s| && j < |t| && k <= |ps|
    requires (forall a, b :: 0 <= a < b < |s| ==> s[a] < s[b]) && (forall a, b :: 0 <= a < b < |t| ==> t[a] < t[b])
    requires (forall l :: 0 <= l < k ==> Selected(s, ps)[l] < s[i]) && (forall l :: k <= l < |ps| ==> Selected(s, ps)[l] > s[i])
    requires (forall l :: 0 <= l < k ==> Selected(t, qs)[l] < t[j]) && (forall l :: k <= l < |qs| ==> Selected(t, qs)[l] > t[j])
    ensures InGap(ps, qs, i, j, k)
  {
    forall l | 0 <= l < |ps| ensures (l < k ==> ps[l] < i && qs[l] < j) && (k <= l ==> ps[l] > i && qs[l] > j) {
      assert Selected(s, ps)[l] == s[ps[l]] && Selected(t, qs)[l] == t[qs[l]];
    }
  }

  // ---------- everything together ----------

  /** Only candidates overtake other rows: of two rows in both results that changed their
      order, the one that is first now is a candidate. */
  ghost predicate OnlyCandidatesMove(prev: seq<Option<nat>>, next: seq<nat>, candidates: seq<Range>) {
    forall x, y, i, j {:trigger prev[x], prev[y], next[i], next[j]} ::
      0 <= x < y < |prev| && 0 <= i < j < |next| && prev[y] == Some(next[i]) && prev[x] == Some(next[j]) ==>
        In(candidates, next[i])
  }

  lemma {:induction false} CandidatesOverRows(prev: seq<Option<nat>>, next: seq<nat>, rows: seq<RowInfo>, candidates: seq<Range>)
    requires Paired(prev, next, rows) && ByPlaces(rows) && OnlyCandidatesMove(prev, next, candidates)
    ensures OthersStay(rows, candidates)
  {
    hide In, Present;
    forall i, j | 0 <= i < j < |rows| && rows[i].shifted > rows[j].shifted ensures In(candidates, rows[i].index) {
      assert rows[i] in rows && rows[j] in rows;
      ShiftedOrder(prev, next, rows, rows[j], rows[i]);
      assert prev[rows[i].prev.value] == Some(next[rows[i].place]) && prev[rows[j].prev.value] == Some(next[rows[j].place]);
    }
  }

  ghost predicate Marked(rows: seq<RowInfo>, k: nat, changed: nat -> bool, mods: seq<Range>)
    requires k <= |rows|
  {
    forall x {:trigger In(mods, x)} :: In(mods, x) <==> exists l :: 0 <= l < k && rows[l].place == x && changed(rows[l].index)
  }

  method MarkChanged(rows: seq<RowInfo>, changed: nat -> bool, modifications: IndexSet)
    requires modifications.Valid() && modifications.Rs() == []
    modifies modifications.vec
    ensures modifications.Valid() && Marked(rows, |rows|, changed, modifications.Rs())
  {
    hide Separated, ChunksOk;
    var k := 0;
    while k < |rows|
      invariant k <= |rows| && modifications.Valid() && Marked(rows, k, changed, modifications.Rs())
    {
      ghost var was := modifications.Rs();
      if changed(rows[k].index) {
        modifications.Add(rows[k].place);
      }
      MarkOne(rows, k, changed, was, modifications.Rs());
      k := k + 1;
    }
  }

  lemma {:induction false} MarkOne(rows: seq<RowInfo>, k: nat, changed: nat -> bool, was: seq<Range>, mods: seq<Range>)
    requires k < |rows| && Marked(rows, k, changed, was)
    requires if changed(rows[k].index) then AddSpec(was, mods, rows[k].place) else mods == was
    ensures Marked(rows, k + 1, changed, mods)
  {
  }

  ghost predicate Once(next: seq<nat>, x: nat) {
    x < |next| && forall y :: 0 <= y < |next| && next[y] == next[x] ==> y == x
  }

  /** Only rows that were there before and changed are reported modified, and all of
      those that occur once. */
  ghost predicate ModifiedRows(prev: seq<Option<nat>>, next: seq<nat>, changed: nat -> bool, mods: seq<Range>) {
    && (forall x {:trigger In(mods, x)} :: In(mods, x) ==> 0 <= x < |next| && Some(next[x]) in prev && changed(next[x]))
    && (forall x {:trigger next[x]} :: 0 <= x < |next| && Once(next, x) && Some(next[x]) in prev && changed(next[x]) ==> In(mods, x))
  }

  lemma {:induction false} MarkedRows(prev: seq<Option<nat>>, next: seq<nat>, rows: seq<RowInfo>, removed: seq<Range>,
                                      ins: seq<Range>, changed: nat -> bool, mods: seq<Range>)
    requires Paired(prev, next, rows) && Unpaired(prev, next, rows, removed, ins) && Marked(rows, |rows|, changed, mods)
    ensures ModifiedRows(prev, next, changed, mods)
  {
    hide In, Present;
    forall x {:trigger In(mods, x)} | In(mods, x) ensures 0 <= x < |next| && Some(next[x]) in prev && changed(next[x]) {
      var l :| 0 <= l < |rows| && rows[l].place == x && changed(rows[l].index);
      assert rows[l] in rows && prev[rows[l].prev.value] in prev;
    }
    forall x | 0 <= x < |next| && Once(next, x) && Some(next[x]) in prev && changed(next[x]) ensures In(mods, x) {
      var o :| 0 <= o < |prev| && prev[o] == Some(next[x]);
      assert !(In(removed, o) && In(ins, x));
      var r :| r in rows && (r.place == x || r.prev == Some(o));
      var l :| 0 <= l < |rows| && rows[l] == r;
      assert rows[l].place == x;
    }
  }

  ghost predicate Correct(prev: seq<Option<nat>>, next: seq<nat>, items: seq<Item>, del: seq<Range>, ins: seq<Range>,
                          mods: seq<Range>, moves: seq<Move>) {
    && Tally(|prev|, items, del, ins) && Inserted(items, ins) && Sources(items, del) && MovesAre(items, moves)
    && Modified(items, mods) && Tracks(prev, Shown(next), items)
  }

  lemma {:induction false} CorrectWalked(prev: seq<Option<nat>>, next: seq<nat>, rows: seq<RowInfo>, kept: seq<RowInfo>,
                                         moves: seq<Move>, vanished: seq<Range>, removed: seq<Range>, del: seq<Range>,
                                         ins: seq<Range>, mods: seq<Range>) returns (items: seq<Item>)
    requires Separated(del) && Separated(ins) && Paired(prev, next, rows) && ByPlaces(rows) && Unchanged(kept)
    requires Walked(prev, next, rows, |rows|, kept, moves, removed, ins)
    requires Vanished(prev, |prev|, vanished) && Both(vanished, removed, del)
    requires forall x {:trigger In(mods, x)} :: In(mods, x) ==> 0 <= x < |next|
    ensures Correct(prev, next, items, del, ins, mods, moves)
  {
    hide In, Present, Paired, Walked, Unchanged, Vanished, Both, Rank, ByPlaces;
    GapsKeepOrder(del);
    GapsKeepOrder(ins);
    WalkedKept(prev, next, rows, kept, moves, vanished, removed, del, ins);
    WalkedMoves(prev, next, rows, kept, moves, removed, ins);
    OldPlacesInOrder(prev, next, rows, kept);
    var p, q := OldPlaces(kept), Places(kept);
    AccountHolds(prev, next, del, ins, p, q, moves, mods);
    items := Account(|next|, p, q, moves, mods);
  }

  lemma {:induction false} CorrectAligned(prev: seq<Option<nat>>, next: seq<nat>, p: seq<nat>, q: seq<nat>, was: seq<Range>,
                                          removed: seq<Range>, del: seq<Range>, ins: seq<Range>, mods: seq<Range>)
    returns (items: seq<Item>)
    requires Separated(del) && Separated(ins) && Stay(prev, next, was, removed, ins, p, q) && Both(was, removed, del)
    requires forall x {:trigger In(mods, x)} :: In(mods, x) ==> 0 <= x < |next|
    ensures Correct(prev, next, items, del, ins, mods, [])
  {
    hide In, Rank;
    GapsKeepOrder(del);
    GapsKeepOrder(ins);
    AccountHolds(prev, next, del, ins, p, q, [], mods);
    items := Account(|next|, p, q, [], mods);
  }

  /** No two rows that both cannot have moved changed their order. */
  ghost predicate StayersInOrder(prev: seq<Option<nat>>, next: seq<nat>, candidates: seq<Range>) {
    forall x, y, i, j {:trigger prev[x], prev[y], next[i], next[j]} ::
      0 <= x < y < |prev| && 0 <= i < j < |next| && prev[y] == Some(next[i]) && prev[x] == Some(next[j]) ==>
        In(candidates, next[i]) || In(candidates, next[j])
  }

  lemma {:induction false} KeptInOrder(prev: seq<Option<nat>>, next: seq<nat>, rows: seq<RowInfo>, kept: seq<RowInfo>,
                                       moves: seq<Move>, vanished: seq<Range>, removed: seq<Range>, del: seq<Range>,
                                       ins: seq<Range>)
    requires Separated(del) && Separated(ins) && Paired(prev, next, rows) && ByPlaces(rows) && NoDup(next)
    requires Walked(prev, next, rows, |rows|, kept, moves, removed, ins)
    requires Vanished(prev, |prev|, vanished) && Both(vanished, removed, del)
    requires Survivors(prev, del) == Survivors(Shown(next), ins)
    ensures Unchanged(kept)
  {
    hide In, Present, Paired, Walked, Vanished, Both, Rank, Survivors, NoDup;
    WalkedKept(prev, next, rows, kept, moves, vanished, removed, del, ins);
    OldPlacesInOrder(prev, next, rows, kept);
    RightExactlyInOrder(prev, next, del, ins, OldPlaces(kept), Places(kept));
  }

  /** Where distinct rows are in the right places in the end, no two rows changed their
      order without at least one of them being a candidate. */
  lemma {:induction false} RightOnlyIf(prev: seq<Option<nat>>, next: seq<nat>, rows: seq<RowInfo>, kept: seq<RowInfo>,
                                       moves: seq<Move>, vanished: seq<Range>, removed0: seq<Range>, ins0: seq<Range>,
                                       removed: seq<Range>, del: seq<Range>, ins: seq<Range>, candidates: seq<Range>)
    requires Separated(del) && Separated(ins) && Paired(prev, next, rows) && ByPlaces(rows)
    requires Unpaired(prev, next, rows, removed0, ins0) && Distinct(prev) && NoDup(next)
    requires Walked(prev, next, rows, |rows|, kept, moves, removed, ins) && StayersKept(rows, |rows|, kept, candidates)
    requires Vanished(prev, |prev|, vanished) && Both(vanished, removed, del)
    requires Survivors(prev, del) == Survivors(Shown(next), ins)
    ensures StayersInOrder(prev, next, candidates)
  {
    hide In, Present, Paired, Unpaired, Walked, Vanished, Both, Rank, Survivors, Distinct, NoDup;
    KeptInOrder(prev, next, rows, kept, moves, vanished, removed, del, ins);
    WalkedKept(prev, next, rows, kept, moves, vanished, removed, del, ins);
    forall x, y, i, j | 0 <= x < y < |prev| && 0 <= i < j < |next| && prev[y] == Some(next[i]) && prev[x] == Some(next[j])
      ensures In(candidates, next[i]) || In(candidates, next[j])
    {
      var k := RowOf(prev, next, rows, removed0, ins0, y, i);
      var l := RowOf(prev, next, rows, removed0, ins0, x, j);
      assert rows[k] in rows && rows[l] in rows;
      ShiftedOrder(prev, next, rows, rows[l], rows[k]);
      InBoth(kept, rows[k], rows[l]);
    }
  }

  lemma {:induction false} InBoth(kept: seq<RowInfo>, r: RowInfo, s: RowInfo)
    requires (forall i, j :: 0 <= i < j < |kept| ==> kept[i].place < kept[j].place) && Unchanged(kept)
    requires r.place < s.place && s.shifted < r.shifted
    ensures !(r in kept && s in kept)
  {
  }

  /** Of the rows in both results just these stay. */
  ghost predicate StaysJust(prev: seq<Option<nat>>, next: seq<nat>, s: seq<RowInfo>, del: seq<Range>, ins: seq<Range>) {
    && (forall r :: r in s ==> r.prev.Some?)
    && Rest(del, |prev|, OldPlaces(s)) && Rest(ins, |next|, Places(s))
  }

  /** The moves are just those of rows that are deleted and inserted again. */
  ghost predicate MovesListed(prev: seq<Option<nat>>, next: seq<nat>, del: seq<Range>, ins: seq<Range>, moves: seq<Move>) {
    forall m: Move {:trigger m in moves} :: m in moves <==>
      m.from < |prev| && m.to < |next| && prev[m.from] == Some(next[m.to]) && In(del, m.from) && In(ins, m.to)
  }

  lemma {:induction false} WalkedListed(prev: seq<Option<nat>>, next: seq<nat>, rows: seq<RowInfo>, kept: seq<RowInfo>,
                                        moves: seq<Move>, vanished: seq<Range>, removed0: seq<Range>, ins0: seq<Range>,
                                        removed: seq<Range>, del: seq<Range>, ins: seq<Range>)
    requires Paired(prev, next, rows) && ByPlaces(rows) && Unpaired(prev, next, rows, removed0, ins0)
    requires Distinct(prev) && NoDup(next) && Walked(prev, next, rows, |rows|, kept, moves, removed, ins)
    requires Vanished(prev, |prev|, vanished) && Both(vanished, removed, del)
    ensures MovesListed(prev, next, del, ins, moves)
  {
    hide In, Present, Paired, Unpaired, ByPlaces, Vanished, Both, Distinct, NoDup, Walked;
    WalkedKept(prev, next, rows, kept, moves, vanished, removed, del, ins);
    WalkedMoves(prev, next, rows, kept, moves, removed, ins);
    forall m: Move {:trigger m in moves} ensures m in moves <==>
      m.from < |prev| && m.to < |next| && prev[m.from] == Some(next[m.to]) && In(del, m.from) && In(ins, m.to)
    {
      if m.from < |prev| && m.to < |next| && prev[m.from] == Some(next[m.to]) && In(del, m.from) && In(ins, m.to) {
        var k := RowOf(prev, next, rows, removed0, ins0, m.from, m.to);
        InPlaces(kept, m.to);
        MoveOf(prev, next, rows, kept, moves, removed, ins, k);
      }
    }
  }

  lemma {:induction false} MoveOf(prev: seq<Option<nat>>, next: seq<nat>, rows: seq<RowInfo>, kept: seq<RowInfo>,
                                  moves: seq<Move>, removed: seq<Range>, ins: seq<Range>, k: nat)
    requires Walked(prev, next, rows, |rows|, kept, moves, removed, ins) && k < |rows| && rows[k] !in kept && rows[k].prev.Some?
    ensures Move(rows[k].prev.value, rows[k].place) in moves
  {
    hide In;
    assert rows[..|rows|] == rows;
  }

  lemma {:induction false} UnsortedOutcome(prev: seq<Option<nat>>, next: seq<nat>, rows: seq<RowInfo>, moves: seq<Move>,
                                           vanished: seq<Range>, removed0: seq<Range>, ins0: seq<Range>,
                                           removed: seq<Range>, del: seq<Range>, ins: seq<Range>, candidates: seq<Range>,
                                           mods: seq<Range>) returns (items: seq<Item>)
    requires Separated(del) && Separated(ins) && Paired(prev, next, rows) && ByPlaces(rows)
    requires Unpaired(prev, next, rows, removed0, ins0)
    requires Walked(prev, next, rows, |rows|, WalkTo(rows, candidates, |rows|).kept, moves, removed, ins)
    requires Vanished(prev, |prev|, vanished) && Both(vanished, removed, del)
    requires forall x {:trigger In(mods, x)} :: In(mods, x) ==> 0 <= x < |next|
    ensures AllGiveWay(rows, candidates) ==> Correct(prev, next, items, del, ins, mods, moves)
    ensures AllGiveWay(rows, candidates) ==> Leads(prev, Shown(next), del, ins, moves)
    ensures OnlyCandidatesMove(prev, next, candidates) ==> AllGiveWay(rows, candidates)
    ensures Distinct(prev) && NoDup(next) ==> rows == Shared(prev, next, |next|)
    ensures Distinct(prev) && NoDup(next) && Leads(prev, Shown(next), del, ins, moves) ==>
              AllGiveWay(rows, candidates) && StayersInOrder(prev, next, candidates)
  {
    hide In, Present, Paired, Unpaired, Walked, Vanished, Both, Survivors, Distinct, NoDup, Separated, ByPlaces, StayersKept;
    hide OthersStay, Unchanged, OnlyCandidatesMove, StayersInOrder, Leads, Tally, Inserted, Sources, MovesAre, Modified, Tracks;
    hide WalkTo, OvertakersMove, AllGiveWay, Shared, ShiftsDiffer;
    items := [];
    var kept := WalkTo(rows, candidates, |rows|).kept;
    PairedDiffer(prev, next, rows);
    InOrderIff(rows, candidates);
    GiveWayIff(rows, candidates);
    if AllGiveWay(rows, candidates) {
      items := CorrectWalked(prev, next, rows, kept, moves, vanished, removed, del, ins, mods);
      AccountLeads(prev, Shown(next), items, del, ins, moves);
    }
    if OnlyCandidatesMove(prev, next, candidates) {
      CandidatesOverRows(prev, next, rows, candidates);
      OthersStayKept(rows, candidates);
    }
    if Distinct(prev) && NoDup(next) {
      SharedWhole(prev, next, rows, removed0, ins0);
      if Leads(prev, Shown(next), del, ins, moves) {
        LeadsMeans(prev, Shown(next), del, ins, moves);
        KeptInOrder(prev, next, rows, kept, moves, vanished, removed, del, ins);
        StayersKeptAre(rows, candidates);
        RightOnlyIf(prev, next, rows, kept, moves, vanished, removed0, ins0, removed, del, ins, candidates);
      }
    }
  }

  lemma {:induction false} ReportOutcome(prev: seq<Option<nat>>, next: seq<nat>, rows: seq<RowInfo>, moves: seq<Move>,
                                         vanished: seq<Range>, removed0: seq<Range>, ins0: seq<Range>,
                                         removed: seq<Range>, del: seq<Range>, ins: seq<Range>, candidates: seq<Range>)
    requires Paired(prev, next, rows) && ByPlaces(rows) && Unpaired(prev, next, rows, removed0, ins0)
    requires Walked(prev, next, rows, |rows|, WalkTo(rows, candidates, |rows|).kept, moves, removed, ins)
    requires Vanished(prev, |prev|, vanished) && Both(vanished, removed, del)
    ensures WalkStays(prev, next, rows, candidates, del, ins)
    ensures Distinct(prev) && NoDup(next) ==> UnsortedReport(prev, next, candidates, del, ins, moves)
  {
    hide In, Present, Paired, Unpaired, Walked, Vanished, Both, Distinct, NoDup, ByPlaces, OnlyCandidatesMove, AllPaired;
    hide WalkTo, AllGiveWay, OthersStay, Shared, ShiftsDiffer, MovesListed, Rest, Resters, Quiet, OldPlaces, Places;
    var kept := WalkTo(rows, candidates, |rows|).kept;
    PairedDiffer(prev, next, rows);
    NoPairLeft(prev, next, rows, removed0, ins0);
    WalkedKept(prev, next, rows, kept, moves, vanished, removed, del, ins);
    if AllGiveWay(rows, candidates) {
      RestersKept(rows, candidates, |rows|);
    }
    if OnlyCandidatesMove(prev, next, candidates) {
      CandidatesOverRows(prev, next, rows, candidates);
      QuietKept(rows, candidates, |rows|);
    }
    if Distinct(prev) && NoDup(next) {
      SharedWhole(prev, next, rows, removed0, ins0);
      WalkedListed(prev, next, rows, kept, moves, vanished, removed0, ins0, removed, del, ins);
    }
  }

  lemma {:induction false} StayersKeptAre(rows: seq<RowInfo>, candidates: seq<Range>)
    ensures StayersKept(rows, |rows|, WalkTo(rows, candidates, |rows|).kept, candidates)
  {
    OthersKept(rows, candidates, |rows|);
  }

  /** Nothing can be wrong: the result is sorted, only candidates overtake others, or of
      distinct rows every one that is overtaken by a row that cannot have moved gives way. */
  ghost predicate Orderly(prev: seq<Option<nat>>, next: seq<nat>, candidates: Option<IndexSet>)
    reads if candidates.Some? then {candidates.value.vec} else {}
  {
    candidates.Some? ==> OnlyCandidatesMove(prev, next, candidates.value.Rs()) || DistinctGiveWay(prev, next, candidates.value.Rs())
  }

  ghost predicate DistinctGiveWay(prev: seq<Option<nat>>, next: seq<nat>, candidates: seq<Range>) {
    Distinct(prev) && NoDup(next) && AllGiveWay(Shared(prev, next, |next|), candidates)
  }

  /** Which rows stay and which are reported moved: where all give way just the resting
      rows stay, and if only candidates overtake others those are the rows that overtake
      none. */
  ghost predicate UnsortedReport(prev: seq<Option<nat>>, next: seq<nat>, candidates: seq<Range>, del: seq<Range>,
                                 ins: seq<Range>, moves: seq<Move>)
  {
    var rows := Shared(prev, next, |next|);
    && MovesListed(prev, next, del, ins, moves)
    && (AllGiveWay(rows, candidates) ==> StaysJust(prev, next, Resters(rows, candidates, |rows|), del, ins))
    && (OnlyCandidatesMove(prev, next, candidates) ==> StaysJust(prev, next, Quiet(rows, |rows|), del, ins))
  }

  /** The same of the rows paired between the results, be they distinct or not. */
  ghost predicate WalkStays(prev: seq<Option<nat>>, next: seq<nat>, rows: seq<RowInfo>, candidates: seq<Range>,
                            del: seq<Range>, ins: seq<Range>)
  {
    && Paired(prev, next, rows) && AllPaired(prev, next, rows) && ByPlaces(rows)
    && (AllGiveWay(rows, candidates) ==> StaysJust(prev, next, Resters(rows, candidates, |rows|), del, ins))
    && (OnlyCandidatesMove(prev, next, candidates) ==> StaysJust(prev, next, Quiet(rows, |rows|), del, ins))
  }

  /** No old and new row that are equal are both without a partner. */
  ghost predicate AllPaired(prev: seq<Option<nat>>, next: seq<nat>, rows: seq<RowInfo>) {
    forall x: nat, y: nat {:trigger prev[x], next[y]} :: x < |prev| && y < |next| && prev[x] == Some(next[y]) ==>
      exists r :: r in rows && (r.prev == Some(x) || r.place == y)
  }

  lemma {:induction false} NoPairLeft(prev: seq<Option<nat>>, next: seq<nat>, rows: seq<RowInfo>, removed: seq<Range>, ins: seq<Range>)
    requires Unpaired(prev, next, rows, removed, ins)
    ensures AllPaired(prev, next, rows)
  {
    forall x: nat, y: nat {:trigger prev[x], next[y]} | x < |prev| && y < |next| && prev[x] == Some(next[y])
      ensures exists r :: r in rows && (r.prev == Some(x) || r.place == y)
    {
      assert !(In(removed, x) && In(ins, y));
    }
  }

  /** Of the rows paired between the results, `old_` in the old order, just those of the
      common beginning of the two orders and of the common blocks stay. */
  ghost predicate BlocksStay(prev: seq<Option<nat>>, next: seq<nat>, rows: seq<RowInfo>, old_: seq<Row>, d: seq<Chunk>,
                             del: seq<Range>, ins: seq<Range>)
  {
    && Paired(prev, next, rows) && AllPaired(prev, next, rows) && ByPlaces(rows) && OldList(rows, old_)
    && Rest(del, |prev|, Selected(RowPlaces(old_), StayFirst(Indexes(old_), RowIndexes(rows), d)))
    && Rest(ins, |next|, Selected(Places(rows), StaySecond(Indexes(old_), RowIndexes(rows), d)))
  }

  lemma {:induction false} StayInBlocks(prev: seq<Option<nat>>, next: seq<nat>, rows: seq<RowInfo>, old_: seq<Row>, was: seq<Range>,
                                        removed: seq<Range>, del: seq<Range>, ins: seq<Range>, p: seq<nat>, q: seq<nat>, d: seq<Chunk>)
    requires Paired(prev, next, rows) && AllPaired(prev, next, rows) && ByPlaces(rows) && OldList(rows, old_)
    requires Stay(prev, next, was, removed, ins, p, q) && Both(was, removed, del)
    requires p == Selected(RowPlaces(old_), StayFirst(Indexes(old_), RowIndexes(rows), d))
    requires q == Selected(Places(rows), StaySecond(Indexes(old_), RowIndexes(rows), d))
    ensures BlocksStay(prev, next, rows, old_, d, del, ins)
  {
    hide In, Paired, AllPaired, ByPlaces, OldList, StayFirst, StaySecond;
  }

  /** With a sort just the common beginning of the two orders and the common blocks stay. */
  ghost predicate SortedReport(prev: seq<Option<nat>>, next: seq<nat>, d: seq<Chunk>, del: seq<Range>, ins: seq<Range>) {
    && Rest(del, |prev|, StayingOld(prev, next, d)) && Rest(ins, |next|, StayingNew(prev, next, d))
    && Economical(prev, next, d, del, ins)
  }

  /** Up to where rows out of place are looked for. */
  method PairAndMark(prev: seq<Option<nat>>, next: seq<nat>, changed: nat -> bool, removed: IndexSet, insertions: IndexSet,
                     deletions: IndexSet, modifications: IndexSet) returns (rows: seq<RowInfo>)
    requires removed.Valid() && insertions.Valid() && deletions.Valid() && modifications.Valid()
    requires removed.Rs() == [] && insertions.Rs() == [] && deletions.Rs() == [] && modifications.Rs() == []
    requires removed.vec != insertions.vec && removed.vec != deletions.vec && insertions.vec != deletions.vec
    requires modifications.vec !in {removed.vec, insertions.vec, deletions.vec}
    modifies removed.vec, insertions.vec, deletions.vec, modifications.vec
    ensures removed.Valid() && insertions.Valid() && deletions.Valid() && modifications.Valid()
    ensures Vanished(prev, |prev|, deletions.Rs()) && Paired(prev, next, rows) && ByPlaces(rows)
    ensures Unpaired(prev, next, rows, removed.Rs(), insertions.Rs()) && ModifiedRows(prev, next, changed, modifications.Rs())
  {
    hide Separated, ChunksOk, Paired, Unpaired, ByPlaces, Vanished, Marked, ModifiedRows;
    rows := Pair(prev, next, removed, insertions, deletions);
    ByPlacesMeans(rows);
    MarkChanged(rows, changed, modifications);
    MarkedRows(prev, next, rows, removed.Rs(), insertions.Rs(), changed, modifications.Rs());
  }

  /** The branch without a sort. */
  method ReportUnsorted(prev: seq<Option<nat>>, next: seq<nat>, rows: seq<RowInfo>, removed: IndexSet, candidates: IndexSet,
                        deletions: IndexSet, insertions: IndexSet, ghost mods: seq<Range>)
    returns (moves: seq<Move>, ghost items: seq<Item>)
    requires removed.Valid() && candidates.Valid() && deletions.Valid() && insertions.Valid()
    requires removed.vec != insertions.vec && removed.vec != deletions.vec && insertions.vec != deletions.vec
    requires candidates.vec !in {removed.vec, insertions.vec, deletions.vec}
    requires Paired(prev, next, rows) && ByPlaces(rows) && Vanished(prev, |prev|, deletions.Rs())
    requires Unpaired(prev, next, rows, removed.Rs(), insertions.Rs())
    requires forall x {:trigger In(mods, x)} :: In(mods, x) ==> 0 <= x < |next|
    modifies removed.vec, deletions.vec, insertions.vec
    ensures deletions.Valid() && insertions.Valid()
    ensures AllGiveWay(rows, candidates.Rs()) ==>
      Correct(prev, next, items, deletions.Rs(), insertions.Rs(), mods, moves) &&
      Leads(prev, Shown(next), deletions.Rs(), insertions.Rs(), moves)
    ensures OnlyCandidatesMove(prev, next, candidates.Rs()) ==> AllGiveWay(rows, candidates.Rs())
    ensures Distinct(prev) && NoDup(next) ==> rows == Shared(prev, next, |next|)
    ensures Distinct(prev) && NoDup(next) && Leads(prev, Shown(next), deletions.Rs(), insertions.Rs(), moves) ==>
      AllGiveWay(rows, candidates.Rs()) && StayersInOrder(prev, next, candidates.Rs())
    ensures WalkStays(prev, next, rows, candidates.Rs(), deletions.Rs(), insertions.Rs())
    ensures Distinct(prev) && NoDup(next) ==>
      UnsortedReport(prev, next, candidates.Rs(), deletions.Rs(), insertions.Rs(), moves)
  {
    hide Separated, ChunksOk, Paired, Unpaired, ByPlaces, Vanished, In, Walked, Both, Correct, OnlyCandidatesMove, NoDup,
         Distinct, Leads, StayersInOrder, WalkTo, AllGiveWay, Shared, UnsortedReport, WalkStays;
    ghost var vanished, removed0, ins0 := deletions.Rs(), removed.Rs(), insertions.Rs();
    moves := CalculateMovesUnsorted(prev, next, rows, removed, candidates, insertions);
    AddAll(deletions, removed);
    items := UnsortedOutcome(prev, next, rows, moves, vanished, removed0, ins0, removed.Rs(), deletions.Rs(),
                             insertions.Rs(), candidates.Rs(), mods);
    ReportOutcome(prev, next, rows, moves, vanished, removed0, ins0, removed.Rs(), deletions.Rs(), insertions.Rs(),
                  candidates.Rs());
  }

  /** The branch with a sort. */
  method ReportSorted(prev: seq<Option<nat>>, next: seq<nat>, rows: seq<RowInfo>, removed: IndexSet, modifications: IndexSet,
                      deletions: IndexSet, insertions: IndexSet, ghost mods: seq<Range>)
    returns (ghost items: seq<Item>, ghost old_: seq<Row>)
    requires removed.Valid() && modifications.Valid() && deletions.Valid() && insertions.Valid()
    requires removed.vec != insertions.vec && removed.vec != deletions.vec && insertions.vec != deletions.vec
    requires modifications.vec !in {removed.vec, insertions.vec, deletions.vec}
    requires Paired(prev, next, rows) && ByPlaces(rows) && Vanished(prev, |prev|, deletions.Rs())
    requires Unpaired(prev, next, rows, removed.Rs(), insertions.Rs())
    requires forall x {:trigger In(mods, x)} :: In(mods, x) ==> 0 <= x < |next|
    modifies removed.vec, deletions.vec, insertions.vec
    ensures deletions.Valid() && insertions.Valid()
    ensures Correct(prev, next, items, deletions.Rs(), insertions.Rs(), mods, [])
    ensures Leads(prev, Shown(next), deletions.Rs(), insertions.Rs(), [])
    ensures BlocksStay(prev, next, rows, old_, modifications.vec.data, deletions.Rs(), insertions.Rs())
    ensures Distinct(prev) && NoDup(next) ==>
      SortedReport(prev, next, modifications.vec.data, deletions.Rs(), insertions.Rs())
  {
    hide Separated, ChunksOk, Paired, Unpaired, ByPlaces, Vanished, In, Stay, Both, NoDup, Distinct, Leads, BlocksStay,
         SortedReport, StayingOld, StayingNew, StayFirst, StaySecond, Tally, Inserted, Sources, MovesAre, Modified, Tracks;
    NoPairLeft(prev, next, rows, removed.Rs(), insertions.Rs());
    ghost var p, q;
    p, q, old_ := CalculateMovesSorted(prev, next, rows, removed.Rs(), modifications, deletions, insertions);
    ghost var was := deletions.Rs();
    AddAll(deletions, removed);
    items := CorrectAligned(prev, next, p, q, was, removed.Rs(), deletions.Rs(), insertions.Rs(), mods);
    AccountLeads(prev, Shown(next), items, deletions.Rs(), insertions.Rs(), []);
    SortedOutcome(prev, next, was, removed.Rs(), deletions.Rs(), insertions.Rs(), p, q, modifications.vec.data);
    StayInBlocks(prev, next, rows, old_, was, removed.Rs(), deletions.Rs(), insertions.Rs(), p, q, modifications.vec.data);
  }

  /** `calculate`. Old rows that no longer exist have no index. The result is a valid
      change set that leads from the old rows to the new ones always with a sort, and
      without one if only candidates overtake others; with distinct rows exactly if every
      row that is overtaken by one that cannot have moved gives way. */
  method Calculate(prev: seq<Option<nat>>, next: seq<nat>, changed: nat -> bool, candidates: Option<IndexSet>)
    returns (ret: CollectionChangeBuilder)
    requires candidates.Some? ==> candidates.value.Valid()
    ensures fresh(ret) && ret.oldSize == |prev| && ret.Separate() && ret.SetsValid()
    ensures Orderly(prev, next, candidates) ==>
              ret.Valid() && Tracks(prev, Shown(next), ret.items) &&
              Leads(prev, Shown(next), ret.deletions.Rs(), ret.insertions.Rs(), ret.moves)
    ensures candidates.Some? && Distinct(prev) && NoDup(next) ==>
              (Leads(prev, Shown(next), ret.deletions.Rs(), ret.insertions.Rs(), ret.moves) <==>
               AllGiveWay(Shared(prev, next, |next|), candidates.value.Rs()))
    ensures candidates.Some? && Distinct(prev) && NoDup(next) &&
            Leads(prev, Shown(next), ret.deletions.Rs(), ret.insertions.Rs(), ret.moves) ==>
              StayersInOrder(prev, next, candidates.value.Rs())
    ensures candidates.Some? && Distinct(prev) && NoDup(next) ==>
              UnsortedReport(prev, next, candidates.value.Rs(), ret.deletions.Rs(), ret.insertions.Rs(), ret.moves)
    ensures candidates.Some? ==>
              exists rows :: WalkStays(prev, next, rows, candidates.value.Rs(), ret.deletions.Rs(), ret.insertions.Rs())
    ensures candidates.None? ==>
              exists rows, old_ :: BlocksStay(prev, next, rows, old_, ret.modifications.vec.data, ret.deletions.Rs(), ret.insertions.Rs())
    ensures candidates.None? && Distinct(prev) && NoDup(next) ==>
              SortedReport(prev, next, ret.modifications.vec.data, ret.deletions.Rs(), ret.insertions.Rs())
    ensures ModifiedRows(prev, next, changed, ret.modifications.Rs())
    ensures candidates.None? ==> ret.moves == []
  {
    hide Separated, ChunksOk, Paired, Unpaired, ByPlaces, Vanished, In, Tally, Inserted, Sources, MovesAre, Modified, Tracks,
         ModifiedRows, OnlyCandidatesMove, NoDup, Distinct, Leads, StayersInOrder, AllGiveWay, Shared, UnsortedReport, WalkStays,
         SortedReport, BlocksStay;
    ret := new CollectionChangeBuilder(|prev|);
    var removed := new IndexSet();
    var rows := PairAndMark(prev, next, changed, removed, ret.insertions, ret.deletions, ret.modifications);
    ghost var mods := ret.modifications.Rs();
    ModifiedBelow(prev, next, changed, mods);
    ghost var items: seq<Item>, old_: seq<Row> := [], [];
    if candidates.Some? {
      ret.moves, items := ReportUnsorted(prev, next, rows, removed, candidates.value, ret.deletions, ret.insertions, mods);
    } else {
      items, old_ := ReportSorted(prev, next, rows, removed, ret.modifications, ret.deletions, ret.insertions, mods);
    }
    ret.items := items;
    assert candidates.Some? ==> WalkStays(prev, next, rows, candidates.value.Rs(), ret.deletions.Rs(), ret.insertions.Rs());
    assert candidates.None? ==>
      BlocksStay(prev, next, rows, old_, ret.modifications.vec.data, ret.deletions.Rs(), ret.insertions.Rs());
  }

  /** Three rows turned round, the first one in the new order no candidate: the second is
      behind as many rows to come as it is before rows that stay, and stays as well. */
  lemma {:induction false} TurnedRound(prev: seq<Option<nat>>, next: seq<nat>, candidates: seq<Range>)
    requires |prev| == 3 && |next| == 3 && NoDup(next)
    requires prev[0] == Some(next[2]) && prev[1] == Some(next[1]) && prev[2] == Some(next[0])
    requires !In(candidates, next[0]) && In(candidates, next[1]) && In(candidates, next[2])
    ensures Distinct(prev) && StayersInOrder(prev, next, candidates) && !AllGiveWay(Shared(prev, next, 3), candidates)
  {
    hide In;
    var rows := Shared(prev, next, 3);
    RowsTurned(prev, next);
    assert rows[1..][1..] == rows[2..];
    assert WalkTo(rows, candidates, 0) == Walk([], 0);
    assert Stays(rows, candidates, 0, Walk([], 0));
    assert WalkTo(rows, candidates, 1).kept == [rows[0]];
    assert [rows[0]][1..] == [];
    assert rows[2..][1..] == [];
    assert Larger([rows[0]], 1) == 1 && Smaller(rows[2..], 1) == 1;
    GiveWayIff(rows, candidates);
  }

  lemma {:induction false} RowsTurned(prev: seq<Option<nat>>, next: seq<nat>)
    requires |prev| == 3 && |next| == 3 && NoDup(next)
    requires prev[0] == Some(next[2]) && prev[1] == Some(next[1]) && prev[2] == Some(next[0])
    ensures var rows := Shared(prev, next, 3);
      |rows| == 3 && forall i :: 0 <= i < 3 ==> rows[i].index == next[i] && rows[i].shifted == 2 - i
  {
    assert Shared(prev, next, 1) == [RowInfo(next[0], Some(2), 0, Present(prev, 2))];
    assert Shared(prev, next, 2) == Shared(prev, next, 1) + [RowInfo(next[1], Some(1), 1, Present(prev, 1))];
    assert Shared(prev, next, 3) == Shared(prev, next, 2) + [RowInfo(next[2], Some(0), 2, Present(prev, 0))];
  }

  /** Two rows trade places, and only the second one is a candidate: it gives way. */
  lemma {:induction false} SecondMoves(prev: seq<Option<nat>>, next: seq<nat>, candidates: seq<Range>)
    requires |prev| == 2 && |next| == 2 && NoDup(next) && prev[0] == Some(next[1]) && prev[1] == Some(next[0])
    requires !In(candidates, next[0]) && In(candidates, next[1])
    ensures !OnlyCandidatesMove(prev, next, candidates) && AllGiveWay(Shared(prev, next, 2), candidates)
  {
    hide In;
    var rows := Shared(prev, next, 2);
    assert Shared(prev, next, 1) == [RowInfo(next[0], Some(1), 0, Present(prev, 1))];
    assert rows == Shared(prev, next, 1) + [RowInfo(next[1], Some(0), 1, Present(prev, 0))];
    assert rows[2..] == [];
    assert Rests(rows, candidates, 0);
    assert RestingBehind(rows, candidates, 1, 0) == 1;
  }

  lemma {:induction false} SortedOutcome(prev: seq<Option<nat>>, next: seq<nat>, was: seq<Range>, removed: seq<Range>, del: seq<Range>,
                                         ins: seq<Range>, p: seq<nat>, q: seq<nat>, d: seq<Chunk>)
    requires Separated(del) && Separated(ins) && Stay(prev, next, was, removed, ins, p, q) && Both(was, removed, del)
    ensures Distinct(prev) && NoDup(next) && p == StayingOld(prev, next, d) && q == StayingNew(prev, next, d) ==>
      SortedReport(prev, next, d, del, ins)
  {
    hide In, Distinct, NoDup, StayingOld, StayingNew, Economical;
    if Distinct(prev) && NoDup(next) && p == StayingOld(prev, next, d) && q == StayingNew(prev, next, d) {
      GapsKeepOrder(del);
      GapsKeepOrder(ins);
      StayersEconomical(prev, next, d, del, ins);
    }
  }

  lemma {:induction false} LeadsMeans<T>(old_: seq<T>, rows: seq<T>, del: seq<Range>, ins: seq<Range>, moves: seq<Move>)
    requires Leads(old_, rows, del, ins, moves)
    ensures Survivors(old_, del) == Survivors(rows, ins)
  {
  }

  lemma {:induction false} ByPlacesMeans(rows: seq<RowInfo>)
    requires forall i, j :: 0 <= i < j < |rows| ==> rows[i].place < rows[j].place
    ensures ByPlaces(rows)
  {
  }

  lemma {:induction false} ModifiedBelow(prev: seq<Option<nat>>, next: seq<nat>, changed: nat -> bool, mods: seq<Range>)
    requires ModifiedRows(prev, next, changed, mods)
    ensures forall x {:trigger In(mods, x)} :: In(mods, x) ==> 0 <= x < |next|
  {
  }
}
