/** Which rows of an unsorted query result are reported moved when only rows that may
    have moved overtake others, and whether fewer would have been enough. */
module Overtakers {
  import opened Common
  import opened Ranges
  import opened Pairings
  import opened Walks

  /** The row is now before one that was in front of it. */
  predicate Overtakes(rows: seq<RowInfo>, k: nat)
    requires k < |rows|
  {
    exists j :: k < j < |rows| && rows[j].shifted < rows[k].shifted
  }

  /** Those of the first `n` rows that overtake none. */
  function Quiet(rows: seq<RowInfo>, n: nat): seq<RowInfo>
    requires n <= |rows|
  {
    if n == 0 then [] else Quiet(rows, n - 1) + if Overtakes(rows, n - 1) then [] else [rows[n - 1]]
  }

  lemma {:induction false} OvertakesIff(rows: seq<RowInfo>, k: nat)
    requires k < |rows|
    ensures Overtakes(rows, k) <==> Smaller(rows[k + 1..], rows[k].shifted) > 0
  {
    var rest := rows[k + 1..];
    SmallerNone(rest, rows[k].shifted);
    forall j | k < j < |rows| ensures rows[j] == rest[j - k - 1] && rows[j] in rest {
    }
    if r :| r in rest && r.shifted < rows[k].shifted {
      var i :| 0 <= i < |rest| && rest[i] == r;
      assert rows[k + 1 + i] == r;
    }
  }

  /** If only candidates overtake others, the walk leaves just the rows that overtake
      none. */
  lemma {:induction false} QuietKept(rows: seq<RowInfo>, candidates: seq<Range>, n: nat)
    requires n <= |rows| && ShiftsDiffer(rows) && OthersStay(rows, candidates)
    ensures WalkTo(rows, candidates, n).kept == Quiet(rows, n)
  {
    hide In, WalkTo, Smaller, Larger, Overtakes;
    if n == 0 {
      WalkNone(rows, candidates);
    } else {
      QuietKept(rows, candidates, n - 1);
      WalkStep(rows, candidates, n - 1);
      NoneBehind(rows, candidates, n - 1);
      QuietStays(rows, candidates, n - 1, WalkTo(rows, candidates, n - 1));
    }
  }

  lemma {:induction false} QuietStays(rows: seq<RowInfo>, candidates: seq<Range>, k: nat, w: Walk)
    requires k < |rows| && ShiftsDiffer(rows) && OthersStay(rows, candidates)
    requires forall r :: r in w.kept ==> r.shifted < w.expected
    requires forall l :: k <= l < |rows| ==> w.expected <= rows[l].shifted
    ensures Stays(rows, candidates, k, w) <==> !Overtakes(rows, k)
  {
    hide In;
    OvertakesIff(rows, k);
    LargerNone(w.kept, rows[k].shifted);
  }

  // ---------- the most that can stay ----------

  /** The rows are among the others, in the same order. */
  predicate Among(s: seq<RowInfo>, rows: seq<RowInfo>)
    decreases |rows|
  {
    s == [] ||
    (rows != [] &&
     var init := rows[..|rows| - 1];
     (s[|s| - 1] == rows[|rows| - 1] && Among(s[..|s| - 1], init)) || Among(s, init))
  }

  function Most(a: nat, b: nat): nat {
    if a < b then b else a
  }

  /** The length of a longest choice of rows in the old order, all of them in front of the
      place `b`. */
  function Longest(rows: seq<RowInfo>, b: int): nat
    decreases |rows|
  {
    if rows == [] then 0
    else
      var init, last := rows[..|rows| - 1], rows[|rows| - 1].shifted;
      Most(Longest(init, b), if last < b then 1 + Longest(init, last) else 0)
  }

  ghost predicate InFront(s: seq<RowInfo>, b: int) {
    forall r :: r in s ==> r.shifted < b
  }

  lemma {:induction false} AtMostLongest(s: seq<RowInfo>, rows: seq<RowInfo>, b: int)
    requires Among(s, rows) && Unchanged(s) && InFront(s, b)
    ensures |s| <= Longest(rows, b)
    decreases |rows|
  {
    if s != [] {
      var init, last := rows[..|rows| - 1], rows[|rows| - 1];
      if s[|s| - 1] == last && Among(s[..|s| - 1], init) {
        var less := s[..|s| - 1];
        forall r | r in less ensures r.shifted < last.shifted {
          var i :| 0 <= i < |less| && less[i] == r;
        }
        assert last in s;
        AtMostLongest(less, init, last.shifted);
      } else {
        AtMostLongest(s, init, b);
      }
    }
  }

  lemma {:induction false} AmongMore(s: seq<RowInfo>, rows: seq<RowInfo>, last: RowInfo)
    requires Among(s, rows)
    ensures Among(s, rows + [last]) && Among(s + [last], rows + [last])
  {
    assert (rows + [last])[..|rows|] == rows && (s + [last])[..|s|] == s;
  }

  lemma {:induction false} LongestChosen(rows: seq<RowInfo>, b: int) returns (s: seq<RowInfo>)
    ensures Among(s, rows) && Unchanged(s) && InFront(s, b) && |s| == Longest(rows, b)
    decreases |rows|
  {
    hide Among;
    if rows == [] {
      s := [];
      NoneAmong([]);
    } else {
      var init, last := rows[..|rows| - 1], rows[|rows| - 1];
      assert rows == init + [last];
      if last.shifted < b && Longest(init, b) < 1 + Longest(init, last.shifted) {
        var less := LongestChosen(init, last.shifted);
        s := less + [last];
        AmongMore(less, init, last);
        forall i, j | 0 <= i < j < |s| ensures s[i].shifted < s[j].shifted {
          assert s[i] in less;
        }
      } else {
        s := LongestChosen(init, b);
        AmongMore(s, init, last);
      }
    }
  }

  lemma {:induction false} QuietAmong(rows: seq<RowInfo>, n: nat)
    requires n <= |rows|
    ensures Among(Quiet(rows, n), rows[..n])
  {
    hide Overtakes, Among;
    if n == 0 {
      NoneAmong(rows[..0]);
    } else {
      QuietAmong(rows, n - 1);
      AmongMore(Quiet(rows, n - 1), rows[..n - 1], rows[n - 1]);
      assert rows[..n] == rows[..n - 1] + [rows[n - 1]];
      assert Overtakes(rows, n - 1) ==> Quiet(rows, n) == Quiet(rows, n - 1);
    }
  }

  lemma {:induction false} NoneAmong(rows: seq<RowInfo>)
    ensures Among([], rows)
  {
  }

  lemma {:induction false} QuietAhead(rows: seq<RowInfo>, n: nat, k: nat)
    requires n <= k < |rows| && ShiftsDiffer(rows)
    ensures forall r :: r in Quiet(rows, n) ==> r.shifted < rows[k].shifted
  {
    if n > 0 {
      QuietAhead(rows, n - 1, k);
      assert n - 1 < k && !Overtakes(rows, n - 1) ==> rows[n - 1].shifted < rows[k].shifted;
    }
  }

  lemma {:induction false} QuietUnchanged(rows: seq<RowInfo>, n: nat)
    requires n <= |rows| && ShiftsDiffer(rows)
    ensures Unchanged(Quiet(rows, n))
  {
    hide Overtakes, ShiftsDiffer;
    if n > 0 {
      QuietUnchanged(rows, n - 1);
      QuietAhead(rows, n - 1, n - 1);
    }
  }

  /** The rows that overtake none are a choice in the old order, if not always a longest. */
  lemma {:induction false} QuietFits(rows: seq<RowInfo>, b: int)
    requires ShiftsDiffer(rows) && InFront(rows, b)
    ensures |Quiet(rows, |rows|)| <= Longest(rows, b)
  {
    hide ShiftsDiffer;
    QuietAmong(rows, |rows|);
    QuietUnchanged(rows, |rows|);
    QuietIn(rows, |rows|);
    assert rows[..|rows|] == rows;
    AtMostLongest(Quiet(rows, |rows|), rows, b);
  }

  lemma {:induction false} QuietIn(rows: seq<RowInfo>, n: nat)
    requires n <= |rows|
    ensures forall k :: 0 <= k < n && !Overtakes(rows, k) ==> rows[k] in Quiet(rows, n)
    ensures forall r :: r in Quiet(rows, n) ==> exists k :: 0 <= k < n && rows[k] == r && !Overtakes(rows, k)
  {
    hide Overtakes;
    if n > 0 {
      QuietIn(rows, n - 1);
    }
  }

  // ---------- when the rows that overtake none are enough ----------

  /** Any two rows that overtake others changed their own order, too. */
  predicate OvertakersInverted(rows: seq<RowInfo>) {
    forall i, j :: 0 <= i < j < |rows| && Overtakes(rows, i) && Overtakes(rows, j) ==> rows[i].shifted > rows[j].shifted
  }

  /** A row that overtakes others overtakes one that overtakes none. */
  lemma {:induction false} OvertakesQuiet(rows: seq<RowInfo>, k: nat, j: nat) returns (q: nat)
    requires k < j < |rows| && rows[j].shifted < rows[k].shifted
    ensures k < q < |rows| && rows[q].shifted < rows[k].shifted && !Overtakes(rows, q)
    decreases |rows| - j
  {
    q := j;
    if Overtakes(rows, j) {
      var l :| j < l < |rows| && rows[l].shifted < rows[j].shifted;
      q := OvertakesQuiet(rows, k, l);
    }
  }

  lemma {:induction false} AmongOrder(s: seq<RowInfo>, rows: seq<RowInfo>, a: nat, b: nat) returns (i: nat, j: nat)
    requires Among(s, rows) && a <= b < |s|
    ensures i <= j < |rows| && rows[i] == s[a] && rows[j] == s[b] && (a < b ==> i < j)
    decreases |rows|
  {
    var init := rows[..|rows| - 1];
    if s[|s| - 1] == rows[|rows| - 1] && Among(s[..|s| - 1], init) {
      if b < |s| - 1 {
        i, j := AmongOrder(s[..|s| - 1], init, a, b);
      } else {
        j := |rows| - 1;
        if a < b {
          var k;
          i, k := AmongOrder(s[..|s| - 1], init, a, a);
        } else {
          i := j;
        }
      }
    } else {
      i, j := AmongOrder(s, init, a, b);
    }
  }

  lemma {:induction false} SetSize(s: seq<RowInfo>)
    requires Unchanged(s)
    ensures |set r | r in s| == |s|
  {
    if s != [] {
      var last, less := s[|s| - 1], s[..|s| - 1];
      SetSize(less);
      assert (set r | r in s) == (set r | r in less) + {last};
      forall i | 0 <= i < |less| ensures less[i] != last {
        assert s[i].shifted < last.shifted;
      }
    }
  }

  lemma {:induction false} SubsetSize<T>(a: set<T>, b: set<T>)
    requires a <= b
    ensures |a| <= |b|
  {
    assert b == a + (b - a);
  }

  /** Then no choice in the old order has more rows than those that overtake none. */
  lemma {:induction false} InvertedEnough(s: seq<RowInfo>, rows: seq<RowInfo>)
    requires ShiftsDiffer(rows) && OvertakersInverted(rows) && Among(s, rows) && Unchanged(s)
    ensures |s| <= |Quiet(rows, |rows|)|
  {
    hide Among, Overtakes;
    var quiet := Quiet(rows, |rows|);
    QuietUnchanged(rows, |rows|);
    QuietIn(rows, |rows|);
    SetSize(s);
    SetSize(quiet);
    if a :| 0 <= a < |s| && s[a] !in quiet {
      var m, k := AmongOrder(s, rows, a, a);
      var q := QuietBehind(rows, m);
      forall b | 0 <= b < |s| && b != a ensures s[b] in quiet && s[b] != rows[q] {
        OneOvertaker(s, rows, a, b, m, q);
      }
      assert (set r | r in s) - {s[a]} + {rows[q]} <= (set r | r in quiet);
      SubsetSize((set r | r in s) - {s[a]} + {rows[q]}, set r | r in quiet);
      assert rows[q] != s[a] && rows[q] !in s;
    } else {
      SubsetSize(set r | r in s, set r | r in quiet);
    }
  }

  lemma {:induction false} QuietBehind(rows: seq<RowInfo>, k: nat) returns (q: nat)
    requires k < |rows| && Overtakes(rows, k)
    ensures k < q < |rows| && rows[q].shifted < rows[k].shifted && !Overtakes(rows, q)
  {
    var j :| k < j < |rows| && rows[j].shifted < rows[k].shifted;
    q := OvertakesQuiet(rows, k, j);
  }

  lemma {:induction false} OneOvertaker(s: seq<RowInfo>, rows: seq<RowInfo>, a: nat, b: nat, m: nat, q: nat)
    requires ShiftsDiffer(rows) && OvertakersInverted(rows) && Among(s, rows) && Unchanged(s)
    requires a < |s| && b < |s| && a != b && m < q < |rows| && s[a] == rows[m] && Overtakes(rows, m)
    requires rows[q].shifted < rows[m].shifted
    ensures s[b] in Quiet(rows, |rows|) && s[b] != rows[q]
  {
    hide Among, Overtakes;
    QuietIn(rows, |rows|);
    var i, j;
    if a < b {
      i, j := AmongOrder(s, rows, a, b);
    } else {
      j, i := AmongOrder(s, rows, b, a);
    }
    SameIndex(rows, i, m);
  }

  lemma {:induction false} SameIndex(rows: seq<RowInfo>, i: nat, j: nat)
    requires ShiftsDiffer(rows) && i < |rows| && j < |rows| && rows[i] == rows[j]
    ensures i == j
  {
  }

  /** The rows that overtake none are then a longest choice. */
  lemma {:induction false} QuietLongest(rows: seq<RowInfo>, b: int)
    requires ShiftsDiffer(rows) && InFront(rows, b) && OvertakersInverted(rows)
    ensures |Quiet(rows, |rows|)| == Longest(rows, b)
  {
    hide ShiftsDiffer, Among, Overtakes, OvertakersInverted;
    QuietFits(rows, b);
    var s := LongestChosen(rows, b);
    InvertedEnough(s, rows);
  }
}
