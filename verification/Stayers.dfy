/** Which rows of a sorted query result stay: the common beginning of the two orders, and
    the common blocks the search finds after it. */
module Stayers {
  import opened Common
  import opened Chunks
  import opened Matches

  ghost predicate Increasing(s: seq<nat>, n: nat) {
    && (forall k :: 0 <= k < |s| ==> s[k] < n)
    && (forall k, l :: 0 <= k < l < |s| ==> s[k] < s[l])
  }

  ghost function Numbers(i: nat, n: nat): (s: seq<nat>)
    ensures |s| == n && forall k :: 0 <= k < n ==> s[k] == i + k
  {
    seq(n, k requires 0 <= k => i + k)
  }

  ghost function Selected(s: seq<nat>, ks: seq<nat>): (r: seq<nat>)
    requires forall k :: 0 <= k < |ks| ==> ks[k] < |s|
    ensures |r| == |ks| && forall k :: 0 <= k < |r| ==> r[k] == s[ks[k]]
  {
    seq(|ks|, k requires 0 <= k < |ks| => s[ks[k]])
  }

  /** The rows of the blocks, by their numbers in the first and in the second list. */
  ghost function InFirst(ms: seq<Match>): seq<nat> {
    if ms == [] then [] else InFirst(ms[..|ms| - 1]) + Numbers(ms[|ms| - 1].i, ms[|ms| - 1].size)
  }

  ghost function InSecond(ms: seq<Match>): seq<nat> {
    if ms == [] then [] else InSecond(ms[..|ms| - 1]) + Numbers(ms[|ms| - 1].j, ms[|ms| - 1].size)
  }

  ghost function CommonStart(u: seq<nat>, v: seq<nat>): (n: nat)
    ensures n <= |u| && n <= |v| && u[..n] == v[..n] && (n < |u| && n < |v| ==> u[n] != v[n])
  {
    if u == [] || v == [] || u[0] != v[0] then 0
    else
      var n := CommonStart(u[1..], v[1..]);
      assert u[..n + 1] == [u[0]] + u[1..][..n] && v[..n + 1] == [v[0]] + v[1..][..n];
      n + 1
  }

  ghost function After(u: seq<nat>, v: seq<nat>): (f: Frame)
    ensures Fits(u, v, f)
  {
    Frame(CommonStart(u, v), |u|, CommonStart(u, v), |v|)
  }

  /** The numbers of the rows that stay, in the old order `u` and in the new order `v`. */
  ghost function StayFirst(u: seq<nat>, v: seq<nat>, d: seq<Chunk>): (r: seq<nat>)
    ensures Increasing(r, |u|)
  {
    StayIncreasing(u, v, d);
    Numbers(0, CommonStart(u, v)) + InFirst(Blocks(u, v, d, After(u, v)))
  }

  ghost function StaySecond(u: seq<nat>, v: seq<nat>, d: seq<Chunk>): (r: seq<nat>)
    ensures Increasing(r, |v|) && |r| == |StayFirst(u, v, d)|
  {
    StayIncreasing(u, v, d);
    SameCount(Blocks(u, v, d, After(u, v)));
    Numbers(0, CommonStart(u, v)) + InSecond(Blocks(u, v, d, After(u, v)))
  }

  lemma {:induction false} BlocksIncreasing(u: seq<nat>, v: seq<nat>, ms: seq<Match>, f: Frame)
    requires Aligned(u, v, ms, f)
    ensures Increasing(InFirst(ms), f.end1) && Increasing(InSecond(ms), f.end2)
    decreases |ms|
  {
    hide Same;
    InFrame(u, v, ms, f);
    if ms != [] {
      InFirstHead(ms);
      InFrame(u, v, ms[1..], Right(f, ms[0]));
      BlocksIncreasing(u, v, ms[1..], Right(f, ms[0]));
    }
  }

  lemma {:induction false} StayIncreasing(u: seq<nat>, v: seq<nat>, d: seq<Chunk>)
    ensures Increasing(Numbers(0, CommonStart(u, v)) + InFirst(Blocks(u, v, d, After(u, v))), |u|)
    ensures Increasing(Numbers(0, CommonStart(u, v)) + InSecond(Blocks(u, v, d, After(u, v))), |v|)
  {
    hide Blocks, CommonStart, InFirst, InSecond, Aligned;
    BlocksAligned(u, v, d, After(u, v));
    InFrame(u, v, Blocks(u, v, d, After(u, v)), After(u, v));
    BlocksIncreasing(u, v, Blocks(u, v, d, After(u, v)), After(u, v));
  }

  /** Where one order begins with the other, that beginning stays, and nothing more. */
  lemma {:induction false} AllCommon(u: seq<nat>, v: seq<nat>, d: seq<Chunk>)
    requires CommonStart(u, v) == |u|
    ensures StayFirst(u, v, d) == Numbers(0, |u|) && StaySecond(u, v, d) == Numbers(0, |u|)
  {
    BlocksMeans(u, v, d, After(u, v));
    BlocksAligned(u, v, d, After(u, v));
    InFrame(u, v, Blocks(u, v, d, After(u, v)), After(u, v));
  }

  lemma {:induction false} SameIncreasing(s: seq<nat>, t: seq<nat>, n: nat)
    requires Increasing(s, n) && Increasing(t, n) && forall x :: x in s <==> x in t
    ensures s == t
    decreases |s|
  {
    hide Increasing;
    assert |s| > 0 ==> s[0] in s;
    assert |t| > 0 ==> t[0] in t;
    if s != [] && t != [] {
      LastLargest(s, n);
      LastLargest(t, n);
      var x, y, s', t' := s[|s| - 1], t[|t| - 1], s[..|s| - 1], t[..|t| - 1];
      assert x in t && y in s;
      assert x == y;
      forall z: nat ensures z in s' <==> z in t' {
        assert z in s <==> z in t;
      }
      SameIncreasing(s', t', n);
      assert s == s' + [x] && t == t' + [y];
    }
  }

  lemma {:induction false} LastLargest(s: seq<nat>, n: nat)
    requires Increasing(s, n) && s != []
    ensures Increasing(s[..|s| - 1], n) && s[|s| - 1] in s
    ensures forall x :: x in s ==> x <= s[|s| - 1]
    ensures forall x :: x in s[..|s| - 1] <==> x in s && x != s[|s| - 1]
  {
    assert s == s[..|s| - 1] + [s[|s| - 1]];
  }

  lemma {:induction false} InFirstJoin(a: seq<Match>, b: seq<Match>)
    ensures InFirst(a + b) == InFirst(a) + InFirst(b) && InSecond(a + b) == InSecond(a) + InSecond(b)
    decreases |b|
  {
    if b == [] {
      assert a + b == a;
    } else {
      var init, last := b[..|b| - 1], b[|b| - 1];
      assert (a + b)[..|a + b| - 1] == a + init && (a + b)[|a + b| - 1] == last;
      InFirstJoin(a, init);
      Regroup(InFirst(a), InFirst(init), Numbers(last.i, last.size));
      Regroup(InSecond(a), InSecond(init), Numbers(last.j, last.size));
    }
  }

  lemma {:induction false} Regroup(a: seq<nat>, b: seq<nat>, c: seq<nat>)
    ensures a + b + c == a + (b + c)
  {
  }

  lemma {:induction false} OneBlock(m: Match)
    ensures InFirst([m]) == Numbers(m.i, m.size) && InSecond([m]) == Numbers(m.j, m.size)
  {
    assert [m][..0] == [];
    assert [] + Numbers(m.i, m.size) == Numbers(m.i, m.size) && [] + Numbers(m.j, m.size) == Numbers(m.j, m.size);
  }

  lemma {:induction false} SameCount(ms: seq<Match>)
    ensures |InFirst(ms)| == |InSecond(ms)|
  {
    if ms != [] {
      SameCount(ms[..|ms| - 1]);
    }
  }

  // ---------- the longest block stays ----------

  /** As many rows stay behind the common beginning as any common block there has. */
  lemma {:induction false} BlockStays(u: seq<nat>, v: seq<nat>, d: seq<Chunk>, f: Frame, i: nat, j: nat, n: nat)
    requires Fits(u, v, f) && Within(f, i, j, n) && Same(u, v, i, j, n)
    ensures n <= |InFirst(Blocks(u, v, d, f))|
  {
    hide Blocks, Picked, Same, Within;
    BlocksMeans(u, v, d, f);
    PickedLongest(u, v, f, d, i, j, n);
    var m := Picked(u, v, f, d, f.end1, f.begin2);
    if m.size > 0 {
      var l := if m.i > f.begin1 && m.j > f.begin2 then Blocks(u, v, d, Left(f, m)) else [];
      var r := if m.i + m.size < f.end2 && m.j + m.size < f.end2 then Blocks(u, v, d, Right(f, m)) else [];
      InFirstJoin(l + [m], r);
      InFirstJoin(l, [m]);
      OneBlock(m);
    }
  }

  /** With distinct rows, at least as many stay as any common block of the two orders has. */
  lemma {:induction false} LongestStays(u: seq<nat>, v: seq<nat>, d: seq<Chunk>, i: nat, j: nat, n: nat)
    requires NoDup(u) && NoDup(v) && Same(u, v, i, j, n)
    ensures n <= |StayFirst(u, v, d)|
  {
    hide Blocks;
    var first := CommonStart(u, v);
    if n > 0 {
      SameAt(u, v, i, j, n, 0);
      if i < first || j < first {
        assert u[..first] == v[..first];
        assert i < first ==> u[i] == u[..first][i] == v[i];
        assert j < first ==> v[j] == v[..first][j] == u[j];
        forall x | i <= x < i + n ensures u[x] == v[x] {
          SameAt(u, v, i, j, n, x - i);
        }
      } else {
        BlockStays(u, v, d, After(u, v), i, j, n);
      }
    }
  }

  lemma {:induction false} SameAt(u: seq<nat>, v: seq<nat>, i: nat, j: nat, n: nat, k: nat)
    requires Same(u, v, i, j, n) && k < n
    ensures u[i + k] == v[j + k]
  {
    assert u[i..i + n][k] == v[j..j + n][k];
  }

  // ---------- what moves between the blocks ----------

  /** The row with number `i` in the first and `j` in the second list is behind the `k`-th of
      the rows that stay and before the next one, in both lists. */
  ghost predicate InGap(ps: seq<nat>, qs: seq<nat>, i: nat, j: nat, k: nat) {
    && k <= |ps| == |qs|
    && (forall l :: 0 <= l < k ==> ps[l] < i && qs[l] < j)
    && (forall l :: k <= l < |ps| ==> ps[l] > i && qs[l] > j)
  }

  ghost predicate Solid(ms: seq<Match>) {
    forall k :: 0 <= k < |ms| ==> ms[k].size > 0
  }

  lemma {:induction false} BlocksSolid(u: seq<nat>, v: seq<nat>, d: seq<Chunk>, f: Frame)
    requires Fits(u, v, f)
    ensures Solid(Blocks(u, v, d, f))
    decreases f.end1 - f.begin1
  {
    hide Blocks, Picked, Same;
    BlocksMeans(u, v, d, f);
    var m := Picked(u, v, f, d, f.end1, f.begin2);
    if m.size > 0 {
      BlocksSolid(u, v, d, Left(f, m));
      BlocksSolid(u, v, d, Right(f, m));
    }
  }

  lemma {:induction false} InFirstHead(ms: seq<Match>)
    requires ms != []
    ensures InFirst(ms) == Numbers(ms[0].i, ms[0].size) + InFirst(ms[1..])
    ensures InSecond(ms) == Numbers(ms[0].j, ms[0].size) + InSecond(ms[1..])
  {
    assert ms == [ms[0]] + ms[1..];
    InFirstJoin([ms[0]], ms[1..]);
    OneBlock(ms[0]);
  }

  lemma {:induction false} InFrame(u: seq<nat>, v: seq<nat>, ms: seq<Match>, f: Frame)
    requires Aligned(u, v, ms, f)
    ensures |InFirst(ms)| == |InSecond(ms)|
    ensures forall k :: 0 <= k < |InFirst(ms)| ==> f.begin1 <= InFirst(ms)[k] < f.end1 && f.begin2 <= InSecond(ms)[k] < f.end2
    decreases |ms|
  {
    hide Same;
    SameCount(ms);
    if ms != [] {
      InFirstHead(ms);
      InFrame(u, v, ms[1..], Right(f, ms[0]));
    }
  }

  /** A row in common that stays in neither list can only be in a gap the search did not
      look at: behind a block whose end in the first list is not before the end of the gap
      in the second one. */
  lemma {:induction false} GapUnsearched(u: seq<nat>, v: seq<nat>, ms: seq<Match>, f: Frame, searched: bool, i: nat, j: nat, k: nat)
    requires Fits(u, v, f) && Aligned(u, v, ms, f) && Solid(ms) && Exhausted(u, v, ms, f, searched)
    requires f.begin1 <= i < f.end1 && f.begin2 <= j < f.end2 && u[i] == v[j]
    requires InGap(InFirst(ms), InSecond(ms), i, j, k)
    ensures searched ==> k > 0
    ensures (if k == 0 then f.begin1 else InFirst(ms)[k - 1] + 1) >= (if k < |InSecond(ms)| then InSecond(ms)[k] else f.end2)
    decreases |ms|
  {
    hide Same, InFirst, InSecond, Solid, InGap;
    if ms == [] {
      NoBlocks(ms, i, j, k);
    } else {
      var m := ms[0];
      SolidHead(ms);
      GapShift(u, v, ms, f, i, j, k);
      if k > 0 {
        GapUnsearched(u, v, ms[1..], Right(f, m), false, i, j, k - m.size);
      }
    }
  }

  lemma {:induction false} NoBlocks(ms: seq<Match>, i: nat, j: nat, k: nat)
    requires ms == [] && InGap(InFirst(ms), InSecond(ms), i, j, k)
    ensures k == 0 && InFirst(ms) == [] && InSecond(ms) == []
  {
  }

  lemma {:induction false} SolidHead(ms: seq<Match>)
    requires Solid(ms) && ms != []
    ensures ms[0].size > 0 && Solid(ms[1..])
  {
  }

  /** Before the first block, or behind it. */
  lemma {:induction false} GapShift(u: seq<nat>, v: seq<nat>, ms: seq<Match>, f: Frame, i: nat, j: nat, k: nat)
    requires Aligned(u, v, ms, f) && Solid(ms) && ms != [] && InGap(InFirst(ms), InSecond(ms), i, j, k)
    ensures k == 0 ==> |InSecond(ms)| > 0 && InSecond(ms)[0] == ms[0].j && i < ms[0].i && j < ms[0].j
    ensures k > 0 ==>
      && ms[0].size <= k <= |InFirst(ms)| && ms[0].i + ms[0].size <= i && ms[0].j + ms[0].size <= j
      && InGap(InFirst(ms[1..]), InSecond(ms[1..]), i, j, k - ms[0].size)
      && |InSecond(ms)| == |InSecond(ms[1..])| + ms[0].size
      && (k < |InSecond(ms)| ==> InSecond(ms)[k] == InSecond(ms[1..])[k - ms[0].size])
      && InFirst(ms)[k - 1] == if k == ms[0].size then ms[0].i + ms[0].size - 1 else InFirst(ms[1..])[k - 1 - ms[0].size]
  {
    hide Same, InFirst, InSecond, Aligned;
    InFirstHead(ms);
    SameCount(ms);
    SameCount(ms[1..]);
    var m := ms[0];
    if k > 0 {
      BehindBlock(ms, i, j, k);
      var ps, qs, n := InFirst(ms[1..]), InSecond(ms[1..]), m.size;
      forall l | 0 <= l < |ps|
        ensures (l < k - n ==> ps[l] < i && qs[l] < j) && (k - n <= l ==> ps[l] > i && qs[l] > j)
      {
        assert ps[l] == InFirst(ms)[n + l] && qs[l] == InSecond(ms)[n + l];
      }
    } else {
      assert InFirst(ms)[0] == m.i && InSecond(ms)[0] == m.j;
    }
  }

  lemma {:induction false} BehindBlock(ms: seq<Match>, i: nat, j: nat, k: nat)
    requires ms != [] && Solid(ms) && InGap(InFirst(ms), InSecond(ms), i, j, k) && k > 0
    ensures k >= ms[0].size && i >= ms[0].i + ms[0].size && j >= ms[0].j + ms[0].size
  {
    hide InFirst, InSecond;
    InFirstHead(ms);
    var m, ps, qs := ms[0], InFirst(ms), InSecond(ms);
    var l := 0;
    while l + 1 < m.size
      invariant l < m.size && l < k
    {
      assert ps[l] == m.i + l && ps[l + 1] == m.i + l + 1;
      l := l + 1;
    }
    assert ps[l] == m.i + l && qs[l] == m.j + l;
  }

  /** The same over both lists as a whole: the gap is behind more rows than the common
      beginning has. */
  lemma {:induction false} UnmatchedUnsearched(u: seq<nat>, v: seq<nat>, d: seq<Chunk>, i: nat, j: nat, k: nat)
    requires i < |u| && j < |v| && u[i] == v[j] && InGap(StayFirst(u, v, d), StaySecond(u, v, d), i, j, k)
    ensures CommonStart(u, v) < k <= |StayFirst(u, v, d)|
    ensures StayFirst(u, v, d)[k - 1] + 1 >= if k < |StaySecond(u, v, d)| then StaySecond(u, v, d)[k] else |v|
  {
    hide Blocks, CommonStart, Exhausted, Aligned, StayFirst, StaySecond, InFirst, InSecond, Solid, Increasing, InGap;
    var first, f, ms := CommonStart(u, v), After(u, v), Blocks(u, v, d, After(u, v));
    BlocksExhausted(u, v, d, f);
    BlocksSolid(u, v, d, f);
    StayParts(u, v, d);
    PastStart(StayFirst(u, v, d), StaySecond(u, v, d), first, i, j, k);
    GapBehind(StayFirst(u, v, d), StaySecond(u, v, d), InFirst(ms), InSecond(ms), first, i, j, k);
    GapUnsearched(u, v, ms, f, true, i, j, k - first);
  }

  lemma {:induction false} StayParts(u: seq<nat>, v: seq<nat>, d: seq<Chunk>)
    ensures var first, ms := CommonStart(u, v), Blocks(u, v, d, After(u, v));
      var ps, qs := StayFirst(u, v, d), StaySecond(u, v, d);
      && |ps| == |qs| == first + |InFirst(ms)| && |InSecond(ms)| == |InFirst(ms)|
      && (forall l :: 0 <= l < first ==> ps[l] == l && qs[l] == l)
      && (forall l :: 0 <= l < |InFirst(ms)| ==> ps[first + l] == InFirst(ms)[l] && qs[first + l] == InSecond(ms)[l])
  {
    hide Blocks, CommonStart, InFirst, InSecond;
    SameCount(Blocks(u, v, d, After(u, v)));
  }

  lemma {:induction false} GapBehind(ps: seq<nat>, qs: seq<nat>, p: seq<nat>, q: seq<nat>, first: nat, i: nat, j: nat, k: nat)
    requires InGap(ps, qs, i, j, k) && first <= k && |ps| == |qs| == first + |p| && |p| == |q|
    requires forall l :: 0 <= l < |p| ==> ps[first + l] == p[l] && qs[first + l] == q[l]
    ensures InGap(p, q, i, j, k - first)
    ensures k > first ==> ps[k - 1] == p[k - 1 - first]
    ensures k < |qs| ==> qs[k] == q[k - first]
  {
    assert k > first ==> ps[first + (k - 1 - first)] == p[k - 1 - first];
    assert k < |qs| ==> qs[first + (k - first)] == q[k - first];
    forall l | 0 <= l < |p|
      ensures (l < k - first ==> p[l] < i && q[l] < j) && (k - first <= l ==> p[l] > i && q[l] > j)
    {
      assert ps[first + l] == p[l] && qs[first + l] == q[l];
    }
  }

  lemma {:induction false} PastStart(ps: seq<nat>, qs: seq<nat>, first: nat, i: nat, j: nat, k: nat)
    requires InGap(ps, qs, i, j, k) && first <= |ps| && forall l :: 0 <= l < first ==> ps[l] == l && qs[l] == l
    ensures first <= i && first <= j && first <= k
  {
    assert i < |ps| ==> (i < k ==> ps[i] < i) && (k <= i ==> ps[i] > i);
    assert j < |qs| ==> (j < k ==> qs[j] < j) && (k <= j ==> qs[j] > j);
    assert k < |ps| ==> ps[k] > i;
  }

  lemma {:induction false} StartIs(u: seq<nat>, v: seq<nat>, n: nat)
    requires n <= |u| && n <= |v| && u[..n] == v[..n] && (n < |u| && n < |v| ==> u[n] != v[n])
    ensures CommonStart(u, v) == n
  {
    var m := CommonStart(u, v);
    forall k | 0 <= k < n ensures u[k] == v[k] {
      assert u[..n][k] == v[..n][k];
    }
    forall k | 0 <= k < m ensures u[k] == v[k] {
      assert u[..m][k] == v[..m][k];
    }
  }
}
