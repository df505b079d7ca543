/** The child graph of coordinators as a value: what one `removeDependency`
    call leaves behind, and exactly when it returns. */
module CoordinatorGraph {
  import opened Common

  /** The child list of every coordinator. */
  type Graph<N> = map<N, seq<N>>

  ghost predicate Closed<N>(g: Graph<N>) {
    forall n, m :: n in g && m in g[n] ==> m in g
  }

  /** The children that are not the node itself: the ones a tear-down visits. */
  function Others<N(==)>(s: seq<N>, n: N): seq<N> {
    if s == [] then []
    else (if s[0] == n then [] else [s[0]]) + Others(s[1..], n)
  }

  /** The self-entries a tear-down skips. */
  function Selfs<N(==)>(s: seq<N>, n: N): seq<N> {
    if s == [] then []
    else (if s[0] == n then [s[0]] else []) + Selfs(s[1..], n)
  }

  /** Every path from `n` that never repeats a self-edge has fewer than `d` nodes. */
  ghost predicate HeightBelow<N>(g: Graph<N>, n: N, d: nat)
    decreases d
  {
    d > 0 && n in g && forall m :: m in g[n] && m != n ==> HeightBelow(g, m, d - 1)
  }

  ghost predicate Reach<N>(g: Graph<N>, a: N, b: N, k: nat)
    decreases k
  {
    a == b || (k > 0 && a in g && exists x :: x in g[a] && Reach(g, x, b, k - 1))
  }

  ghost predicate Reaches<N>(g: Graph<N>, a: N, b: N) {
    exists k: nat :: Reach(g, a, b, k)
  }

  ghost predicate ReachedFrom<N>(g: Graph<N>, roots: seq<N>, n: N) {
    exists r :: r in roots && Reaches(g, r, n)
  }

  /** The child list of `n` once everything below `roots` has been torn down. */
  ghost function Cleared<N>(g: Graph<N>, roots: seq<N>, n: N): seq<N>
    requires n in g
  {
    if ReachedFrom(g, roots, n) then Selfs(g[n], n) else g[n]
  }

  /** Everything reachable from `c` keeps at most its self-entries. */
  ghost function TornDown<N>(g: Graph<N>, c: N): Graph<N> {
    map n | n in g :: Cleared(g, [c], n)
  }

  /** The graph after `p.removeDependency(c)`: nothing happens when `p` has no
      children; otherwise `c` is torn down and its first entry leaves `p`. */
  ghost function After<N>(g: Graph<N>, p: N, c: N): (h: Graph<N>)
    requires p in g
    ensures h.Keys == g.Keys
  {
    if g[p] == [] then g
    else
      var t := TornDown(g, c);
      t[p := RemoveFirst(t[p], c)]
  }

  // ---------- lists of children ----------

  function RemoveEach<N(==)>(s: seq<N>, xs: seq<N>): seq<N> {
    if xs == [] then s
    else RemoveFirst(RemoveEach(s, xs[..|xs| - 1]), xs[|xs| - 1])
  }

  lemma {:induction false} OthersMembers<N>(s: seq<N>, n: N)
    ensures forall m :: m in Others(s, n) <==> m in s && m != n
    ensures forall m :: m in Selfs(s, n) ==> m in s && m == n
    ensures multiset(Others(s, n)) <= multiset(s)
  {
    if s != [] {
      assert s == [s[0]] + s[1..];
      OthersMembers(s[1..], n);
    }
  }

  lemma {:induction false} OtherIsChild<N>(s: seq<N>, n: N, i: nat)
    requires i < |Others(s, n)|
    ensures Others(s, n)[i] in s && Others(s, n)[i] != n
  {
    OthersMembers(s, n);
    var x := Others(s, n)[i];
    assert x in multiset(Others(s, n));
    assert x in multiset(s);
  }

  lemma {:induction false} RemoveEachMultiset<N>(s: seq<N>, xs: seq<N>)
    ensures multiset(RemoveEach(s, xs)) == multiset(s) - multiset(xs)
  {
    if xs != [] {
      var init, last := xs[..|xs| - 1], xs[|xs| - 1];
      assert xs == init + [last];
      RemoveEachMultiset(s, init);
      RemoveFirstMultiset(RemoveEach(s, init), last);
    }
  }

  /** While a child is still to be visited, the list has not lost it. */
  lemma {:induction false} PendingChildPresent<N>(s: seq<N>, n: N, i: nat)
    requires i < |Others(s, n)|
    ensures Others(s, n)[i] in RemoveEach(s, Others(s, n)[..i])
  {
    var xs := Others(s, n);
    var x := xs[i];
    OthersMembers(s, n);
    RemoveEachMultiset(s, xs[..i]);
    CountPrefix(xs, i);
    assert multiset(s)[x] >= multiset(xs)[x];
    assert multiset(RemoveEach(s, xs[..i]))[x] > 0;
  }

  lemma {:induction false} CountPrefix<N>(xs: seq<N>, i: nat)
    requires i < |xs|
    ensures multiset(xs[..i])[xs[i]] < multiset(xs)[xs[i]]
  {
    assert xs == xs[..i] + ([xs[i]] + xs[i + 1..]);
    assert multiset(xs) == multiset(xs[..i]) + multiset([xs[i]] + xs[i + 1..]);
    assert xs[i] in [xs[i]] + xs[i + 1..];
  }

  lemma {:induction false} RemoveEachPrepend<N>(h: N, s: seq<N>, xs: seq<N>)
    requires h !in xs
    ensures RemoveEach([h] + s, xs) == [h] + RemoveEach(s, xs)
  {
    if xs != [] {
      RemoveEachPrepend(h, s, xs[..|xs| - 1]);
      var t := [h] + RemoveEach(s, xs[..|xs| - 1]);
      assert t[1..] == RemoveEach(s, xs[..|xs| - 1]);
    }
  }

  lemma {:induction false} RemoveEachHead<N>(s: seq<N>, xs: seq<N>)
    requires s != []
    ensures RemoveEach(s, [s[0]] + xs) == RemoveEach(s[1..], xs)
  {
    var ys := [s[0]] + xs;
    if xs == [] {
      assert ys[..|ys| - 1] == [];
    } else {
      assert ys[..|ys| - 1] == [s[0]] + xs[..|xs| - 1];
      RemoveEachHead(s, xs[..|xs| - 1]);
    }
  }

  /** Removing every other child one at a time leaves exactly the self-entries. */
  lemma {:induction false} RemoveOthersLeavesSelfs<N>(s: seq<N>, n: N)
    ensures RemoveEach(s, Others(s, n)) == Selfs(s, n)
  {
    if s != [] {
      var t := s[1..];
      RemoveOthersLeavesSelfs(t, n);
      assert s == [s[0]] + t;
      if s[0] == n {
        OthersMembers(t, n);
        assert Others(s, n) == Others(t, n);
        assert Selfs(s, n) == [n] + Selfs(t, n);
        RemoveEachPrepend(n, t, Others(t, n));
      } else {
        assert Selfs(s, n) == Selfs(t, n);
        RemoveEachHead(s, Others(t, n));
      }
    }
  }

  lemma {:induction false} SelfsIdempotent<N>(s: seq<N>, n: N)
    ensures Selfs(Selfs(s, n), n) == Selfs(s, n)
  {
    if s != [] {
      SelfsIdempotent(s[1..], n);
      if s[0] == n {
        var u := Selfs(s, n);
        assert u[0] == n && u[1..] == Selfs(s[1..], n);
        assert Selfs(u, n) == [n] + Selfs(u[1..], n);
      } else {
        assert Selfs(s, n) == Selfs(s[1..], n);
      }
    }
  }

  // ---------- reachability ----------

  lemma {:induction false} ReachMore<N>(g: Graph<N>, a: N, b: N, k: nat, l: nat)
    requires Reach(g, a, b, k) && k <= l
    ensures Reach(g, a, b, l)
    decreases k
  {
    if a != b {
      var x :| x in g[a] && Reach(g, x, b, k - 1);
      ReachMore(g, x, b, k - 1, l - 1);
    }
  }

  lemma {:induction false} ReachJoin<N>(g: Graph<N>, a: N, b: N, c: N, k: nat, l: nat)
    requires Reach(g, a, b, k) && Reach(g, b, c, l)
    ensures Reach(g, a, c, k + l)
    decreases k
  {
    if a == b {
      ReachMore(g, b, c, l, k + l);
    } else {
      var x :| x in g[a] && Reach(g, x, b, k - 1);
      ReachJoin(g, x, b, c, k - 1, l);
    }
  }

  lemma {:induction false} ReachesTransitive<N>(g: Graph<N>, a: N, b: N, c: N)
    requires Reaches(g, a, b) && Reaches(g, b, c)
    ensures Reaches(g, a, c)
  {
    var k: nat :| Reach(g, a, b, k);
    var l: nat :| Reach(g, b, c, l);
    ReachJoin(g, a, b, c, k, l);
  }

  lemma {:induction false} ReachesChild<N>(g: Graph<N>, a: N, x: N)
    requires a in g && x in g[a]
    ensures Reaches(g, a, x)
  {
    assert Reach(g, x, x, 0);
    assert Reach(g, a, x, 1);
  }

  lemma {:induction false} ReachesSelf<N>(g: Graph<N>, a: N)
    ensures Reaches(g, a, a)
  {
    assert Reach(g, a, a, 0);
  }

  ghost predicate Subgraph<N>(h: Graph<N>, g: Graph<N>) {
    h.Keys <= g.Keys && forall n, m :: n in h && m in h[n] ==> m in g[n]
  }

  lemma {:induction false} ReachSubgraph<N>(h: Graph<N>, g: Graph<N>, a: N, b: N, k: nat)
    requires Subgraph(h, g) && Reach(h, a, b, k)
    ensures Reach(g, a, b, k)
    decreases k
  {
    if a != b {
      var x :| x in h[a] && Reach(h, x, b, k - 1);
      ReachSubgraph(h, g, x, b, k - 1);
    }
  }

  lemma {:induction false} ReachesSubgraph<N>(h: Graph<N>, g: Graph<N>, a: N, b: N)
    requires Subgraph(h, g) && Reaches(h, a, b)
    ensures Reaches(g, a, b)
  {
    var k: nat :| Reach(h, a, b, k);
    ReachSubgraph(h, g, a, b, k);
  }

  lemma {:induction false} HeightMore<N>(g: Graph<N>, n: N, d: nat, e: nat)
    requires HeightBelow(g, n, d) && d <= e
    ensures HeightBelow(g, n, e)
    decreases d
  {
    forall m | m in g[n] && m != n ensures HeightBelow(g, m, e - 1) {
      HeightMore(g, m, d - 1, e - 1);
    }
  }

  lemma {:induction false} HeightAlong<N>(g: Graph<N>, a: N, b: N, k: nat, d: nat)
    requires Reach(g, a, b, k) && HeightBelow(g, a, d)
    ensures HeightBelow(g, b, d)
    decreases k
  {
    if a != b {
      var x :| x in g[a] && Reach(g, x, b, k - 1);
      if x != a {
        HeightMore(g, x, d - 1, d);
      }
      HeightAlong(g, x, b, k - 1, d);
    }
  }

  /** A node of bounded height is not reachable from its other children. */
  lemma {:induction false} NoReturn<N>(g: Graph<N>, c: N, x: N, d: nat)
    requires HeightBelow(g, c, d) && x in g[c] && x != c
    ensures !Reaches(g, x, c)
    decreases d
  {
    if Reaches(g, x, c) {
      var k: nat :| Reach(g, x, c, k);
      HeightAlong(g, x, c, k, d - 1);
      NoReturn(g, c, x, d - 1);
    }
  }

  // ---------- the tear-down loop ----------

  /** `g` is what is left of `g0` after the first `i` children of `c` have gone. */
  ghost predicate Progress<N>(g0: Graph<N>, c: N, i: nat, g: Graph<N>) {
    && c in g0 && g.Keys == g0.Keys
    && i <= |Others(g0[c], c)|
    && g[c] == RemoveEach(g0[c], Others(g0[c], c)[..i])
    && forall n :: n in g0 && n != c ==> g[n] == Cleared(g0, Others(g0[c], c)[..i], n)
  }

  lemma {:induction false} ProgressStart<N>(g0: Graph<N>, c: N)
    requires c in g0
    ensures Progress(g0, c, 0, g0)
  {
  }

  lemma {:induction false} ProgressSubgraph<N>(g0: Graph<N>, c: N, i: nat, g: Graph<N>)
    requires Progress(g0, c, i, g)
    ensures Subgraph(g, g0)
  {
    RemoveEachMultiset(g0[c], Others(g0[c], c)[..i]);
    forall n, m | n in g && m in g[n] ensures m in g0[n] {
      OthersMembers(g0[n], n);
      if n == c {
        assert m in multiset(g[c]);
        assert m in multiset(g0[c]);
      }
    }
  }

  /** A path that avoids `c` either survives or ran through what is already torn down. */
  lemma {:induction false} PathSurvives<N>(g0: Graph<N>, c: N, i: nat, g: Graph<N>, x: N, n: N, k: nat)
    requires Closed(g0) && Progress(g0, c, i, g)
    requires x in g0 && !Reaches(g0, x, c) && Reach(g0, x, n, k)
    ensures Reaches(g, x, n) || ReachedFrom(g0, Others(g0[c], c)[..i], n)
    decreases k
  {
    ReachesSelf(g0, x);
    ReachesSelf(g, x);
    if x != n {
      var done := Others(g0[c], c)[..i];
      if ReachedFrom(g0, done, x) {
        var r :| r in done && Reaches(g0, r, x);
        ReachesTransitive(g0, r, x, n);
      } else {
        var y :| y in g0[x] && Reach(g0, y, n, k - 1);
        ReachesChild(g0, x, y);
        if Reaches(g0, y, c) {
          ReachesTransitive(g0, x, y, c);
        }
        PathSurvives(g0, c, i, g, y, n, k - 1);
        if Reaches(g, y, n) {
          ReachesChild(g, x, y);
          ReachesTransitive(g, x, y, n);
        }
      }
    }
  }

  /** One more child torn down. */
  lemma {:induction false} ProgressStep<N>(g0: Graph<N>, c: N, i: nat, g: Graph<N>)
    requires Closed(g0) && Progress(g0, c, i, g)
    requires i < |Others(g0[c], c)| && !Reaches(g0, Others(g0[c], c)[i], c)
    ensures g[c] != [] && Others(g0[c], c)[i] in g[c]
    ensures Progress(g0, c, i + 1, After(g, c, Others(g0[c], c)[i]))
  {
    var xs := Others(g0[c], c);
    var x := xs[i];
    PendingChildPresent(g0[c], c, i);
    OthersMembers(g0[c], c);
    assert x in g0;
    ProgressSubgraph(g0, c, i, g);
    if Reaches(g, x, c) {
      ReachesSubgraph(g, g0, x, c);
    }
    var h := After(g, c, x);
    assert xs[..i + 1][..i] == xs[..i];
    assert !ReachedFrom(g, [x], c);
    assert h[c] == RemoveFirst(g[c], x);
    forall n | n in g0 && n != c ensures h[n] == Cleared(g0, xs[..i + 1], n) {
      ClearedStep(g0, c, i, g, n);
    }
  }

  lemma {:induction false} ClearedStep<N>(g0: Graph<N>, c: N, i: nat, g: Graph<N>, n: N)
    requires Closed(g0) && Progress(g0, c, i, g) && n in g0 && n != c
    requires i < |Others(g0[c], c)| && !Reaches(g0, Others(g0[c], c)[i], c)
    ensures Cleared(g, [Others(g0[c], c)[i]], n) == Cleared(g0, Others(g0[c], c)[..i + 1], n)
  {
    var xs := Others(g0[c], c);
    var x := xs[i];
    OthersMembers(g0[c], c);
    assert xs[..i + 1] == xs[..i] + [x];
    SelfsIdempotent(g0[n], n);
    assert ReachedFrom(g, [x], n) <==> Reaches(g, x, n) by {
      assert x in [x];
    }
    if Reaches(g, x, n) {
      ProgressSubgraph(g0, c, i, g);
      ReachesSubgraph(g, g0, x, n);
      assert x in xs[..i + 1];
    } else if Reaches(g0, x, n) {
      var k: nat :| Reach(g0, x, n, k);
      PathSurvives(g0, c, i, g, x, n, k);
      var r :| r in xs[..i] && Reaches(g0, r, n);
      assert r in xs[..i + 1];
    } else {
      assert ReachedFrom(g0, xs[..i + 1], n) <==> ReachedFrom(g0, xs[..i], n) by {
        if ReachedFrom(g0, xs[..i], n) {
          var r :| r in xs[..i] && Reaches(g0, r, n);
          assert r in xs[..i + 1];
        }
      }
    }
  }

  /** With every child visited, the whole sub-graph is torn down. */
  lemma {:induction false} ProgressDone<N>(g0: Graph<N>, c: N, g: Graph<N>)
    requires Closed(g0) && c in g0 && Progress(g0, c, |Others(g0[c], c)|, g)
    ensures g == TornDown(g0, c)
  {
    var xs := Others(g0[c], c);
    assert xs[..|xs|] == xs;
    forall n | n in g0 ensures g[n] == TornDown(g0, c)[n] {
      assert ReachedFrom(g0, [c], n) <==> Reaches(g0, c, n) by {
        assert c in [c];
      }
      if n == c {
        ReachesSelf(g0, c);
        RemoveOthersLeavesSelfs(g0[c], c);
      } else {
        OthersMembers(g0[c], c);
        if Reaches(g0, c, n) {
          var k: nat :| Reach(g0, c, n, k);
          FirstStep(g0, c, n, k);
        } else if ReachedFrom(g0, xs, n) {
          var r :| r in xs && Reaches(g0, r, n);
          ReachesChild(g0, c, r);
          ReachesTransitive(g0, c, r, n);
        }
      }
    }
  }

  lemma {:induction false} FirstStep<N>(g: Graph<N>, c: N, n: N, k: nat)
    requires c in g && c != n && Reach(g, c, n, k)
    ensures ReachedFrom(g, Others(g[c], c), n)
    decreases k
  {
    OthersMembers(g[c], c);
    var x :| x in g[c] && Reach(g, x, n, k - 1);
    if x == c {
      FirstStep(g, c, n, k - 1);
    } else {
      assert Reaches(g, x, n);
    }
  }

  // ---------- the recursion, and when it returns ----------

  /** `p.removeDependency(c)` with room for `fuel` nested calls; None when the
      recursion goes deeper than that. */
  function Remove<N(==)>(g: Graph<N>, p: N, c: N, fuel: nat): (r: Option<Graph<N>>)
    requires p in g && c in g
    ensures r.Some? ==> r.value.Keys == g.Keys
    decreases fuel, 1, 0
  {
    if g[p] == [] then Some(g)
    else
      match RemoveChildren(g, c, Others(g[c], c), fuel)
      case None => None
      case Some(h) => Some(h[p := RemoveFirst(h[p], c)])
  }

  /** `c.removeDependency(x)` for each `x` of `xs` in turn. */
  function RemoveChildren<N(==)>(g: Graph<N>, c: N, xs: seq<N>, fuel: nat): (r: Option<Graph<N>>)
    requires c in g
    ensures r.Some? ==> r.value.Keys == g.Keys
    decreases fuel, 0, |xs|
  {
    if xs == [] then Some(g)
    else if fuel == 0 || xs[0] !in g then None
    else
      match Remove(g, c, xs[0], fuel - 1)
      case None => None
      case Some(h) => RemoveChildren(h, c, xs[1..], fuel)
  }

  lemma {:induction false} AfterClosed<N>(g: Graph<N>, p: N, c: N)
    requires Closed(g) && p in g
    ensures Closed(After(g, p, c)) && Subgraph(After(g, p, c), g)
  {
    if g[p] != [] {
      var t := TornDown(g, c);
      RemoveFirstMultiset(t[p], c);
      forall n, m | n in g && m in After(g, p, c)[n] ensures m in g[n] {
        OthersMembers(g[n], n);
        if n == p {
          assert m in multiset(RemoveFirst(t[p], c));
          assert m in multiset(t[p]);
        }
      }
    }
  }

  /** Bounded height is enough room, and the result is the closed form `After`. */
  lemma {:induction false} RemoveReturns<N>(g: Graph<N>, p: N, c: N, fuel: nat)
    requires Closed(g) && p in g && HeightBelow(g, c, fuel)
    ensures Remove(g, p, c, fuel) == Some(After(g, p, c))
    decreases fuel, 1, 0
  {
    if g[p] != [] {
      ProgressStart(g, c);
      assert Others(g[c], c)[0..] == Others(g[c], c);
      RemoveChildrenReturns(g, c, 0, g, fuel);
    }
  }

  lemma {:induction false} RemoveChildrenReturns<N>(g0: Graph<N>, c: N, i: nat, g: Graph<N>, fuel: nat)
    requires Closed(g0) && Closed(g) && HeightBelow(g0, c, fuel) && Progress(g0, c, i, g)
    ensures RemoveChildren(g, c, Others(g0[c], c)[i..], fuel) == Some(TornDown(g0, c))
    decreases fuel, 0, |Others(g0[c], c)| - i
  {
    var xs := Others(g0[c], c);
    if i == |xs| {
      ProgressDone(g0, c, g);
    } else {
      OtherIsChild(g0[c], c, i);
      NoReturn(g0, c, xs[i], fuel);
      ProgressStep(g0, c, i, g);
      ProgressSubgraph(g0, c, i, g);
      HeightSubgraph(g, g0, xs[i], fuel - 1);
      RemoveReturns(g, c, xs[i], fuel - 1);
      AfterClosed(g, c, xs[i]);
      assert xs[i..][1..] == xs[i + 1..];
      RemoveChildrenReturns(g0, c, i + 1, After(g, c, xs[i]), fuel);
    }
  }

  lemma {:induction false} HeightSubgraph<N>(h: Graph<N>, g: Graph<N>, n: N, d: nat)
    requires Subgraph(h, g) && n in h && Closed(h) && HeightBelow(g, n, d)
    ensures HeightBelow(h, n, d)
    decreases d
  {
    forall m | m in h[n] && m != n ensures HeightBelow(h, m, d - 1) {
      HeightSubgraph(h, g, m, d - 1);
    }
  }

  lemma {:induction false} MoreFuel<N>(g: Graph<N>, p: N, c: N, fuel: nat, more: nat)
    requires p in g && c in g && Remove(g, p, c, fuel).Some? && fuel <= more
    ensures Remove(g, p, c, more) == Remove(g, p, c, fuel)
    decreases fuel, 1, 0
  {
    if g[p] != [] {
      MoreFuelChildren(g, c, Others(g[c], c), fuel, more);
    }
  }

  lemma {:induction false} MoreFuelChildren<N>(g: Graph<N>, c: N, xs: seq<N>, fuel: nat, more: nat)
    requires c in g && RemoveChildren(g, c, xs, fuel).Some? && fuel <= more
    ensures RemoveChildren(g, c, xs, more) == RemoveChildren(g, c, xs, fuel)
    decreases fuel, 0, |xs|
  {
    if xs != [] {
      MoreFuel(g, c, xs[0], fuel - 1, more - 1);
      MoreFuelChildren(Remove(g, c, xs[0], fuel - 1).value, c, xs[1..], fuel, more);
    }
  }

  /** A call that returned computed the closed form. */
  lemma {:induction false} ReturnedIsAfter<N>(g: Graph<N>, p: N, c: N, fuel: nat, d: nat)
    requires Closed(g) && p in g && HeightBelow(g, c, d)
    requires Remove(g, p, c, fuel).Some?
    ensures Remove(g, p, c, fuel) == Some(After(g, p, c))
  {
    RemoveReturns(g, p, c, d);
    if fuel <= d {
      MoreFuel(g, p, c, fuel, d);
    } else {
      MoreFuel(g, p, c, d, fuel);
    }
  }

  /** Heights measured in the partly torn-down graph bound heights in the original. */
  lemma {:induction false} HeightBefore<N>(g0: Graph<N>, c: N, i: nat, g: Graph<N>, n: N, k: nat, D: nat)
    requires Closed(g0) && Progress(g0, c, i, g)
    requires forall m :: m in Others(g0[c], c)[..i] ==> HeightBelow(g0, m, D)
    requires n in g0 && !Reaches(g, n, c) && HeightBelow(g, n, k)
    ensures HeightBelow(g0, n, k + D)
    decreases k
  {
    var done := Others(g0[c], c)[..i];
    if n == c {
      ReachesSelf(g, c);
    } else if ReachedFrom(g0, done, n) {
      var r :| r in done && Reaches(g0, r, n);
      var l: nat :| Reach(g0, r, n, l);
      HeightAlong(g0, r, n, l, D);
      HeightMore(g0, n, D, k + D);
    } else {
      forall m | m in g0[n] && m != n ensures HeightBelow(g0, m, k + D - 1) {
        ReachesChild(g, n, m);
        if Reaches(g, m, c) {
          ReachesTransitive(g, n, m, c);
        }
        HeightBefore(g0, c, i, g, m, k - 1, D);
      }
    }
  }

  /** A tear-down that returned started from a node of bounded height. */
  lemma {:induction false} ReturnedHasHeight<N>(g: Graph<N>, p: N, c: N, fuel: nat) returns (d: nat)
    requires Closed(g) && p in g && c in g && g[p] != []
    requires Remove(g, p, c, fuel).Some?
    ensures HeightBelow(g, c, d)
    decreases fuel, 1, 0
  {
    ProgressStart(g, c);
    assert Others(g[c], c)[0..] == Others(g[c], c);
    d := ChildrenHaveHeight(g, c, 0, g, fuel, 0);
  }

  /** The height of the next child; and unless that already bounds `c` itself,
      the child does not lead back to `c`, so its tear-down was the closed form. */
  lemma {:induction false} ChildHasHeight<N>(g0: Graph<N>, c: N, i: nat, g: Graph<N>, fuel: nat, D: nat)
    returns (d: nat)
    requires Closed(g0) && Closed(g) && Progress(g0, c, i, g) && i < |Others(g0[c], c)|
    requires forall m :: m in Others(g0[c], c)[..i] ==> HeightBelow(g0, m, D)
    requires Others(g0[c], c)[i] in g && Remove(g, c, Others(g0[c], c)[i], fuel).Some?
    ensures d >= D && HeightBelow(g0, Others(g0[c], c)[i], d)
    ensures HeightBelow(g0, c, d)
      || (!Reaches(g0, Others(g0[c], c)[i], c)
          && Remove(g, c, Others(g0[c], c)[i], fuel) == Some(After(g, c, Others(g0[c], c)[i])))
    decreases fuel, 2, 0
  {
    var x := Others(g0[c], c)[i];
    OtherIsChild(g0[c], c, i);
    PendingChildPresent(g0[c], c, i);
    var k := ReturnedHasHeight(g, c, x, fuel);
    if Reaches(g, x, c) {
      var l: nat :| Reach(g, x, c, l);
      HeightAlong(g, x, c, l, k);
      NoReturn(g, c, x, k);
    }
    HeightBefore(g0, c, i, g, x, k, D);
    d := k + D;
    if Reaches(g0, x, c) {
      var l: nat :| Reach(g0, x, c, l);
      HeightAlong(g0, x, c, l, d);
    } else {
      ReturnedIsAfter(g, c, x, fuel, k);
    }
  }

  lemma {:induction false} ChildrenHaveHeight<N>(g0: Graph<N>, c: N, i: nat, g: Graph<N>, fuel: nat, D: nat)
    returns (d: nat)
    requires Closed(g0) && Closed(g) && Progress(g0, c, i, g)
    requires forall m :: m in Others(g0[c], c)[..i] ==> HeightBelow(g0, m, D)
    requires RemoveChildren(g, c, Others(g0[c], c)[i..], fuel).Some?
    ensures HeightBelow(g0, c, d)
    decreases fuel, 0, |Others(g0[c], c)| - i
  {
    var xs := Others(g0[c], c);
    OthersMembers(g0[c], c);
    if i == |xs| {
      assert xs[..i] == xs;
      return D + 1;
    }
    var x := xs[i];
    d := ChildHasHeight(g0, c, i, g, fuel - 1, D);
    if !HeightBelow(g0, c, d) {
      ProgressStep(g0, c, i, g);
      AfterClosed(g, c, x);
      assert xs[i..][1..] == xs[i + 1..];
      forall j | 0 <= j < i ensures HeightBelow(g0, xs[j], d) {
        assert xs[j] in xs[..i];
        HeightMore(g0, xs[j], D, d);
      }
      d := ChildrenHaveHeight(g0, c, i + 1, After(g, c, x), fuel, d);
    }
  }

  ghost predicate Returns<N>(g: Graph<N>, p: N, c: N)
    requires p in g && c in g
  {
    exists fuel: nat :: Remove(g, p, c, fuel).Some?
  }

  // ---------- circles ----------

  /** The tear-down of `c` visits only so many nodes on any way down. */
  ghost predicate Bounded<N>(g: Graph<N>, c: N) {
    exists d: nat :: HeightBelow(g, c, d)
  }

  /** Nothing below `c` runs in a circle of two or more: no child other than the node
      itself leads back to the node. */
  ghost predicate NoCircle<N>(g: Graph<N>, c: N) {
    forall n, m :: n in g && m in g[n] && m != n && Reaches(g, c, n) ==> !Reaches(g, m, n)
  }

  /** Every node reached is in the set. */
  ghost predicate ReachesOnly<N>(g: Graph<N>, c: N, within: set<N>) {
    forall n :: n in g && Reaches(g, c, n) ==> n in within
  }

  /** Without circles no way down is longer than the number of nodes reached: a child
      does not reach its parent. */
  lemma {:induction false} NoCircleHeight<N>(g: Graph<N>, c: N, within: set<N>)
    requires Closed(g) && c in g && NoCircle(g, c) && ReachesOnly(g, c, within)
    ensures HeightBelow(g, c, |within|)
    decreases |within|
  {
    ReachesSelf(g, c);
    assert |within| == |within - {c}| + 1;
    forall m | m in g[c] && m != c ensures HeightBelow(g, m, |within| - 1) {
      ReachesChild(g, c, m);
      forall n | n in g && Reaches(g, m, n) ensures Reaches(g, c, n) && n in within - {c} {
        ReachesTransitive(g, c, m, n);
      }
      NoCircleHeight(g, m, within - {c});
    }
  }

  /** The recursion is bounded exactly where there is no circle. */
  lemma {:induction false} BoundedIff<N>(g: Graph<N>, c: N)
    requires Closed(g) && c in g
    ensures Bounded(g, c) <==> NoCircle(g, c)
  {
    if NoCircle(g, c) {
      NoCircleHeight(g, c, g.Keys);
    }
    if Bounded(g, c) {
      var d: nat :| HeightBelow(g, c, d);
      forall n, m | n in g && m in g[n] && m != n && Reaches(g, c, n) ensures !Reaches(g, m, n) {
        var k: nat :| Reach(g, c, n, k);
        HeightAlong(g, c, n, k, d);
        NoReturn(g, n, m, d);
      }
    }
  }

  /** No two coordinators lead to each other. */
  ghost predicate CircleFree<N>(g: Graph<N>) {
    forall n, m :: n in g && m in g[n] && m != n ==> !Reaches(g, m, n)
  }

  ghost predicate AllBounded<N>(g: Graph<N>) {
    forall n :: n in g ==> Bounded(g, n)
  }

  lemma {:induction false} AllBoundedIff<N>(g: Graph<N>)
    requires Closed(g)
    ensures AllBounded(g) <==> CircleFree(g)
  {
    forall n | n in g ensures Bounded(g, n) <==> NoCircle(g, n) {
      BoundedIff(g, n);
    }
    forall n | n in g ensures Reaches(g, n, n) {
      ReachesSelf(g, n);
    }
  }

  /** `p.removeDependency(c)` returns exactly when `p` has no children or nothing
      below `c` runs in a circle of two or more coordinators, and then it leaves
      the closed form. */
  lemma {:induction false} RemoveReturnsIff<N>(g: Graph<N>, p: N, c: N)
    requires Closed(g) && p in g && c in g
    ensures Returns(g, p, c) <==> g[p] == [] || NoCircle(g, c)
    ensures forall fuel: nat :: Remove(g, p, c, fuel).Some? ==> Remove(g, p, c, fuel).value == After(g, p, c)
  {
    if g[p] == [] {
      assert Remove(g, p, c, 0).Some?;
    } else {
      BoundedIff(g, c);
      if Bounded(g, c) {
        var d: nat :| HeightBelow(g, c, d);
        RemoveReturns(g, p, c, d);
      }
      forall fuel: nat | Remove(g, p, c, fuel).Some?
        ensures Bounded(g, c) && Remove(g, p, c, fuel).value == After(g, p, c)
      {
        var d := ReturnedHasHeight(g, p, c, fuel);
        ReturnedIsAfter(g, p, c, fuel, d);
      }
    }
  }

  // ---------- adding a dependency ----------

  /** The graph after `p.addDependency(c)`: a child already there is not added again. */
  function Added<N(==)>(g: Graph<N>, p: N, c: N): (h: Graph<N>)
    requires p in g && c in g
    ensures h.Keys == g.Keys
  {
    if c in g[p] then g else g[p := g[p] + [c]]
  }

  lemma {:induction false} AddedClosed<N>(g: Graph<N>, p: N, c: N)
    requires Closed(g) && p in g && c in g
    ensures Closed(Added(g, p, c))
  {
  }

  lemma {:induction false} SameReach<N>(g: Graph<N>, p: N, c: N, a: N, b: N, k: nat)
    requires Closed(g) && p in g && c in g && !Reaches(g, a, p)
    ensures Reach(Added(g, p, c), a, b, k) <==> Reach(g, a, b, k)
    decreases k
  {
    if k > 0 && a in g {
      ReachesSelf(g, a);
      forall x | x in g[a] ensures Reach(Added(g, p, c), x, b, k - 1) <==> Reach(g, x, b, k - 1) {
        ReachesFromChild(g, a, x, p);
        SameReach(g, p, c, x, b, k - 1);
      }
    }
  }

  lemma {:induction false} ReachesFromChild<N>(g: Graph<N>, a: N, x: N, b: N)
    requires a in g && x in g[a] && !Reaches(g, a, b)
    ensures !Reaches(g, x, b)
  {
    if k: nat :| Reach(g, x, b, k) {
      assert Reach(g, a, b, k + 1);
    }
  }

  /** Adding a child and removing it leaves the parent as it was and tears down what is
      below the child: without anything below it, all is as it was. */
  lemma {:induction false} AddThenRemove<N>(g: Graph<N>, p: N, c: N)
    requires Closed(g) && p in g && c in g && c !in g[p] && !Reaches(g, c, p)
    ensures After(Added(g, p, c), p, c) == TornDown(g, c)
    ensures g[c] == [] ==> After(Added(g, p, c), p, c) == g
  {
    hide Reach;
    var h := Added(g, p, c);
    forall n | n in g ensures ReachedFrom(h, [c], n) <==> ReachedFrom(g, [c], n) {
      forall k: nat ensures Reach(h, c, n, k) <==> Reach(g, c, n, k) {
        SameReach(g, p, c, c, n, k);
      }
      assert c in [c];
    }
    assert RemoveFirst(g[p] + [c], c) == g[p] by {
      RemoveFirstAt(g[p] + [c], c, |g[p]|);
      assert (g[p] + [c])[..|g[p]|] == g[p];
    }
    assert After(h, p, c) == TornDown(g, c);
    if g[c] == [] {
      forall n | n in g ensures Cleared(g, [c], n) == g[n] {
        LeafReachesItself(g, c, n);
      }
      assert TornDown(g, c) == g;
    }
  }

  lemma {:induction false} LeafReachesItself<N>(g: Graph<N>, c: N, n: N)
    requires c in g && g[c] == []
    ensures ReachedFrom(g, [c], n) ==> n == c
  {
  }

  lemma {:induction false} HeightWithEdge<N>(g: Graph<N>, p: N, c: N, n: N, d: nat, dc: nat)
    requires Closed(g) && p in g && c in g && n in g && c != p
    requires !Reaches(g, c, p)
    requires HeightBelow(g, n, d) && HeightBelow(g, c, dc)
    ensures HeightBelow(Added(g, p, c), n, d + dc)
    decreases d
  {
    var h := Added(g, p, c);
    forall m | m in h[n] && m != n ensures HeightBelow(h, m, d + dc - 1) {
      if m in g[n] {
        HeightWithEdge(g, p, c, m, d - 1, dc);
      } else {
        HeightUnchanged(g, p, c, c, dc);
        HeightMore(h, c, dc, d + dc - 1);
      }
    }
  }

  lemma {:induction false} HeightUnchanged<N>(g: Graph<N>, p: N, c: N, n: N, d: nat)
    requires Closed(g) && p in g && c in g && n in g
    requires !Reaches(g, n, p) && HeightBelow(g, n, d)
    ensures HeightBelow(Added(g, p, c), n, d)
    decreases d
  {
    var h := Added(g, p, c);
    ReachesSelf(g, n);
    forall m | m in h[n] && m != n ensures HeightBelow(h, m, d - 1) {
      ReachesChild(g, n, m);
      if Reaches(g, m, p) {
        ReachesTransitive(g, n, m, p);
      }
      HeightUnchanged(g, p, c, m, d - 1);
    }
  }

  lemma {:induction false} HeightWithSelfEdge<N>(g: Graph<N>, p: N, n: N, d: nat)
    requires p in g && HeightBelow(g, n, d)
    ensures HeightBelow(Added(g, p, p), n, d)
    decreases d
  {
    forall m | m in Added(g, p, p)[n] && m != n ensures HeightBelow(Added(g, p, p), m, d - 1) {
      HeightWithSelfEdge(g, p, m, d - 1);
    }
  }

  /** In a graph free of circles, adding `c` under `p` keeps it so exactly when `c` is
      `p` itself or does not lead back to `p`. */
  lemma {:induction false} AddKeepsCircleFreeIff<N>(g: Graph<N>, p: N, c: N)
    requires Closed(g) && CircleFree(g) && p in g && c in g
    ensures Closed(Added(g, p, c))
    ensures CircleFree(Added(g, p, c)) <==> p == c || !Reaches(g, c, p)
  {
    var h := Added(g, p, c);
    assert Subgraph(g, h);
    if p != c && Reaches(g, c, p) {
      ReachesSubgraph(g, h, c, p);
      assert c in h[p];
    } else {
      AllBoundedIff(g);
      AllBoundedIff(h);
      forall n | n in h ensures Bounded(h, n) {
        assert Bounded(g, n) && Bounded(g, c);
        var d: nat :| HeightBelow(g, n, d);
        var dc: nat :| HeightBelow(g, c, dc);
        if p == c {
          HeightWithSelfEdge(g, p, n, d);
        } else {
          HeightWithEdge(g, p, c, n, d, dc);
        }
      }
    }
  }

  /** Removing never creates a circle. */
  lemma {:induction false} RemoveKeepsCircleFree<N>(g: Graph<N>, p: N, c: N)
    requires Closed(g) && CircleFree(g) && p in g
    ensures Closed(After(g, p, c)) && CircleFree(After(g, p, c))
  {
    AfterClosed(g, p, c);
    var h := After(g, p, c);
    forall n, m | n in h && m in h[n] && m != n ensures !Reaches(h, m, n) {
      if Reaches(h, m, n) {
        ReachesSubgraph(h, g, m, n);
      }
    }
  }

  // ---------- whole runs ----------

  /** What the flows do: adopt a freshly made coordinator, or drop one. */
  datatype Step<N> = Adopt(parent: N, made: N) | Drop(parent: N, child: N)

  ghost predicate Enabled<N>(g: Graph<N>, st: Step<N>) {
    match st
    case Adopt(p, c) => p in g && c !in g
    case Drop(p, c) => p in g && c in g
  }

  ghost function Apply<N>(g: Graph<N>, st: Step<N>): Graph<N>
    requires Enabled(g, st)
  {
    match st
    case Adopt(p, c) => Added(g[c := []], p, c)
    case Drop(p, c) => After(g, p, c)
  }

  ghost predicate ValidRun<N>(g: Graph<N>, steps: seq<Step<N>>)
    decreases |steps|
  {
    steps == [] || (Enabled(g, steps[0]) && ValidRun(Apply(g, steps[0]), steps[1..]))
  }

  ghost function FinalGraph<N>(g: Graph<N>, steps: seq<Step<N>>): Graph<N>
    requires ValidRun(g, steps)
    decreases |steps|
  {
    if steps == [] then g else FinalGraph(Apply(g, steps[0]), steps[1..])
  }

  /** Closed, free of circles, and no child registered twice. */
  ghost predicate Tame<N>(g: Graph<N>) {
    Closed(g) && CircleFree(g) && forall n :: n in g ==> NoDup(g[n])
  }

  lemma {:induction false} NoDupSelfs<N>(s: seq<N>, n: N)
    requires NoDup(s)
    ensures NoDup(Selfs(s, n))
  {
    if s != [] {
      OthersMembers(s[1..], n);
      NoDupSelfs(s[1..], n);
      assert n in s[1..] ==> s[0] != n;
      forall i | 0 <= i < |Selfs(s[1..], n)| ensures Selfs(s[1..], n)[i] != s[0] {
        assert Selfs(s[1..], n)[i] in Selfs(s[1..], n);
      }
    }
  }

  lemma {:induction false} NoDupRemoveFirst<N>(s: seq<N>, x: N)
    requires NoDup(s)
    ensures NoDup(RemoveFirst(s, x)) && x !in RemoveFirst(s, x)
    ensures forall y :: y in RemoveFirst(s, x) ==> y in s
  {
    if s != [] {
      NoDupRemoveFirst(s[1..], x);
      assert s[0] !in s[1..];
    }
  }

  lemma {:induction false} LeafReaches<N>(g: Graph<N>, c: N, n: N)
    requires c in g && g[c] == []
    ensures Reaches(g, c, n) <==> c == n
  {
    ReachesSelf(g, c);
    forall k: nat | Reach(g, c, n, k) ensures c == n {
    }
  }

  lemma {:induction false} FreshLeafReach<N>(g: Graph<N>, c: N, a: N, b: N, k: nat)
    requires Closed(g) && c !in g && a in g && Reach(g[c := []], a, b, k)
    ensures Reach(g, a, b, k)
    decreases k
  {
    if a != b {
      var x :| x in g[a] && Reach(g[c := []], x, b, k - 1);
      FreshLeafReach(g, c, x, b, k - 1);
    }
  }

  lemma {:induction false} FreshLeafCircleFree<N>(g: Graph<N>, c: N)
    requires Closed(g) && CircleFree(g) && c !in g
    ensures CircleFree(g[c := []])
  {
    var h := g[c := []];
    forall n, m | n in h && m in h[n] && m != n ensures !Reaches(h, m, n) {
      if Reaches(h, m, n) {
        var k: nat :| Reach(h, m, n, k);
        FreshLeafReach(g, c, m, n, k);
      }
    }
  }

  /** Each step keeps the graph tame; after a drop the child is registered no more. */
  lemma {:induction false} StepKeepsTame<N>(g: Graph<N>, st: Step<N>)
    requires Tame(g) && Enabled(g, st)
    ensures Tame(Apply(g, st))
    ensures st.Adopt? ==> Apply(g, st)[st.parent] == g[st.parent] + [st.made]
    ensures st.Drop? ==> st.child !in Apply(g, st)[st.parent] && Returns(g, st.parent, st.child)
  {
    match st
    case Adopt(p, c) =>
      var h := g[c := []];
      FreshLeafCircleFree(g, c);
      LeafReaches(h, c, p);
      AddKeepsCircleFreeIff(h, p, c);
      assert c !in g[p];
    case Drop(p, c) =>
      RemoveReturnsIff(g, p, c);
      RemoveKeepsCircleFree(g, p, c);
      forall n | n in g ensures NoDup(After(g, p, c)[n]) {
        assert NoDup(g[n]);
        if g[p] != [] {
          NoDupSelfs(g[n], n);
          NoDupRemoveFirst(TornDown(g, c)[n], c);
        }
      }
      if g[p] != [] {
        assert NoDup(g[p]);
        NoDupSelfs(g[p], p);
        NoDupRemoveFirst(TornDown(g, c)[p], c);
      }
  }

  /** Starting from a tame graph, every run of adoptions and drops stays tame, so
      every drop along the way returns. */
  lemma {:induction false} RunStaysTame<N>(g: Graph<N>, steps: seq<Step<N>>)
    requires Tame(g) && ValidRun(g, steps)
    ensures Tame(FinalGraph(g, steps))
    ensures forall i :: 0 <= i < |steps| && steps[i].Drop? ==>
      ValidRun(g, steps[..i]) && Enabled(FinalGraph(g, steps[..i]), steps[i])
      && Returns(FinalGraph(g, steps[..i]), steps[i].parent, steps[i].child)
    decreases |steps|
  {
    if steps != [] {
      StepKeepsTame(g, steps[0]);
      var h := Apply(g, steps[0]);
      RunStaysTame(h, steps[1..]);
      forall i | 0 <= i < |steps| && steps[i].Drop?
        ensures ValidRun(g, steps[..i]) && Enabled(FinalGraph(g, steps[..i]), steps[i])
        && Returns(FinalGraph(g, steps[..i]), steps[i].parent, steps[i].child)
      {
        if i > 0 {
          assert steps[..i][0] == steps[0];
          assert steps[..i][1..] == steps[1..][..i - 1];
          assert steps[1..][i - 1] == steps[i];
        }
      }
    }
  }
}
