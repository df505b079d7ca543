/** Sorted half-open ranges of indices as values, and the index set they stand for. */
module Ranges {

  datatype Range = Range(first: int, second: int)

  predicate Covers(r: Range, x: int) {
    r.first <= x < r.second
  }

  /** Non-empty ranges in ascending order with a gap between neighbours. */
  ghost predicate Separated(rs: seq<Range>) {
    && (forall i :: 0 <= i < |rs| ==> 0 <= rs[i].first < rs[i].second)
    && (forall i, j :: 0 <= i < j < |rs| ==> rs[i].second < rs[j].first)
  }

  /** Like `Separated`, but neighbours may touch. */
  ghost predicate Ordered(rs: seq<Range>) {
    && (forall i :: 0 <= i < |rs| ==> 0 <= rs[i].first < rs[i].second)
    && (forall i, j :: 0 <= i < j < |rs| ==> rs[i].second <= rs[j].first)
  }

  /** A range can go before position `p` without overlapping its neighbours. */
  ghost predicate FitsAt(rs: seq<Range>, p: nat, v: Range) {
    && p <= |rs| && v.first < v.second
    && (forall i :: 0 <= i < p ==> rs[i].second <= v.first)
    && (forall i :: p <= i < |rs| ==> v.second <= rs[i].first)
  }

  lemma {:induction false} GapsKeepOrder(rs: seq<Range>)
    requires Separated(rs)
    ensures Ordered(rs)
  {
  }

  /** The index is in the set. */
  predicate In(rs: seq<Range>, x: int) {
    rs != [] && (Covers(rs[0], x) || In(rs[1..], x))
  }

  lemma {:induction false} InIndex(rs: seq<Range>, x: int) returns (i: nat)
    requires In(rs, x)
    ensures i < |rs| && Covers(rs[i], x)
  {
    if Covers(rs[0], x) {
      i := 0;
    } else {
      var j := InIndex(rs[1..], x);
      i := j + 1;
    }
  }

  lemma {:induction false} IndexIn(rs: seq<Range>, x: int, i: nat)
    requires i < |rs| && Covers(rs[i], x)
    ensures In(rs, x)
  {
    if i > 0 {
      IndexIn(rs[1..], x, i - 1);
    }
  }

  /** No range covers the index. */
  lemma {:induction false} NotIn(rs: seq<Range>, x: int)
    requires forall i :: 0 <= i < |rs| ==> !Covers(rs[i], x)
    ensures !In(rs, x)
  {
    if In(rs, x) {
      var i := InIndex(rs, x);
    }
  }

  /** The total length of the ranges. */
  function Total(rs: seq<Range>): int {
    if rs == [] then 0 else rs[0].second - rs[0].first + Total(rs[1..])
  }

  function Max(a: int, b: int): int { if a < b then b else a }

  function Min(a: int, b: int): int { if a < b then a else b }

  /** How many indices of the range lie below `x`. */
  function Below(r: Range, x: int): nat {
    Max(0, Min(r.second, x) - r.first)
  }

  /** How many members lie below `x`. */
  function CountBelow(rs: seq<Range>, x: int): nat {
    if rs == [] then 0 else Below(rs[0], x) + CountBelow(rs[1..], x)
  }

  lemma {:induction false} TotalSplit(a: seq<Range>, b: seq<Range>)
    ensures Total(a + b) == Total(a) + Total(b)
  {
    if a == [] {
      assert a + b == b;
    } else {
      assert (a + b)[1..] == a[1..] + b;
      TotalSplit(a[1..], b);
    }
  }

  lemma {:induction false} CountSplit(a: seq<Range>, b: seq<Range>, x: int)
    ensures CountBelow(a + b, x) == CountBelow(a, x) + CountBelow(b, x)
  {
    if a == [] {
      assert a + b == b;
    } else {
      assert (a + b)[1..] == a[1..] + b;
      CountSplit(a[1..], b, x);
    }
  }

  /** Ranges that end by `x` count in full. */
  lemma {:induction false} CountAll(rs: seq<Range>, x: int)
    requires forall i :: 0 <= i < |rs| ==> rs[i].first <= rs[i].second <= x
    ensures CountBelow(rs, x) == Total(rs)
  {
    if rs != [] {
      CountAll(rs[1..], x);
    }
  }

  /** Ranges that start at or after `x` do not count. */
  lemma {:induction false} CountNone(rs: seq<Range>, x: int)
    requires forall i :: 0 <= i < |rs| ==> x <= rs[i].first
    ensures CountBelow(rs, x) == 0
  {
    if rs != [] {
      CountNone(rs[1..], x);
    }
  }

  /** The count grows by one exactly at each member. */
  lemma {:induction false} CountStep(rs: seq<Range>, x: int)
    requires Ordered(rs)
    ensures CountBelow(rs, x + 1) == CountBelow(rs, x) + if In(rs, x) then 1 else 0
  {
    if rs != [] {
      CountStep(rs[1..], x);
      if Covers(rs[0], x) {
        forall i | 0 <= i < |rs[1..]| ensures !Covers(rs[1..][i], x) {
          assert rs[0].second <= rs[i + 1].first;
        }
        NotIn(rs[1..], x);
      }
    }
  }

  lemma {:induction false} InSplit(a: seq<Range>, b: seq<Range>, x: int)
    ensures In(a + b, x) <==> In(a, x) || In(b, x)
  {
    if a == [] {
      assert a + b == b;
    } else {
      assert (a + b)[1..] == a[1..] + b;
      InSplit(a[1..], b, x);
    }
  }

  /** A split of the ranges at `p` splits members and counts. */
  lemma {:induction false} AroundSplit(rs: seq<Range>, p: nat, x: int)
    requires p <= |rs|
    ensures rs == rs[..p] + rs[p..]
    ensures In(rs, x) <==> In(rs[..p], x) || In(rs[p..], x)
    ensures CountBelow(rs, x) == CountBelow(rs[..p], x) + CountBelow(rs[p..], x)
  {
    assert rs == rs[..p] + rs[p..];
    InSplit(rs[..p], rs[p..], x);
    CountSplit(rs[..p], rs[p..], x);
  }

  /** `p` is where a search for `x` stops: the first range that ends after `x`. */
  ghost predicate SearchStop(rs: seq<Range>, x: int, p: nat) {
    && p <= |rs|
    && (forall i :: 0 <= i < p ==> rs[i].second <= x)
    && (p < |rs| ==> x < rs[p].second)
  }

  /** The first `q` ranges end by `x`. */
  ghost predicate EndBy(rs: seq<Range>, q: nat, x: int) {
    q <= |rs| && forall i :: 0 <= i < q ==> rs[i].second <= x
  }

  lemma {:induction false} EndByNone(rs: seq<Range>, x: int)
    ensures EndBy(rs, 0, x)
  {
  }

  lemma {:induction false} EndByNext(rs: seq<Range>, q: nat, x: int, y: int)
    requires EndBy(rs, q, x) && q < |rs| && x <= y && rs[q].second <= y
    ensures EndBy(rs, q + 1, y)
  {
  }

  lemma {:induction false} EndByStop(rs: seq<Range>, q: nat, x: int)
    requires EndBy(rs, q, x) && (q < |rs| ==> x < rs[q].second)
    ensures SearchStop(rs, x, q)
  {
  }

  /** What the stop says about membership and about the count. */
  lemma {:induction false} AtStop(rs: seq<Range>, x: int, p: nat)
    requires Ordered(rs) && SearchStop(rs, x, p)
    ensures In(rs, x) <==> p < |rs| && rs[p].first <= x
    ensures !In(rs, x) ==> CountBelow(rs, x) == Total(rs[..p])
    ensures In(rs, x) ==> CountBelow(rs, x) == Total(rs[..p]) + x - rs[p].first
  {
    AroundSplit(rs, p, x);
    CountAll(rs[..p], x);
    NotIn(rs[..p], x);
    if p < |rs| {
      var tail := rs[p..];
      forall i | 0 <= i < |tail[1..]| ensures x < tail[1..][i].first {
        assert rs[p].second <= rs[p + 1 + i].first;
      }
      CountNone(tail[1..], x);
      NotIn(tail[1..], x);
    }
  }
}
