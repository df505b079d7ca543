/** Observation infos: for each observed row an intrusive doubly linked chain, whose
    head is in the class's array of observed objects. */
module Observations {
  import opened Common

  class Info {
    var next: Info?
    var prev: Info?
    /** The observed row; none before the object is managed. */
    var row: Option<nat>

    constructor ()
      ensures next == null && prev == null && row == None
    {
      next, prev, row := null, null, None;
    }

    /** `forEach` from this info, wherever it stands in its chain: first back to the
        head, then on to the end. */
    method ForEach(ghost chain: seq<Info>, ghost k: nat) returns (visited: seq<Info>)
      requires Linked(chain) && k < |chain| && chain[k] == this
      ensures visited == Reversed(chain[..k]) + chain[k..]
    {
      visited := [];
      var info := prev;
      ghost var i := k;
      while info != null
        invariant 0 <= i <= k && info == (if i == 0 then null else chain[i - 1])
        invariant visited == Reversed(chain[i..k])
        decreases i
      {
        ReversedNext(chain, i, k);
        visited := visited + [info];
        info := info.prev;
        i := i - 1;
      }
      assert chain[0..k] == chain[..k];
      info := this;
      i := k;
      while info != null
        invariant k <= i <= |chain| && info == (if i == |chain| then null else chain[i])
        invariant visited == Reversed(chain[..k]) + chain[k..i]
        decreases |chain| - i
      {
        assert chain[k..i + 1] == chain[k..i] + [chain[i]];
        visited := visited + [info];
        info := info.next;
        i := i + 1;
      }
      assert chain[k..i] == chain[k..];
    }
  }

  /** The infos are one chain, in this order. */
  ghost predicate Linked(chain: seq<Info>)
    reads chain
  {
    && chain != [] && NoDup(chain)
    && chain[0].prev == null && chain[|chain| - 1].next == null
    && (forall k :: 0 <= k < |chain| - 1 ==> chain[k].next == chain[k + 1])
    && (forall k :: 0 < k < |chain| ==> chain[k].prev == chain[k - 1])
    && (forall k :: 0 <= k < |chain| ==> chain[k].row == chain[0].row)
  }

  function Reversed<T>(s: seq<T>): (r: seq<T>)
    ensures |r| == |s|
  {
    if s == [] then [] else [s[|s| - 1]] + Reversed(s[..|s| - 1])
  }

  lemma {:induction false} ReversedNext<T>(s: seq<T>, i: nat, k: nat)
    requires 0 < i <= k <= |s|
    ensures Reversed(s[i - 1..k]) == Reversed(s[i..k]) + [s[i - 1]]
    decreases k - i
  {
    var t := s[i - 1..k];
    assert t == [s[i - 1]] + s[i..k];
    ReversedFront(s[i - 1], s[i..k]);
  }

  lemma {:induction false} ReversedFront<T>(x: T, s: seq<T>)
    ensures Reversed([x] + s) == Reversed(s) + [x]
  {
    if s == [] {
      assert [x] + s == [x];
      assert Reversed([x]) == [x] + Reversed<T>([]);
    } else {
      var t := [x] + s;
      assert t[..|t| - 1] == [x] + s[..|s| - 1];
      ReversedFront(x, s[..|s| - 1]);
    }
  }

  lemma {:induction false} ReversedContents<T>(s: seq<T>)
    ensures multiset(Reversed(s)) == multiset(s)
  {
    if s != [] {
      ReversedContents(s[..|s| - 1]);
      assert s == s[..|s| - 1] + [s[|s| - 1]];
    }
  }

  /** From any info of a chain, each info is visited exactly once. */
  lemma {:induction false} VisitsEachOnce(chain: seq<Info>, k: nat)
    requires k < |chain|
    ensures multiset(Reversed(chain[..k]) + chain[k..]) == multiset(chain)
  {
    ReversedContents(chain[..k]);
    assert chain == chain[..k] + chain[k..];
  }

  // ---------- joining and leaving a chain ----------

  /** The chain with one more info right behind its head. */
  function Behind(chain: seq<Info>, info: Info): seq<Info>
    requires chain != []
  {
    [chain[0], info] + chain[1..]
  }

  function Without(chain: seq<Info>, k: nat): seq<Info>
    requires k < |chain|
  {
    chain[..k] + chain[k + 1..]
  }

  /** The chain after more infos joined it one by one. */
  function AllBehind(chain: seq<Info>, infos: seq<Info>): (r: seq<Info>)
    requires chain != []
    ensures r != []
    decreases |infos|
  {
    if infos == [] then chain else AllBehind(Behind(chain, infos[0]), infos[1..])
  }

  /** The first observer of a row is told first, then the others, the latest first. */
  lemma {:induction false} LatestAfterFirst(chain: seq<Info>, infos: seq<Info>)
    requires chain != []
    ensures AllBehind(chain, infos) == [chain[0]] + Reversed(infos) + chain[1..]
    decreases |infos|
  {
    if infos == [] {
      assert [chain[0]] + [] + chain[1..] == chain;
    } else {
      var now := Behind(chain, infos[0]);
      LatestAfterFirst(now, infos[1..]);
      assert now[1..] == [infos[0]] + chain[1..];
      assert infos == [infos[0]] + infos[1..];
      ReversedFront(infos[0], infos[1..]);
    }
  }

  /** The end of `setRow` when the row has a chain. */
  method LinkBehind(head: Info, info: Info, ghost chain: seq<Info>)
    requires Linked(chain) && chain[0] == head && info !in chain && info.row == head.row
    modifies info, chain
    ensures Linked(Behind(chain, info))
    ensures info.row == old(info.row) && forall x :: x in chain ==> x.row == old(x.row)
  {
    assert |chain| > 1 ==> head.next == chain[1] && chain[1].prev == head;
    assert |chain| == 1 ==> head.next == null;
    info.prev := head;
    info.next := head.next;
    if info.next != null {
      info.next.prev := info;
    }
    head.next := info;
    ghost var now := Behind(chain, info);
    BehindDistinct(chain, info);
    assert forall k :: 1 < k < |now| ==> now[k] == chain[k - 1];
  }

  lemma {:induction false} BehindDistinct(chain: seq<Info>, info: Info)
    requires NoDup(chain) && chain != [] && info !in chain
    ensures NoDup(Behind(chain, info))
  {
  }

  /** The neighbours of a leaving info are joined. */
  method Unlink(info: Info, ghost chain: seq<Info>, ghost k: nat)
    requires Linked(chain) && k < |chain| && chain[k] == info
    modifies chain
    ensures |chain| > 1 ==> Linked(Without(chain, k))
    ensures forall x :: x in chain ==> x.row == old(x.row)
  {
    assert info.prev == if k == 0 then null else chain[k - 1];
    assert info.next == if k == |chain| - 1 then null else chain[k + 1];
    if info.prev != null {
      info.prev.next := info.next;
    }
    if info.next != null {
      info.next.prev := info.prev;
    }
    ghost var now := Without(chain, k);
    assert forall j :: 0 <= j < |now| ==> now[j] == chain[if j < k then j else j + 1];
  }

  // ---------- the class's array of observed objects ----------

  ghost predicate Apart(a: seq<Info>, b: seq<Info>) {
    forall x :: x in a ==> x !in b
  }

  ghost predicate Headed(head: Info, chain: seq<Info>)
    reads chain
  {
    Linked(chain) && chain[0] == head && chain[0].row.Some?
  }

  /** The chains are disjoint and hold the members between them. */
  ghost predicate Shape(chains: seq<seq<Info>>, members: set<Info>) {
    && (forall c, x :: 0 <= c < |chains| && x in chains[c] ==> x in members)
    && (forall x :: x in members ==> exists c :: 0 <= c < |chains| && x in chains[c])
    && (forall c, d :: 0 <= c < |chains| && 0 <= d < |chains| && c != d ==> Apart(chains[c], chains[d]))
  }

  class ClassInfo {
    var observedObjects: seq<Info>
    /** The chain behind each head. */
    ghost var chains: seq<seq<Info>>
    /** All infos in the chains. */
    ghost var members: set<Info>

    /** The heads lead to disjoint chains, one for each observed row. */
    ghost predicate Valid()
      reads this, members
    {
      && Shape(chains, members) && |chains| == |observedObjects|
      && (forall c :: 0 <= c < |chains| ==> Headed(observedObjects[c], chains[c]))
      && (forall c :: 0 <= c < |chains| ==> observedObjects[c] in members)
      && (forall c, d :: 0 <= c < |chains| && 0 <= d < |chains| && c != d ==>
            observedObjects[c].row != observedObjects[d].row)
    }

    constructor ()
      ensures Valid() && chains == []
    {
      observedObjects, chains, members := [], [], {};
    }

    /** `setRow`: joins the row's chain right behind its head, or starts a chain. */
    method SetRow(info: Info, newRow: nat) returns (ghost c: nat)
      requires Valid() && info !in members && info.next == null && info.prev == null && info.row == None
      modifies this, members, info
      ensures Valid() && members == old(members) + {info} && info.row == Some(newRow)
      ensures forall x :: x in old(members) ==> x.row == old(x.row)
      ensures c <= |old(chains)|
      ensures c < |old(chains)| ==> old(observedObjects[c].row) == Some(newRow)
      ensures c < |old(chains)| ==> old(chains)[c] != [] && chains == old(chains)[c := Behind(old(chains)[c], info)]
      ensures c == |old(chains)| ==> chains == old(chains) + [[info]]
      ensures c == |old(chains)| ==> forall d :: 0 <= d < |old(chains)| ==> old(observedObjects[d].row) != Some(newRow)
    {
      hide Shape, Headed, Linked;
      info.row := Some(newRow);
      Apartness(chains, members, info);
      var i := 0;
      while i < |observedObjects|
        invariant 0 <= i <= |observedObjects|
        invariant forall d :: 0 <= d < i ==> observedObjects[d].row != Some(newRow)
      {
        if observedObjects[i].row == info.row {
          JoinAt(i, info);
          c := i;
          return;
        }
        i := i + 1;
      }
      StartChain(info);
      c := i;
    }

    method JoinAt(i: nat, info: Info)
      requires Valid() && info !in members && i < |chains| && info.row == observedObjects[i].row
      modifies this, members, info
      ensures Valid() && members == old(members) + {info} && info.row == old(info.row)
      ensures forall x :: x in old(members) ==> x.row == old(x.row)
      ensures old(chains)[i] != [] && chains == old(chains)[i := Behind(old(chains)[i], info)]
    {
      hide Shape;
      assert Headed(observedObjects[i], chains[i]);
      ghost var before := chains;
      Apartness(before, members, info);
      InMembers(before, members, i);
      NonEmpty(before[i]);
      LinkBehind(observedObjects[i], info, before[i]);
      chains := before[i := Behind(before[i], info)];
      members := members + {info};
      JoinedShape(before, old(members), i, info);
      forall d | 0 <= d < |chains| ensures Headed(observedObjects[d], chains[d]) {
        if d != i {
          assert Apart(before[i], before[d]) && info !in before[d];
          forall k | 0 <= k < |before[d]|
            ensures before[d][k].next == old(before[d][k].next) && before[d][k].prev == old(before[d][k].prev)
            ensures before[d][k].row == old(before[d][k].row)
          {
            assert before[d][k] in before[d];
          }
          assert old(Headed(observedObjects[d], before[d]));
        }
      }
    }

    method StartChain(info: Info)
      requires Valid() && info !in members && info.next == null && info.prev == null && info.row.Some?
      requires forall d :: 0 <= d < |observedObjects| ==> observedObjects[d].row != info.row
      modifies this
      ensures Valid() && members == old(members) + {info} && chains == old(chains) + [[info]]
    {
      hide Shape;
      NewShape(chains, members, info);
      assert Linked([info]);
      observedObjects := observedObjects + [info];
      chains := chains + [[info]];
      members := members + {info};
    }

    /** The destructor of a registered info: its chain closes up; a head is replaced in
        the array by its successor, or the array's last entry takes its place. */
    method Remove(info: Info, ghost c: nat, ghost k: nat)
      requires Valid() && c < |chains| && k < |chains[c]| && chains[c][k] == info
      modifies this, members
      ensures Valid() && members == old(members) - {info}
      ensures forall x :: x in old(members) ==> x.row == old(x.row)
      ensures |old(chains)[c]| > 1 ==> chains == old(chains)[c := Without(old(chains)[c], k)]
      ensures |old(chains)[c]| == 1 ==>
        var last := |old(chains)| - 1; chains == old(chains)[c := old(chains)[last]][..last]
    {
      hide Shape, Linked;
      assert Headed(observedObjects[c], chains[c]);
      ChainEnds(chains[c], k);
      forall d | 0 <= d < |chains| ensures chains[d] != [] && chains[d][0] == observedObjects[d] {
        assert Headed(observedObjects[d], chains[d]);
        NonEmpty(chains[d]);
      }
      OtherHeads(observedObjects, chains, members, c, info);
      if info.prev != null {
        CloseUp(info, c, k);
      } else {
        var i := Position(info, c);
        if info.next != null {
          observedObjects := observedObjects[i := info.next];
          CloseUp(info, c, k);
        } else {
          var last := |observedObjects| - 1;
          observedObjects := observedObjects[i := observedObjects[last]][..last];
          DroppedShape(chains, members, c, info);
          members := members - {info};
          chains := chains[c := chains[last]][..last];
        }
      }
    }

    method CloseUp(info: Info, ghost c: nat, ghost k: nat)
      requires Shape(chains, members) && |chains| == |observedObjects| && c < |chains| && k < |chains[c]|
      requires chains[c][k] == info && |chains[c]| > 1 && Linked(chains[c]) && chains[c][0].row.Some?
      requires observedObjects[c] == Without(chains[c], k)[0]
      requires forall d :: 0 <= d < |chains| && d != c ==> Headed(observedObjects[d], chains[d])
      requires forall d :: 0 <= d < |chains| ==> observedObjects[d] in members && observedObjects[d] != info
      requires forall d, f :: 0 <= d < |chains| && 0 <= f < |chains| && d != f ==>
        observedObjects[d].row != observedObjects[f].row
      modifies this`chains, this`members, members
      ensures Valid() && members == old(members) - {info} && chains == old(chains)[c := Without(old(chains)[c], k)]
      ensures forall x :: x in old(members) ==> x.row == old(x.row)
    {
      hide Shape, Without, NoDup;
      ghost var before := chains;
      FirstLeft(before[c], k);
      InMembers(before, members, c);
      NonEmpty(before[c]);
      ChainRow(before[c], if k == 0 then 1 else 0);
      LeftShape(before, members, c, k);
      Disjoint(before, members, c);
      Unlink(info, before[c], k);
      forall d | 0 <= d < |before| && d != c ensures Headed(observedObjects[d], before[d]) {
        assert Apart(before[c], before[d]);
        forall k | 0 <= k < |before[d]|
          ensures before[d][k].next == old(before[d][k].next) && before[d][k].prev == old(before[d][k].prev)
          ensures before[d][k].row == old(before[d][k].row)
        {
          assert before[d][k] in before[d];
        }
        assert old(Headed(observedObjects[d], before[d]));
      }
      assert Headed(observedObjects[c], Without(before[c], k));
      chains := before[c := Without(before[c], k)];
      members := members - {info};
    }

    /** `find(begin, end, this)` for a head. */
    method Position(info: Info, ghost c: nat) returns (i: nat)
      requires |chains| == |observedObjects| && c < |chains| && observedObjects[c] == info
      requires forall d, f :: 0 <= d < |chains| && 0 <= f < |chains| && d != f ==>
        observedObjects[d] != observedObjects[f]
      ensures i == c
    {
      i := 0;
      while observedObjects[i] != info
        invariant i <= c
        decreases c - i
      {
        i := i + 1;
      }
    }

    /** `RLMGetObservationInfo` without an info: the head of the row's chain, if any. */
    method Find(row: nat) returns (info: Info?)
      requires Valid()
      ensures info != null ==> info in observedObjects && info.row == Some(row)
      ensures info == null ==> forall x :: x in members ==> x.row != Some(row)
    {
      var i := 0;
      while i < |observedObjects|
        invariant 0 <= i <= |observedObjects|
        invariant forall d :: 0 <= d < i ==> observedObjects[d].row != Some(row)
      {
        if observedObjects[i].row == Some(row) {
          return observedObjects[i];
        }
        i := i + 1;
      }
      forall x | x in members ensures x.row != Some(row) {
        var c, k := Where(x);
      }
      info := null;
    }

    lemma {:induction false} Where(x: Info) returns (c: nat, k: nat)
      requires Valid() && x in members
      ensures c < |chains| && k < |chains[c]| && chains[c][k] == x
      ensures Headed(observedObjects[c], chains[c]) && x.row == observedObjects[c].row
    {
      c :| 0 <= c < |chains| && x in chains[c];
      k :| 0 <= k < |chains[c]| && chains[c][k] == x;
      assert Headed(observedObjects[c], chains[c]);
      assert chains[c][k].row == chains[c][0].row;
    }

    /** A chain holds exactly the registered infos of its row. */
    lemma {:induction false} ChainIsRow(c: nat, x: Info)
      requires Valid() && c < |chains| && x in members
      ensures x in chains[c] <==> x.row == observedObjects[c].row
    {
      var d, k := Where(x);
      assert Headed(observedObjects[c], chains[c]);
      assert c != d ==> Apart(chains[c], chains[d]);
    }

    /** Notifying from any info of a row reaches every registered info of that row, each
        exactly once. */
    method NotifyAll(info: Info) returns (visited: seq<Info>)
      requires Valid() && info in members
      ensures NoDup(visited)
      ensures forall x :: x in visited <==> x in members && x.row == info.row
    {
      ghost var c, k := Where(info);
      visited := info.ForEach(chains[c], k);
      VisitsEachOnce(chains[c], k);
      SameContents(visited, chains[c]);
      forall x ensures x in visited <==> x in members && x.row == info.row {
        if x in members {
          ChainIsRow(c, x);
        }
        assert x in visited <==> x in multiset(visited);
        assert x in chains[c] <==> x in multiset(chains[c]);
      }
    }
  }

  // ---------- steps of the proofs ----------

  lemma {:induction false} SameContents<T>(a: seq<T>, b: seq<T>)
    requires multiset(a) == multiset(b) && NoDup(b)
    ensures NoDup(a)
  {
    forall i, j | 0 <= i < j < |a| ensures a[i] != a[j] {
      if a[i] == a[j] {
        assert a == a[..i] + [a[i]] + a[i + 1..j] + [a[j]] + a[j + 1..];
        assert multiset(a)[a[i]] >= 2;
        OnceOnly(b, a[i]);
      }
    }
  }

  lemma {:induction false} OnceOnly<T>(b: seq<T>, x: T)
    requires NoDup(b)
    ensures multiset(b)[x] <= 1
  {
    if b != [] {
      var init := b[..|b| - 1];
      assert b == init + [b[|b| - 1]];
      OnceOnly(init, x);
      if b[|b| - 1] == x {
        assert x !in init;
      }
    }
  }

  lemma {:induction false} Apartness(chains: seq<seq<Info>>, members: set<Info>, info: Info)
    requires Shape(chains, members) && info !in members
    ensures forall c :: 0 <= c < |chains| ==> info !in chains[c]
    ensures forall c, d :: 0 <= c < |chains| && 0 <= d < |chains| && c != d ==> Apart(chains[c], chains[d])
  {
  }

  lemma {:induction false} Disjoint(chains: seq<seq<Info>>, members: set<Info>, c: nat)
    requires Shape(chains, members) && c < |chains|
    ensures forall d :: 0 <= d < |chains| && d != c ==> Apart(chains[c], chains[d])
  {
  }

  lemma {:induction false} InMembers(chains: seq<seq<Info>>, members: set<Info>, c: nat)
    requires Shape(chains, members) && c < |chains|
    ensures forall x :: x in chains[c] ==> x in members
  {
  }

  lemma {:induction false} NonEmpty(chain: seq<Info>)
    requires Linked(chain)
    ensures chain != [] && NoDup(chain)
  {
  }

  lemma {:induction false} ChainEnds(chain: seq<Info>, k: nat)
    requires Linked(chain) && k < |chain|
    ensures chain[k].prev == (if k == 0 then null else chain[k - 1])
    ensures chain[k].next == (if k == |chain| - 1 then null else chain[k + 1])
    ensures |chain| > 1 ==> chain[1] != chain[0] && chain[1].row == chain[0].row
    ensures k > 0 ==> chain[k] != chain[0]
  {
  }

  lemma {:induction false} FirstLeft(chain: seq<Info>, k: nat)
    requires k < |chain| && |chain| > 1
    ensures |Without(chain, k)| == |chain| - 1 && Without(chain, k)[0] == chain[if k == 0 then 1 else 0]
  {
  }

  lemma {:induction false} ChainRow(chain: seq<Info>, j: nat)
    requires Linked(chain) && j < |chain|
    ensures chain[j].row == chain[0].row
  {
  }

  /** The heads of the other chains, and a successor of this one's, are other infos. */
  lemma {:induction false} OtherHeads(heads: seq<Info>, chains: seq<seq<Info>>, members: set<Info>, c: nat, info: Info)
    requires Shape(chains, members) && |heads| == |chains| && c < |chains| && info in chains[c]
    requires forall d :: 0 <= d < |chains| ==> chains[d] != [] && chains[d][0] == heads[d]
    ensures forall d :: 0 <= d < |chains| && d != c ==> heads[d] != info
    ensures forall d, f :: 0 <= d < |chains| && 0 <= f < |chains| && d != f ==> heads[d] != heads[f]
    ensures forall x :: x in chains[c] ==> x in members
  {
    forall d, f | 0 <= d < |chains| && 0 <= f < |chains| && d != f ensures heads[d] != heads[f] {
      assert Apart(chains[d], chains[f]);
      assert heads[d] in chains[d] && heads[f] in chains[f];
    }
    forall d | 0 <= d < |chains| && d != c ensures heads[d] != info {
      assert Apart(chains[c], chains[d]);
      assert heads[d] in chains[d];
    }
  }

  lemma {:induction false} JoinedShape(chains: seq<seq<Info>>, members: set<Info>, c: nat, info: Info)
    requires Shape(chains, members) && c < |chains| && chains[c] != [] && info !in members
    ensures Shape(chains[c := Behind(chains[c], info)], members + {info})
  {
    var now := chains[c := Behind(chains[c], info)];
    assert chains[c] == [chains[c][0]] + chains[c][1..];
    forall x ensures x in now[c] <==> x in chains[c] || x == info {
      assert info == now[c][1];
    }
    forall d, f | 0 <= d < |now| && 0 <= f < |now| && d != f ensures Apart(now[d], now[f]) {
      assert Apart(chains[d], chains[f]);
    }
    forall x | x in members + {info} ensures exists d :: 0 <= d < |now| && x in now[d] {
      if x == info {
        assert x in now[c];
      } else {
        var d :| 0 <= d < |chains| && x in chains[d];
        assert x in now[d];
      }
    }
  }

  lemma {:induction false} NewShape(chains: seq<seq<Info>>, members: set<Info>, info: Info)
    requires Shape(chains, members) && info !in members
    ensures Shape(chains + [[info]], members + {info})
  {
    var now := chains + [[info]];
    forall x | x in members + {info} ensures exists d :: 0 <= d < |now| && x in now[d] {
      if x == info {
        assert x in now[|chains|];
      } else {
        var d :| 0 <= d < |chains| && x in chains[d];
        assert x in now[d];
      }
    }
  }

  lemma {:induction false} LeftShape(chains: seq<seq<Info>>, members: set<Info>, c: nat, k: nat)
    requires Shape(chains, members) && c < |chains| && k < |chains[c]| && NoDup(chains[c])
    ensures Shape(chains[c := Without(chains[c], k)], members - {chains[c][k]})
  {
    var now, info := chains[c := Without(chains[c], k)], chains[c][k];
    forall x ensures x in now[c] <==> x in chains[c] && x != info {
      if x in chains[c] && x != info {
        var j :| 0 <= j < |chains[c]| && chains[c][j] == x;
        assert now[c][if j < k then j else j - 1] == x;
      }
      if x in now[c] {
        var j :| 0 <= j < |now[c]| && now[c][j] == x;
        assert chains[c][if j < k then j else j + 1] == x;
      }
    }
    forall d, f | 0 <= d < |now| && 0 <= f < |now| && d != f ensures Apart(now[d], now[f]) {
      assert Apart(chains[d], chains[f]);
    }
    forall d, x | 0 <= d < |now| && x in now[d] ensures x in members - {info} {
      if d != c {
        assert Apart(chains[c], chains[d]);
      }
    }
    forall x | x in members - {info} ensures exists d :: 0 <= d < |now| && x in now[d] {
      var d :| 0 <= d < |chains| && x in chains[d];
      assert x in now[d];
    }
  }

  lemma {:induction false} DroppedShape(chains: seq<seq<Info>>, members: set<Info>, c: nat, info: Info)
    requires Shape(chains, members) && c < |chains| && chains[c] == [info]
    ensures var last := |chains| - 1; Shape(chains[c := chains[last]][..last], members - {info})
  {
    var last := |chains| - 1;
    var now := chains[c := chains[last]][..last];
    forall d, f | 0 <= d < |now| && 0 <= f < |now| && d != f ensures Apart(now[d], now[f]) {
      assert Apart(chains[if d == c then last else d], chains[if f == c then last else f]);
    }
    forall d, x | 0 <= d < |now| && x in now[d] ensures x in members - {info} {
      assert Apart(chains[c], chains[if d == c then last else d]);
    }
    forall x | x in members - {info} ensures exists d :: 0 <= d < |now| && x in now[d] {
      var d :| 0 <= d < |chains| && x in chains[d];
      assert d != c;
      assert x in now[if d == last then c else d];
    }
  }
}
