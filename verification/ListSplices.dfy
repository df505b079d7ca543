/** `List`'s splicing operations: loops of single insertions and removals, each of
    which may raise an exception and leave what was done before it. */
module ListSplices {

  /** How a call ends: it returns, an exception is raised, or a range is malformed. */
  datatype Ending = Returned | Raised | Trapped

  datatype Result<T> = Result(items: seq<T>, ending: Ending)

  // ---------- what the operations should do ----------

  /** Removing `lo..hi` by removing at `lo` as often as the range is long. */
  function Cut<T>(s: seq<T>, lo: int, hi: int): Result<T>
    requires lo <= hi
  {
    if lo == hi then Result(s, Returned)
    else if lo < 0 || lo >= |s| then Result(s, Raised)
    else if hi <= |s| then Result(s[..lo] + s[hi..], Returned)
    else Result(s[..lo], Raised)
  }

  /** Inserting the elements at `i` in their order. */
  function Put<T>(s: seq<T>, i: int, xs: seq<T>): Result<T> {
    if xs == [] then Result(s, Returned)
    else if i < 0 || i > |s| then Result(s, Raised)
    else Result(s[..i] + xs + s[i..], Returned)
  }

  function Splice<T>(s: seq<T>, lo: int, hi: int, xs: seq<T>): Result<T>
    requires lo <= hi
  {
    var cut := Cut(s, lo, hi);
    if cut.ending.Returned? then Put(cut.items, lo, xs) else cut
  }

  /** For a range within the list: prefix, new elements, suffix. */
  lemma {:induction false} SpliceWithin<T>(s: seq<T>, lo: nat, hi: nat, xs: seq<T>)
    requires lo <= hi <= |s|
    ensures Splice(s, lo, hi, xs) == Result(s[..lo] + xs + s[hi..], Returned)
  {
  }

  /** Replacing back undoes a replacement. */
  lemma {:induction false} SpliceUndo<T>(s: seq<T>, lo: nat, hi: nat, xs: seq<T>)
    requires lo <= hi <= |s|
    ensures Splice(Splice(s, lo, hi, xs).items, lo, lo + |xs|, s[lo..hi]) == Result(s, Returned)
  {
  }

  /** Replacements of ranges that do not overlap commute, the later one shifted. */
  lemma {:induction false} SplicesCommute<T>(s: seq<T>, a: nat, b: nat, xs: seq<T>, c: nat, d: nat, ys: seq<T>)
    requires a <= b <= c <= d <= |s|
    ensures var shift := |xs| - (b - a);
      Splice(Splice(s, a, b, xs).items, c + shift, d + shift, ys) == Splice(Splice(s, c, d, ys).items, a, b, xs)
  {
    var shift := |xs| - (b - a);
    SpliceWithin(s, a, b, xs);
    SpliceWithin(s, c, d, ys);
    var first, second := s[..a] + xs + s[b..], s[..c] + ys + s[d..];
    SpliceWithin(first, c + shift, d + shift, ys);
    SpliceWithin(second, a, b, xs);
    assert first[..c + shift] == s[..a] + xs + s[b..c];
    assert first[d + shift..] == s[d..];
    assert second[..a] == s[..a] && second[b..] == s[b..c] + ys + s[d..];
    assert s[..a] + xs + s[b..c] + ys + s[d..] == s[..a] + xs + (s[b..c] + ys + s[d..]);
  }

  // ---------- the list ----------

  class List<T> {
    var items: seq<T>

    method InsertAt(x: T, index: int) returns (e: Ending)
      modifies this
      ensures Result(items, e) == Put(old(items), index, [x])
    {
      if index < 0 || index > |items| {
        return Raised;
      }
      items := items[..index] + [x] + items[index..];
      e := Returned;
    }

    method RemoveAt(index: int) returns (e: Ending)
      modifies this
      ensures Result(items, e) == Cut(old(items), index, index + 1)
    {
      if index < 0 || index >= |items| {
        return Raised;
      }
      items := items[..index] + items[index + 1..];
      e := Returned;
    }

    /** Repeated removal at the lower bound, then repeated insertion there in reverse. */
    method ReplaceSubrange(lo: int, hi: int, newElements: seq<T>) returns (e: Ending)
      requires lo <= hi
      modifies this
      ensures Result(items, e) == Splice(old(items), lo, hi, newElements)
    {
      e := RemoveSubrange(lo, hi);
      if !e.Returned? {
        return;
      }
      ghost var base := items;
      var k := |newElements|;
      while k > 0
        invariant 0 <= k <= |newElements|
        invariant k < |newElements| ==> 0 <= lo <= |base| && items == base[..lo] + newElements[k..] + base[lo..]
        invariant k == |newElements| ==> items == base
      {
        e := InsertAt(newElements[k - 1], lo);
        if e.Raised? {
          return;
        }
        Prepended(base, lo, newElements, k);
        k := k - 1;
      }
      assert newElements[0..] == newElements;
      e := Returned;
    }

    /** The other form: removal, then insertion of the contents. */
    method ReplaceByContents(lo: int, hi: int, newElements: seq<T>) returns (e: Ending)
      requires lo <= hi
      modifies this
      ensures Result(items, e) == Splice(old(items), lo, hi, newElements)
    {
      e := RemoveSubrange(lo, hi);
      if e.Returned? {
        e := InsertContentsOf(newElements, lo);
      }
    }

    method RemoveSubrange(lo: int, hi: int) returns (e: Ending)
      requires lo <= hi
      modifies this
      ensures Result(items, e) == Cut(old(items), lo, hi)
    {
      var k := lo;
      while k < hi
        invariant lo <= k <= hi
        invariant k > lo ==> 0 <= lo && k <= |old(items)|
        invariant items == if k == lo then old(items) else old(items)[..lo] + old(items)[k..]
      {
        e := RemoveAt(lo);
        if e.Raised? {
          return;
        }
        k := k + 1;
      }
      e := Returned;
    }

    method InsertContentsOf(newElements: seq<T>, i: int) returns (e: Ending)
      modifies this
      ensures Result(items, e) == Put(old(items), i, newElements)
    {
      var currentIndex, k := i, 0;
      while k < |newElements|
        invariant 0 <= k <= |newElements| && currentIndex == i + k
        invariant k == 0 ==> items == old(items)
        invariant k > 0 ==> 0 <= i <= |old(items)| && items == old(items)[..i] + newElements[..k] + old(items)[i..]
      {
        e := InsertAt(newElements[k], currentIndex);
        if e.Raised? {
          return;
        }
        Appended(old(items), i, newElements, k);
        currentIndex := currentIndex + 1;
        k := k + 1;
      }
      assert newElements[..k] == newElements;
      e := Returned;
    }

    /** A negative number makes the loop's range malformed. */
    method RemoveFirst(number: int) returns (e: Ending)
      modifies this
      ensures number > |old(items)| ==> e.Raised? && items == old(items)
      ensures number < 0 ==> e.Trapped? && items == old(items)
      ensures 0 <= number <= |old(items)| ==> e.Returned? && items == old(items)[number..]
    {
      if number > |items| {
        return Raised;
      }
      if number < 0 {
        return Trapped;
      }
      var k := 0;
      while k < number
        invariant 0 <= k <= number && items == old(items)[k..]
      {
        var removed := RemoveAt(0);
        k := k + 1;
      }
      e := Returned;
    }

    method RemoveLast(number: int) returns (e: Ending)
      modifies this
      ensures number > |old(items)| ==> e.Raised? && items == old(items)
      ensures number < 0 ==> e.Trapped? && items == old(items)
      ensures 0 <= number <= |old(items)| ==> e.Returned? && items == old(items)[..|old(items)| - number]
    {
      if number > |items| {
        return Raised;
      }
      if number < 0 {
        return Trapped;
      }
      var k := 0;
      while k < number
        invariant 0 <= k <= number && items == old(items)[..|old(items)| - k]
      {
        RemoveLastObject();
        k := k + 1;
      }
      e := Returned;
    }

    /** Does nothing on an empty list. */
    method RemoveLastObject()
      modifies this
      ensures items == if old(items) == [] then [] else old(items)[..|old(items)| - 1]
    {
      if |items| > 0 {
        var removed := RemoveAt(|items| - 1);
      }
    }
  }

  lemma {:induction false} Prepended<T>(base: seq<T>, lo: int, xs: seq<T>, k: int)
    requires 0 < k <= |xs| && 0 <= lo <= |base|
    ensures var now := if k == |xs| then base else base[..lo] + xs[k..] + base[lo..];
      lo <= |now| && now[..lo] + [xs[k - 1]] + now[lo..] == base[..lo] + xs[k - 1..] + base[lo..]
  {
  }

  lemma {:induction false} Appended<T>(base: seq<T>, i: int, xs: seq<T>, k: int)
    requires 0 <= k < |xs| && 0 <= i <= |base|
    ensures var now := if k == 0 then base else base[..i] + xs[..k] + base[i..];
      i + k <= |now| && now[..i + k] + [xs[k]] + now[i + k..] == base[..i] + xs[..k + 1] + base[i..]
  {
  }
}
