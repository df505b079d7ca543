/** What the account of a list's history means, in terms of places alone: where the row at
    a place was before, whether it was modified, and whether it was moved there. */
module Histories {
  import opened Common
  import opened Changes

  function Size<T>(n: nat, c: Change<T>): nat
    requires Allowed(n, c)
  {
    match c
    case InsertRows(_, rows) => n + |rows|
    case EraseRow(_) => n - 1
    case ClearRows => 0
    case _ => n
  }

  /** Where the row that is at a place after the change was before it; none for a new row. */
  function Came<T>(n: nat, c: Change<T>, j: nat): (i: Option<nat>)
    requires Allowed(n, c) && j < Size(n, c)
    ensures i.Some? ==> i.value < n
  {
    match c
    case InsertRows(index, rows) => if j < index then Some(j) else if j < index + |rows| then None else Some(j - |rows|)
    case EraseRow(index) => Some(if j < index then j else j + 1)
    case MoveRow(from, to) =>
      if j == to then Some(from)
      else if from < to then Some(if from <= j < to then j + 1 else j)
      else Some(if to < j <= from then j - 1 else j)
    case ModifyRow(_) => Some(j)
  }

  predicate AllAllowed<T>(n: nat, cs: seq<Change<T>>)
    decreases |cs|
  {
    cs == [] || (Allowed(n, cs[0]) && AllAllowed(Size(n, cs[0]), cs[1..]))
  }

  function FinalSize<T>(n: nat, cs: seq<Change<T>>): nat
    requires AllAllowed(n, cs)
    decreases |cs|
  {
    if cs == [] then n else FinalSize(Size(n, cs[0]), cs[1..])
  }

  /** The same over a whole history. */
  function CameAll<T>(n: nat, cs: seq<Change<T>>, j: nat): (i: Option<nat>)
    requires AllAllowed(n, cs) && j < FinalSize(n, cs)
    ensures i.Some? ==> i.value < n
    decreases |cs|
  {
    if cs == [] then Some(j)
    else
      match CameAll(Size(n, cs[0]), cs[1..], j)
      case None => None
      case Some(i) => Came(n, cs[0], i)
  }

  /** The row that ends up at the place was modified on the way, where it then was. */
  predicate ModifiedAt<T>(n: nat, cs: seq<Change<T>>, j: nat)
    requires AllAllowed(n, cs) && j < FinalSize(n, cs)
    decreases |cs|
  {
    cs != [] &&
    (ModifiedAt(Size(n, cs[0]), cs[1..], j) ||
     (cs[0].ModifyRow? && CameAll(Size(n, cs[0]), cs[1..], j) == Some(cs[0].index)))
  }

  /** It was moved on the way. */
  predicate MovedAt<T>(n: nat, cs: seq<Change<T>>, j: nat)
    requires AllAllowed(n, cs) && j < FinalSize(n, cs)
    decreases |cs|
  {
    cs != [] &&
    (MovedAt(Size(n, cs[0]), cs[1..], j) ||
     (cs[0].MoveRow? && CameAll(Size(n, cs[0]), cs[1..], j) == Some(cs[0].to)))
  }

  // ---------- one change ----------

  lemma {:induction false} InsertedAt<T>(s: seq<T>, index: nat, xs: seq<T>, j: nat)
    requires index <= |s| && j < |s| + |xs|
    ensures Insert(s, index, xs)[j] == if j < index then s[j] else if j < index + |xs| then xs[j - index] else s[j - |xs|]
  {
  }

  lemma {:induction false} RelocatedAt<T>(s: seq<T>, from: nat, to: nat, x: T, j: nat)
    requires from < |s| && to < |s| && from != to && j < |s|
    ensures |Insert(Erase(s, from), to, [x])| == |s|
    ensures Insert(Erase(s, from), to, [x])[j] ==
      if j == to then x
      else if from < to then (if from <= j < to then s[j + 1] else s[j])
      else if to < j <= from then s[j - 1] else s[j]
  {
    InsertedAt(Erase(s, from), to, [x], j);
  }

  /** The list after a change, row by row. */
  lemma {:induction false} RowsAt<T>(s: seq<T>, c: Change<T>, j: nat)
    requires Allowed(|s|, c) && j < Size(|s|, c)
    ensures |Rows(s, c)| == Size(|s|, c)
    ensures match Came(|s|, c, j)
      case Some(i) => Rows(s, c)[j] == s[i]
      case None => c.InsertRows? && c.index <= j < c.index + |c.rows| && Rows(s, c)[j] == c.rows[j - c.index]
  {
    match c
    case InsertRows(index, rows) =>
      hide Insert;
      InsertedAt(s, index, rows, j);
    case MoveRow(from, to) =>
      hide Insert, Erase;
      RelocatedAt(s, from, to, s[from], j);
    case _ =>
  }

  lemma {:induction false} ItemsAt<T>(items: seq<Item>, c: Change<T>, j: nat)
    requires Allowed(|items|, c) && j < Size(|items|, c)
    ensures |Items(items, c)| == Size(|items|, c)
    ensures var x := Items(items, c)[j];
      match Came(|items|, c, j)
      case None => c.InsertRows? && x == Item(None, false, false)
      case Some(i) =>
        && x.origin == items[i].origin
        && (x.dirty <==> items[i].dirty || c == ModifyRow(j))
        && (x.moved <==> if c.MoveRow? && j == c.to then items[i].origin.Some? else items[i].moved)
  {
    match c
    case InsertRows(index, rows) =>
      hide Insert;
      InsertedAt(items, index, NewItems(|rows|), j);
    case MoveRow(from, to) =>
      hide Insert, Erase;
      RelocatedAt(items, from, to, items[from].(moved := items[from].origin.Some?), j);
    case _ =>
  }

  lemma {:induction false} ItemsSize<T>(items: seq<Item>, c: Change<T>)
    requires Allowed(|items|, c)
    ensures |Items(items, c)| == Size(|items|, c)
  {
  }

  lemma {:induction false} RunAllowed<T>(items: seq<Item>, cs: seq<Change<T>>)
    ensures AllowedRun(items, cs) <==> AllAllowed(|items|, cs)
    ensures AllowedRun(items, cs) ==> |RunItems(items, cs)| == FinalSize(|items|, cs)
    decreases |cs|
  {
    if cs != [] && Allowed(|items|, cs[0]) {
      ItemsSize(items, cs[0]);
      RunAllowed(Items(items, cs[0]), cs[1..]);
    }
  }

  // ---------- whole histories ----------

  /** What the history says of the row at the end at a place, given what was known of the
      rows before. */
  ghost predicate Told<T>(items: seq<Item>, cs: seq<Change<T>>, j: nat, x: Item)
    requires AllAllowed(|items|, cs) && j < FinalSize(|items|, cs)
  {
    var i := CameAll(|items|, cs, j);
    && x.origin == (if i.Some? then items[i.value].origin else None)
    && (x.dirty <==> ModifiedAt(|items|, cs, j) || (i.Some? && items[i.value].dirty))
    && (x.moved <==> (x.origin.Some? && MovedAt(|items|, cs, j)) || (i.Some? && items[i.value].moved))
  }

  lemma {:induction false} RunTold<T>(items: seq<Item>, cs: seq<Change<T>>, j: nat)
    requires AllowedRun(items, cs) && (forall k :: 0 <= k < |items| && items[k].moved ==> items[k].origin.Some?)
    requires AllAllowed(|items|, cs) && j < FinalSize(|items|, cs)
    ensures |RunItems(items, cs)| == FinalSize(|items|, cs) && Told(items, cs, j, RunItems(items, cs)[j])
    decreases |cs|
  {
    hide Items, Rows, Came;
    if cs != [] {
      var c := cs[0];
      var now := Items(items, c);
      ItemsSize(items, c);
      forall k | 0 <= k < |now| && now[k].moved ensures now[k].origin.Some? {
        ItemsAt(items, c, k);
      }
      RunTold(now, cs[1..], j);
      var i := CameAll(|now|, cs[1..], j);
      if i.Some? {
        ItemsAt(items, c, i.value);
        var k := Came(|items|, c, i.value);
        assert k.Some? && items[k.value].moved ==> items[k.value].origin.Some?;
      }
    }
  }

  /** The account of a list's history: which row it was in the beginning, whether it was
      modified on the way, and whether it was moved. */
  lemma {:induction false} HistoryTold<T>(n: nat, cs: seq<Change<T>>, j: nat)
    requires AllAllowed(n, cs) && j < FinalSize(n, cs)
    ensures AllowedRun(OldItems(n), cs) && |RunItems(OldItems(n), cs)| == FinalSize(n, cs)
    ensures RunItems(OldItems(n), cs)[j] ==
      Item(CameAll(n, cs, j), CameAll(n, cs, j).Some? && MovedAt(n, cs, j), ModifiedAt(n, cs, j))
  {
    RunAllowed(OldItems(n), cs);
    RunTold(OldItems(n), cs, j);
  }

  /** The account says of every row where it was in the beginning and whether it was
      modified, and calls no row moved that was not. */
  ghost predicate Tells<T>(n: nat, cs: seq<Change<T>>, items: seq<Item>) {
    AllAllowed(n, cs) && |items| == FinalSize(n, cs) &&
    forall j :: 0 <= j < |items| ==>
      && items[j].origin == CameAll(n, cs, j)
      && (items[j].dirty <==> ModifiedAt(n, cs, j))
      && (items[j].moved ==> items[j].origin.Some? && MovedAt(n, cs, j))
  }

  lemma {:induction false} SettledTells<T>(n: nat, cs: seq<Change<T>>, items: seq<Item>)
    requires AllowedRun(OldItems(n), cs) && Settled(RunItems(OldItems(n), cs), items)
    ensures Tells(n, cs, items)
  {
    RunAllowed(OldItems(n), cs);
    forall j | 0 <= j < |items|
      ensures items[j].origin == CameAll(n, cs, j) && (items[j].dirty <==> ModifiedAt(n, cs, j))
      ensures items[j].moved ==> items[j].origin.Some? && MovedAt(n, cs, j)
    {
      HistoryTold(n, cs, j);
    }
  }
}
