/** The changes of a table (`CollectionChangeBuilder` with `m_move_mapping`): rows are added
    at the end, a deleted row is replaced by the last one, two rows are swapped. */
module TableChanges {
  import opened Common
  import opened Ranges
  import opened Chunks
  import opened RangeOps
  import opened IndexSets
  import opened IndexCounts
  import opened SetOperations
  import opened Changes
  import opened Merges
  import opened ChangeBuilder
  import opened Pairings

  // ---------- histories of a table ----------

  datatype TableStep = Append | Touch(row: nat) | MoveLastOver(row: nat) | SwapRows(row: nat, other: nat)

  predicate Fits(step: TableStep, n: nat) {
    match step
    case Append => true
    case Touch(row) => row < n
    case MoveLastOver(row) => row < n
    case SwapRows(row, other) => row < n && other < n && row != other
  }

  function Relocated(item: Item): Item {
    if item.origin.Some? then item.(moved := true) else item
  }

  /** The account of the rows after a step. */
  function After(items: seq<Item>, step: TableStep): seq<Item>
    requires Fits(step, |items|)
  {
    match step
    case Append => items + [Item(None, false, false)]
    case Touch(row) => items[row := items[row].(dirty := true)]
    case MoveLastOver(row) => Shrunk(items, row)
    case SwapRows(row, other) => items[row := Relocated(items[other])][other := Relocated(items[row])]
  }

  function Shrunk(items: seq<Item>, row: nat): seq<Item>
    requires row < |items|
  {
    var last := |items| - 1;
    if row == last then items[..last] else items[row := Relocated(items[last])][..last]
  }

  predicate AllFit(items: seq<Item>, steps: seq<TableStep>)
    decreases |steps|
  {
    steps == [] || (Fits(steps[0], |items|) && AllFit(After(items, steps[0]), steps[1..]))
  }

  function AfterAll(items: seq<Item>, steps: seq<TableStep>): seq<Item>
    requires AllFit(items, steps)
    decreases |steps|
  {
    if steps == [] then items else AfterAll(After(items, steps[0]), steps[1..])
  }

  /** A row that is back where it was counts as one that stayed. */
  function Homed(item: Item, j: nat): Item {
    if item.moved && item.origin == Some(j) then item.(moved := false) else item
  }

  function Home(items: seq<Item>): (r: seq<Item>)
    ensures |r| == |items| && forall j :: 0 <= j < |r| ==> r[j] == Homed(items[j], j)
  {
    seq(|items|, j requires 0 <= j < |items| => Homed(items[j], j))
  }

  // ---------- what the account means for the table ----------

  /** The table itself. */
  function Contents<T>(rows: seq<T>, step: TableStep, added: T): seq<T>
    requires Fits(step, |rows|)
  {
    match step
    case Append => rows + [added]
    case Touch(_) => rows
    case MoveLastOver(row) => rows[row := rows[|rows| - 1]][..|rows| - 1]
    case SwapRows(row, other) => rows[row := rows[other]][other := rows[row]]
  }

  function Length(n: nat, step: TableStep): nat
    requires Fits(step, n)
  {
    match step
    case Append => n + 1
    case MoveLastOver(_) => n - 1
    case _ => n
  }

  /** Where the row that is at a place after the step was before it; none for a new row. */
  function Origin(n: nat, step: TableStep, j: nat): (i: Option<nat>)
    requires Fits(step, n) && j < Length(n, step)
    ensures i.Some? ==> i.value < n
  {
    match step
    case Append => if j == n then None else Some(j)
    case Touch(_) => Some(j)
    case MoveLastOver(row) => Some(if j == row then n - 1 else j)
    case SwapRows(row, other) => Some(if j == row then other else if j == other then row else j)
  }

  predicate AllPossible(n: nat, steps: seq<TableStep>)
    decreases |steps|
  {
    steps == [] || (Fits(steps[0], n) && AllPossible(Length(n, steps[0]), steps[1..]))
  }

  function FinalLength(n: nat, steps: seq<TableStep>): nat
    requires AllPossible(n, steps)
    decreases |steps|
  {
    if steps == [] then n else FinalLength(Length(n, steps[0]), steps[1..])
  }

  function FirstOrigin(n: nat, steps: seq<TableStep>, j: nat): (i: Option<nat>)
    requires AllPossible(n, steps) && j < FinalLength(n, steps)
    ensures i.Some? ==> i.value < n
    decreases |steps|
  {
    if steps == [] then Some(j)
    else
      match FirstOrigin(Length(n, steps[0]), steps[1..], j)
      case None => None
      case Some(i) => Origin(n, steps[0], i)
  }

  /** The row that ends up at the place was touched on the way, where it then was. */
  predicate TouchedAt(n: nat, steps: seq<TableStep>, j: nat)
    requires AllPossible(n, steps) && j < FinalLength(n, steps)
    decreases |steps|
  {
    steps != [] &&
    (TouchedAt(Length(n, steps[0]), steps[1..], j) ||
     (steps[0].Touch? && FirstOrigin(Length(n, steps[0]), steps[1..], j) == Some(steps[0].row)))
  }

  /** It came to another place on the way. */
  predicate PutAt(n: nat, steps: seq<TableStep>, j: nat)
    requires AllPossible(n, steps) && j < FinalLength(n, steps)
    decreases |steps|
  {
    steps != [] &&
    (PutAt(Length(n, steps[0]), steps[1..], j) ||
     (var i := FirstOrigin(Length(n, steps[0]), steps[1..], j);
      i.Some? && Origin(n, steps[0], i.value).Some? && Origin(n, steps[0], i.value) != i))
  }

  function ContentsAll<T>(rows: seq<T>, steps: seq<TableStep>, added: T): seq<T>
    requires AllPossible(|rows|, steps)
    decreases |steps|
  {
    if steps == [] then rows
    else
      ContentsSize(rows, steps[0], added);
      ContentsAll(Contents(rows, steps[0], added), steps[1..], added)
  }

  lemma {:induction false} ContentsSize<T>(rows: seq<T>, step: TableStep, added: T)
    requires Fits(step, |rows|)
    ensures |Contents(rows, step, added)| == Length(|rows|, step)
  {
  }

  /** The table after a step, row by row. */
  lemma {:induction false} ContentsAt<T>(rows: seq<T>, step: TableStep, added: T, j: nat)
    requires Fits(step, |rows|) && j < Length(|rows|, step)
    ensures |Contents(rows, step, added)| == Length(|rows|, step)
    ensures Contents(rows, step, added)[j] == match Origin(|rows|, step, j) case Some(i) => rows[i] case None => added
  {
  }

  lemma {:induction false} AfterAt(items: seq<Item>, step: TableStep, j: nat)
    requires Fits(step, |items|) && j < Length(|items|, step)
    ensures |After(items, step)| == Length(|items|, step)
    ensures var x := After(items, step)[j];
      match Origin(|items|, step, j)
      case None => !step.Touch? && x == Item(None, false, false)
      case Some(i) =>
        && x.origin == items[i].origin
        && (x.dirty <==> items[i].dirty || step == Touch(j))
        && (x.moved <==> items[i].moved || (i != j && items[i].origin.Some?))
  {
  }

  lemma {:induction false} AfterSize(items: seq<Item>, step: TableStep)
    requires Fits(step, |items|)
    ensures |After(items, step)| == Length(|items|, step)
  {
  }

  lemma {:induction false} FitIffPossible(items: seq<Item>, steps: seq<TableStep>)
    ensures AllFit(items, steps) <==> AllPossible(|items|, steps)
    ensures AllFit(items, steps) ==> |AfterAll(items, steps)| == FinalLength(|items|, steps)
    decreases |steps|
  {
    if steps != [] && Fits(steps[0], |items|) {
      AfterSize(items, steps[0]);
      FitIffPossible(After(items, steps[0]), steps[1..]);
    }
  }

  lemma {:induction false} AfterAllAt(items: seq<Item>, steps: seq<TableStep>, j: nat)
    requires AllFit(items, steps) && (forall k :: 0 <= k < |items| && items[k].moved ==> items[k].origin.Some?)
    requires AllPossible(|items|, steps) && j < FinalLength(|items|, steps)
    ensures |AfterAll(items, steps)| == FinalLength(|items|, steps)
    ensures var x, i := AfterAll(items, steps)[j], FirstOrigin(|items|, steps, j);
      && x.origin == (if i.Some? then items[i.value].origin else None)
      && (x.dirty <==> TouchedAt(|items|, steps, j) || (i.Some? && items[i.value].dirty))
      && (x.moved <==> (x.origin.Some? && PutAt(|items|, steps, j)) || (i.Some? && items[i.value].moved))
    decreases |steps|
  {
    hide After, Origin;
    if steps != [] {
      var step := steps[0];
      var now := After(items, step);
      AfterSize(items, step);
      forall k | 0 <= k < |now| && now[k].moved ensures now[k].origin.Some? {
        AfterAt(items, step, k);
      }
      AfterAllAt(now, steps[1..], j);
      var i := FirstOrigin(|now|, steps[1..], j);
      if i.Some? {
        AfterAt(items, step, i.value);
        var k := Origin(|items|, step, i.value);
        assert k.Some? && items[k.value].moved ==> items[k.value].origin.Some?;
      }
    }
  }

  lemma {:induction false} ContentsAllAt<T>(rows: seq<T>, steps: seq<TableStep>, added: T, j: nat)
    requires AllPossible(|rows|, steps) && j < FinalLength(|rows|, steps)
    ensures |ContentsAll(rows, steps, added)| == FinalLength(|rows|, steps)
    ensures ContentsAll(rows, steps, added)[j] ==
      match FirstOrigin(|rows|, steps, j) case Some(i) => rows[i] case None => added
    decreases |steps|
  {
    hide Contents, Origin;
    if steps != [] {
      ContentsSize(rows, steps[0], added);
      ContentsAllAt(Contents(rows, steps[0], added), steps[1..], added, j);
      var i := FirstOrigin(Length(|rows|, steps[0]), steps[1..], j);
      if i.Some? {
        ContentsAt(rows, steps[0], added, i.value);
      }
    }
  }

  /** The account says of every row where it was in the beginning, calls those moved that
      came to another place and are not back, and those modified that were touched. */
  ghost predicate TableTells(n: nat, steps: seq<TableStep>, items: seq<Item>) {
    AllPossible(n, steps) && |items| == FinalLength(n, steps) &&
    forall j :: 0 <= j < |items| ==>
      && items[j].origin == FirstOrigin(n, steps, j)
      && (items[j].dirty <==> TouchedAt(n, steps, j))
      && (items[j].moved <==> items[j].origin.Some? && items[j].origin != Some(j) && PutAt(n, steps, j))
  }

  lemma {:induction false} HomeTells(n: nat, steps: seq<TableStep>)
    requires AllFit(OldItems(n), steps)
    ensures TableTells(n, steps, Home(AfterAll(OldItems(n), steps)))
  {
    FitIffPossible(OldItems(n), steps);
    var items := AfterAll(OldItems(n), steps);
    forall j | 0 <= j < |items|
      ensures items[j] == Item(FirstOrigin(n, steps, j), FirstOrigin(n, steps, j).Some? && PutAt(n, steps, j), TouchedAt(n, steps, j))
    {
      AfterAllAt(OldItems(n), steps, j);
    }
  }

  /** Such an account is true of the table, whatever is in it. */
  lemma {:induction false} TellsTracks<T>(rows: seq<T>, steps: seq<TableStep>, added: T, items: seq<Item>)
    requires TableTells(|rows|, steps, items)
    ensures Tracks(rows, ContentsAll(rows, steps, added), items)
  {
    if items == [] {
      ContentsAllSize(rows, steps, added);
    }
    forall j | 0 <= j < |items|
      ensures |ContentsAll(rows, steps, added)| == |items|
      ensures items[j].origin.Some? ==> items[j].origin.value < |rows| && ContentsAll(rows, steps, added)[j] == rows[items[j].origin.value]
    {
      ContentsAllAt(rows, steps, added, j);
    }
  }

  lemma {:induction false} ContentsAllSize<T>(rows: seq<T>, steps: seq<TableStep>, added: T)
    requires AllPossible(|rows|, steps)
    ensures |ContentsAll(rows, steps, added)| == FinalLength(|rows|, steps)
    decreases |steps|
  {
    if steps != [] {
      ContentsSize(rows, steps[0], added);
      ContentsAllSize(Contents(rows, steps[0], added), steps[1..], added);
    }
  }

  // ---------- what a table's change set is like ----------

  /** Rows that have not been moved are where they were. */
  ghost predicate AtHome(n: nat, items: seq<Item>) {
    && (forall j :: 0 <= j < |items| && !Placed(items[j]) ==> items[j].origin == Some(j))
    && (forall j :: 0 <= j < |items| && items[j].moved ==> items[j].origin.Some?)
    && (forall j :: 0 <= j < |items| && items[j].origin.Some? ==> items[j].origin.value < n)
    && OriginsDistinct(items)
  }

  /** Deleted are the places that another row, a new one or none has taken. */
  ghost predicate Gone(n: nat, items: seq<Item>, del: seq<Range>) {
    forall x {:trigger In(del, x)} :: In(del, x) <==> 0 <= x < n && (x >= |items| || Placed(items[x]))
  }

  /** The move mapping leads from each moved row to where it was. */
  ghost predicate Mapped(items: seq<Item>, m: map<nat, nat>) {
    && (forall k: nat {:trigger k in m} :: k in m <==> k < |items| && items[k].moved)
    && (forall k: nat :: k in m && k < |items| ==> items[k].origin == Some(m[k]))
  }

  lemma {:induction false} SameRank(del: seq<Range>, ins: seq<Range>, x: nat)
    requires Ordered(del) && Ordered(ins) && forall y {:trigger In(del, y)} :: 0 <= y < x ==> (In(del, y) <==> In(ins, y))
    ensures Rank(del, x) == Rank(ins, x)
    decreases x
  {
    if x == 0 {
      RankZero(del);
      RankZero(ins);
    } else {
      SameRank(del, ins, x - 1);
      CountStep(del, x - 1);
      CountStep(ins, x - 1);
    }
  }

  lemma {:induction false} FullRank(rs: seq<Range>, x: nat, y: nat)
    requires Ordered(rs) && x <= y && forall z {:trigger In(rs, z)} :: x <= z < y ==> In(rs, z)
    ensures Rank(rs, x) == Rank(rs, y)
    decreases y
  {
    if x < y {
      FullRank(rs, x, y - 1);
      CountStep(rs, y - 1);
    }
  }

  lemma {:induction false} TableTally(n: nat, items: seq<Item>, del: seq<Range>, ins: seq<Range>)
    requires Ordered(del) && Ordered(ins) && AtHome(n, items) && Gone(n, items, del) && Inserted(items, ins)
    ensures Tally(n, items, del, ins) && Sources(items, del)
  {
    hide In, Rank, OriginsDistinct, Placed;
    var m := if n < |items| then n else |items|;
    forall x: nat | x <= m ensures Rank(del, x) == Rank(ins, x) {
      SameRank(del, ins, x);
    }
    forall x {:trigger In(ins, x)} | n <= x < |items| ensures In(ins, x) {
      assert !Placed(items[x]) ==> items[x].origin == Some(x);
      PlacedMeans(items[x]);
    }
    FullRank(del, m, n);
    FullRank(ins, m, |items|);
    forall j | 0 <= j < |items| && !Placed(items[j]) ensures Stayed(n, items[j], j, del, ins) {
      PlacedMeans(items[j]);
    }
    TableSources(n, items, del);
  }

  lemma {:induction false} PlacedMeans(item: Item)
    ensures !Placed(item) ==> item.origin.Some? && !item.moved
  {
  }

  lemma {:induction false} TableSources(n: nat, items: seq<Item>, del: seq<Range>)
    requires AtHome(n, items) && Gone(n, items, del)
    ensures Sources(items, del)
  {
    hide In;
    forall j | 0 <= j < |items| && items[j].moved ensures items[j].origin.Some? && In(del, items[j].origin.value) {
      var o := items[j].origin.value;
      assert o < |items| && items[o].origin == items[j].origin ==> o == j;
    }
  }

  lemma {:induction false} RowFound(n: nat, items: seq<Item>, del: seq<Range>, ins: seq<Range>, row: nat, s: nat)
    requires Ordered(del) && Ordered(ins) && AtHome(n, items) && Gone(n, items, del) && Inserted(items, ins)
    requires row < |items| && !Placed(items[row]) && IsShifted(del, Rank(ins, row), s)
    ensures s == row
  {
    hide In, Rank, IsShifted;
    TableTally(n, items, del, ins);
    OriginFound(n, items, del, ins, row, s);
  }

  // ---------- what each step does to the sets ----------

  /** Deletions and insertions of a table whose rows at some places were replaced. */
  ghost predicate Replaced(was: seq<Item>, row: nat, del: seq<Range>, ins: seq<Range>, del': seq<Range>, ins': seq<Range>)
    requires row < |was|
  {
    && (forall x {:trigger In(del', x)} :: In(del', x) <==> In(del, x) || (x == row && !Placed(was[row])))
    && (forall x {:trigger In(ins', x)} :: In(ins', x) <==> In(ins, x) || x == row)
  }

  lemma {:induction false} AppendKeeps(n: nat, items: seq<Item>, del: seq<Range>, ins: seq<Range>, mods: seq<Range>,
                                       m: map<nat, nat>, ins': seq<Range>, mods': seq<Range>)
    requires AtHome(n, items) && Gone(n, items, del) && Inserted(items, ins) && Modified(items, mods) && Mapped(items, m)
    requires InsertSpec(ins, ins', |items|, 1) && PartSpec(mods, mods', |items|, 1)
    ensures var now := items + [Item(None, false, false)];
      AtHome(n, now) && Gone(n, now, del) && Inserted(now, ins') && Modified(now, mods') && Mapped(now, m)
  {
    hide In;
    var now := items + [Item(None, false, false)];
    forall x {:trigger In(ins', x)} ensures In(ins', x) <==> 0 <= x < |now| && Placed(now[x]) {
      assert In(ins, x - 1) ==> x - 1 < |items|;
    }
    forall x {:trigger In(mods', x)} ensures In(mods', x) <==> 0 <= x < |now| && now[x].dirty {
      assert In(mods, x - 1) ==> x - 1 < |items|;
    }
    forall x {:trigger In(del, x)} ensures In(del, x) <==> 0 <= x < n && (x >= |now| || Placed(now[x])) {
    }
  }

  lemma {:induction false} TouchKeeps(n: nat, items: seq<Item>, del: seq<Range>, ins: seq<Range>, m: map<nat, nat>, row: nat)
    requires AtHome(n, items) && Gone(n, items, del) && Inserted(items, ins) && Mapped(items, m) && row < |items|
    ensures var now := items[row := items[row].(dirty := true)];
      AtHome(n, now) && Gone(n, now, del) && Inserted(now, ins) && Mapped(now, m)
  {
    hide In;
  }

  /** The last row taken out. */
  lemma {:induction false} DropLast(n: nat, items: seq<Item>, del: seq<Range>, ins: seq<Range>, del': seq<Range>, ins': seq<Range>)
    requires AtHome(n, items) && Gone(n, items, del) && Inserted(items, ins) && items != []
    requires if Placed(items[|items| - 1]) then del' == del else AddSpec(del, del', |items| - 1)
    requires RemoveSpec(ins, ins', |items| - 1, 1)
    ensures var now := items[..|items| - 1]; AtHome(n, now) && Gone(n, now, del') && Inserted(now, ins')
  {
    hide In;
    var last := |items| - 1;
    var now := items[..last];
    assert !Placed(items[last]) ==> items[last].origin == Some(last) && last < n;
  }

  /** A row moved into the place of another one, which is gone. */
  lemma {:induction false} Replace(n: nat, items: seq<Item>, row: nat, x: Item, del: seq<Range>, ins: seq<Range>,
                                 del': seq<Range>, ins': seq<Range>)
    requires AtHome(n, items) && Gone(n, items, del) && Inserted(items, ins) && row < |items|
    requires Placed(x) && (x.moved ==> x.origin.Some?) && (x.origin.Some? ==> x.origin.value < n)
    requires x.origin.Some? ==> forall j :: 0 <= j < |items| && j != row ==> items[j].origin != x.origin
    requires Replaced(items, row, del, ins, del', ins')
    ensures var now := items[row := x]; AtHome(n, now) && Gone(n, now, del') && Inserted(now, ins')
  {
    hide In;
  }

  /** Moved rows and the mapping after the last row was taken out or put elsewhere. */
  lemma {:induction false} ShrunkMapped(items: seq<Item>, row: nat, m: map<nat, nat>, m': map<nat, nat>)
    requires Mapped(items, m) && row < |items| - 1
    requires forall k: nat {:trigger k in m'} :: k != row ==> (k in m' <==> k in m && k != |items| - 1) && (k in m' ==> m'[k] == m[k])
    requires row in m' <==> items[|items| - 1].origin.Some?
    requires row in m' ==> items[|items| - 1].origin == Some(m'[row])
    requires items[|items| - 1].moved ==> items[|items| - 1].origin.Some?
    ensures Mapped(Shrunk(items, row), m')
  {
  }

  lemma {:induction false} SwappedMapped(items: seq<Item>, a: nat, b: nat, m: map<nat, nat>, m': map<nat, nat>)
    requires Mapped(items, m) && a < |items| && b < |items| && a != b
    requires forall k: nat {:trigger k in m'} :: k != a && k != b ==> (k in m' <==> k in m) && (k in m' ==> m'[k] == m[k])
    requires (a in m' <==> items[b].origin.Some?) && (a in m' ==> items[b].origin == Some(m'[a]))
    requires (b in m' <==> items[a].origin.Some?) && (b in m' ==> items[a].origin == Some(m'[b]))
    requires (items[a].moved ==> items[a].origin.Some?) && (items[b].moved ==> items[b].origin.Some?)
    ensures Mapped(After(items, SwapRows(a, b)), m')
  {
  }

  // ---------- the change builder of a table ----------

  class TableChangeBuilder {
    const changes: CollectionChangeBuilder
    var moveMapping: map<nat, nat>

    ghost predicate Sets()
      reads this, changes, changes.deletions.vec, changes.insertions.vec, changes.modifications.vec
    {
      changes.Separate() && changes.SetsValid()
    }

    /** The sets and the mapping say exactly what the account says. */
    ghost predicate Valid()
      reads this, changes, changes.deletions.vec, changes.insertions.vec, changes.modifications.vec
    {
      && Sets() && changes.moves == [] && Stands(changes.items)
      && Modified(changes.items, changes.modifications.Rs()) && Mapped(changes.items, moveMapping)
    }

    ghost predicate Stands(items: seq<Item>)
      reads this, changes, changes.deletions.vec, changes.insertions.vec
    {
      && AtHome(changes.oldSize, items) && Gone(changes.oldSize, items, changes.deletions.Rs())
      && Inserted(items, changes.insertions.Rs())
    }

    constructor (ghost size: nat)
      ensures Valid() && fresh(changes) && changes.oldSize == size && changes.items == OldItems(size)
      ensures fresh(changes.deletions.vec) && fresh(changes.insertions.vec) && fresh(changes.modifications.vec)
    {
      changes := new CollectionChangeBuilder(size);
      moveMapping := map[];
    }

    /** `insert` at the end. */
    method Append(size: nat)
      requires Valid() && size == |changes.items|
      modifies changes`items, changes.insertions.vec, changes.modifications.vec
      ensures Valid() && changes.items == After(old(changes.items), TableStep.Append)
    {
      hide AtHome, Gone, Inserted, Modified, Mapped, InsertSpec, PartSpec, Separated, ChunksOk;
      ghost var ins, mods := changes.insertions.Rs(), changes.modifications.Rs();
      changes.modifications.ShiftForInsertAt(size, 1);
      changes.insertions.InsertAt(size, 1);
      AppendKeeps(changes.oldSize, changes.items, changes.deletions.Rs(), ins, mods, moveMapping, changes.insertions.Rs(),
                  changes.modifications.Rs());
      changes.items := changes.items + [Item(None, false, false)];
    }

    /** `modify`. */
    method Touch(row: nat)
      requires Valid() && row < |changes.items|
      modifies changes`items, changes.modifications.vec
      ensures Valid() && changes.items == After(old(changes.items), TableStep.Touch(row))
    {
      hide AtHome, Gone, Inserted, Modified, Mapped, AddSpec, Separated, ChunksOk;
      ghost var mods := changes.modifications.Rs();
      changes.modifications.Add(row);
      TouchKeeps(changes.oldSize, changes.items, changes.deletions.Rs(), changes.insertions.Rs(), moveMapping, row);
      MarkedModified(changes.items, mods, row, changes.modifications.Rs());
      changes.items := changes.items[row := changes.items[row].(dirty := true)];
    }

    /** `deletions.add_shifted(insertions.unshift(row))`: for a row that stayed, its own
        place. */
    method DeleteRow(ghost items: seq<Item>, row: nat) returns (shifted: nat)
      requires Sets() && Stands(items) && row < |items| && !Placed(items[row])
      modifies changes.deletions.vec
      ensures Sets() && shifted == row && AddSpec(old(changes.deletions.Rs()), changes.deletions.Rs(), row)
    {
      hide AtHome, Gone, Separated, ChunksOk, AddSpec, IsShifted;
      ghost var del := changes.deletions.Rs();
      GapsKeepOrder(changes.insertions.Rs());
      GapsKeepOrder(del);
      assert !In(changes.insertions.Rs(), row);
      var rank := Unshift(changes.insertions.vec.data, row);
      RankPositive(changes.insertions.Rs(), row);
      shifted := changes.deletions.AddShifted(rank);
      RowFound(changes.oldSize, items, del, changes.insertions.Rs(), row, shifted);
    }

    /** The same, and the place is taken by another row. */
    method EvictRow(ghost items: seq<Item>, row: nat) returns (shifted: nat)
      requires Sets() && Stands(items) && row < |items| && !Placed(items[row])
      modifies changes.deletions.vec, changes.insertions.vec
      ensures Sets() && shifted == row && Stands(items[row := Item(None, false, false)])
    {
      hide AtHome, Gone, Inserted, Separated, ChunksOk;
      ghost var del, ins := changes.deletions.Rs(), changes.insertions.Rs();
      shifted := DeleteRow(items, row);
      changes.insertions.Add(row);
      Replace(changes.oldSize, items, row, Item(None, false, false), del, ins, changes.deletions.Rs(), changes.insertions.Rs());
    }

    /** `prev(insertions.end())->second == last + 1`. */
    method LastInserted(last: nat) returns (b: bool)
      requires Sets() && forall x {:trigger In(changes.insertions.Rs(), x)} :: In(changes.insertions.Rs(), x) ==> x <= last
      ensures b <==> In(changes.insertions.Rs(), last)
    {
      var d := changes.insertions.vec.data;
      EmptyFlat(d);
      if d == [] {
        return false;
      }
      EndPos(d);
      PrevPos(d, End(d));
      AtPos(d, Prev(d, End(d)));
      assert Flat(d) == changes.insertions.Rs();
      LastRange(changes.insertions.Rs(), last);
      b := At(d, Prev(d, End(d))).second == last + 1;
    }

    /** `move_over`: the row is deleted and the last one takes its place. */
    method MoveOver(row: nat, last: nat)
      requires Valid() && row <= last && last + 1 == |changes.items|
      modifies `moveMapping, changes`items, changes.deletions.vec, changes.insertions.vec, changes.modifications.vec
      ensures Valid() && changes.items == After(old(changes.items), MoveLastOver(row))
    {
      hide AtHome, Gone, Inserted, Modified, Mapped, Separated, ChunksOk;
      MarkOver(row, last);
      if row == last {
        DropRow(row);
      } else {
        PutLast(row, last);
      }
      changes.items := After(changes.items, MoveLastOver(row));
    }

    /** The mark of the last row goes with it. */
    method MarkOver(row: nat, last: nat)
      requires Sets() && Modified(changes.items, changes.modifications.Rs()) && row <= last && last + 1 == |changes.items|
      modifies changes.modifications.vec
      ensures Sets() && Modified(After(changes.items, MoveLastOver(row)), changes.modifications.Rs())
    {
      hide Separated, ChunksOk, In;
      if row == last {
        changes.modifications.Remove(row, 1);
      } else {
        var modified := changes.modifications.Contains(last);
        if modified {
          changes.modifications.Remove(last, 1);
          changes.modifications.Add(row);
        } else {
          changes.modifications.Remove(row, 1);
        }
      }
    }

    method DropRow(last: nat)
      requires Sets() && Stands(changes.items) && Mapped(changes.items, moveMapping) && last + 1 == |changes.items|
      modifies `moveMapping, changes.deletions.vec, changes.insertions.vec
      ensures Sets() && Stands(changes.items[..last]) && Mapped(changes.items[..last], moveMapping)
    {
      hide AtHome, Gone, Inserted, Separated, ChunksOk;
      DropSets(last);
      moveMapping := moveMapping - {last};
    }

    method DropSets(last: nat)
      requires Sets() && Stands(changes.items) && last + 1 == |changes.items|
      modifies changes.deletions.vec, changes.insertions.vec
      ensures Sets() && Stands(changes.items[..last])
    {
      hide AtHome, Gone, Inserted, Separated, ChunksOk, EraseSpec, RemoveSpec, AddSpec, IsShifted, In, CountBelow, Placed;
      ghost var del, ins, items := changes.deletions.Rs(), changes.insertions.Rs(), changes.items;
      GapsKeepOrder(del);
      GapsKeepOrder(ins);
      InsertedAt(items, ins, last);
      var unshifted := changes.insertions.EraseOrUnshift(last);
      EraseLast(items, ins, changes.insertions.Rs(), last);
      if unshifted.Some? {
        var shifted := changes.deletions.AddShifted(unshifted.value);
        RowFound(changes.oldSize, items, del, ins, last, shifted);
      }
      DropLast(changes.oldSize, items, del, ins, changes.deletions.Rs(), changes.insertions.Rs());
    }

    method PutLast(row: nat, last: nat)
      requires Sets() && Stands(changes.items) && Mapped(changes.items, moveMapping) && row < last && last + 1 == |changes.items|
      modifies `moveMapping, changes.deletions.vec, changes.insertions.vec
      ensures Sets() && Stands(Shrunk(changes.items, row)) && Mapped(Shrunk(changes.items, row), moveMapping)
    {
      hide AtHome, Gone, Separated, ChunksOk, AddSpec, In, Shrunk;
      ghost var items, m := changes.items, moveMapping;
      ghost var n, x := changes.oldSize, items[last];
      HomeFacts(n, items, last);
      InsertedUpTo(items, changes.insertions.Rs(), last);
      var rowIsInsertion := changes.insertions.Contains(row);
      var lastIsInsertion := LastInserted(last);
      var alreadyMoved := lastIsInsertion && last in moveMapping;
      if alreadyMoved {
        moveMapping := moveMapping[row := moveMapping[last]] - {last};
      }
      if rowIsInsertion && !alreadyMoved {
        moveMapping := moveMapping - {row};
      }
      ghost var del, ins := changes.deletions.Rs(), changes.insertions.Rs();
      if lastIsInsertion {
        changes.insertions.Remove(last, 1);
      } else if !alreadyMoved {
        var shifted := DeleteRow(items, last);
        moveMapping := moveMapping[row := shifted];
      }
      DropLast(n, items, del, ins, changes.deletions.Rs(), changes.insertions.Rs());
      ghost var rest := items[..last];
      if !rowIsInsertion {
        var _ := EvictRow(rest, row);
        rest := rest[row := Item(None, false, false)];
      }
      TakePlace(n, rest, items, row, changes.deletions.Rs(), changes.insertions.Rs());
      ShrunkMapped(items, row, m, moveMapping);
    }

    /** `swap`. */
    method Swap(row: nat, other: nat)
      requires Valid() && row < |changes.items| && other < |changes.items| && row != other
      modifies `moveMapping, changes`items, changes.deletions.vec, changes.insertions.vec, changes.modifications.vec
      ensures Valid() && changes.items == After(old(changes.items), SwapRows(row, other))
    {
      hide AtHome, Gone, Inserted, Modified, Mapped, Separated, ChunksOk;
      var a, b := if row < other then row else other, if row < other then other else row;
      SwapSame(changes.items, row, other);
      MarkSwapped(a, b);
      SwapSets(a, b);
      changes.items := After(changes.items, SwapRows(a, b));
    }

    method MarkSwapped(a: nat, b: nat)
      requires Sets() && Modified(changes.items, changes.modifications.Rs()) && a < b < |changes.items|
      modifies changes.modifications.vec
      ensures Sets() && Modified(After(changes.items, SwapRows(a, b)), changes.modifications.Rs())
    {
      hide Separated, ChunksOk, In;
      var first := changes.modifications.Contains(a);
      var second := changes.modifications.Contains(b);
      if first != second {
        if first {
          changes.modifications.Remove(a, 1);
          changes.modifications.Add(b);
        } else {
          changes.modifications.Remove(b, 1);
          changes.modifications.Add(a);
        }
      }
    }

    /** Moves of the two rows trade places; a row that stayed so far is evicted. */
    method SwapSets(a: nat, b: nat)
      requires Sets() && Stands(changes.items) && Mapped(changes.items, moveMapping) && a < b < |changes.items|
      modifies `moveMapping, changes.deletions.vec, changes.insertions.vec
      ensures Sets() && Stands(After(changes.items, SwapRows(a, b))) && Mapped(After(changes.items, SwapRows(a, b)), moveMapping)
    {
      hide AtHome, Gone, Separated, ChunksOk, In, After;
      ghost var n, items, m := changes.oldSize, changes.items, moveMapping;
      ghost var now := items;
      HomeFacts(n, items, a);
      HomeFacts(n, items, b);
      if a in moveMapping && b in moveMapping {
        moveMapping := moveMapping[a := moveMapping[b]][b := moveMapping[a]];
      } else if a in moveMapping {
        now := UpdateMove(items, a, b);
      } else if b in moveMapping {
        now := UpdateMove(items, b, a);
      } else {
        var inserted := changes.insertions.Contains(b);
        if !inserted {
          var from := EvictRow(items, b);
          moveMapping := moveMapping[a := from];
          now := items[b := Item(None, false, false)];
        }
        inserted := changes.insertions.Contains(a);
        if !inserted {
          var from := EvictRow(now, a);
          moveMapping := moveMapping[b := from];
          now := now[a := Item(None, false, false)];
        }
      }
      TradePlaces(n, items, now, a, b, changes.deletions.Rs(), changes.insertions.Rs());
      SwappedMapped(items, a, b, m, moveMapping);
    }

    /** The row moved to `at` goes on to `to`, and the row there to `at`. */
    method UpdateMove(ghost items: seq<Item>, at: nat, to: nat) returns (ghost now: seq<Item>)
      requires Sets() && Stands(items) && at in moveMapping && to !in moveMapping && at < |items| && to < |items| && at != to
      modifies `moveMapping, changes.deletions.vec, changes.insertions.vec
      ensures Sets() && Stands(now) && now == if Placed(items[to]) then items else items[to := Item(None, false, false)]
      ensures moveMapping == if Placed(items[to]) then old(moveMapping)[to := old(moveMapping)[at]] - {at}
                             else old(moveMapping)[to := old(moveMapping)[at]][at := to]
    {
      hide AtHome, Gone, Separated, ChunksOk, In;
      var original := moveMapping[at];
      moveMapping := moveMapping - {at};
      moveMapping := moveMapping[to := original];
      now := items;
      var inserted := changes.insertions.Contains(to);
      if !inserted {
        var from := EvictRow(items, to);
        moveMapping := moveMapping[at := from];
        now := items[to := Item(None, false, false)];
      }
    }

    /** `parse_complete`: rows that are back where they were are reported no more, the
        other moves are listed by their old places. */
    method ParseComplete()
      requires Valid()
      modifies this, changes, changes.deletions.vec, changes.insertions.vec
      ensures changes.Valid() && ByFrom(changes.moves) && moveMapping == map[]
      ensures changes.oldSize == old(changes.oldSize) && changes.items == Home(old(changes.items))
    {
      hide AtHome, Gone, Inserted, Modified, Separated, ChunksOk, In, Listed, Mapped, HomeBut;
      ghost var items := changes.items;
      var moves: seq<Move> := [];
      var left := moveMapping.Keys;
      ListNone(items, moveMapping);
      while left != {}
        invariant Sets() && Stands(changes.items) && changes.oldSize == old(changes.oldSize)
        invariant Modified(changes.items, changes.modifications.Rs()) && moveMapping == old(moveMapping)
        invariant left <= moveMapping.Keys && HomeBut(items, left, changes.items) && Listed(items, moveMapping, left, moves)
        decreases |left|
      {
        var to: nat :| to in left;
        var from := moveMapping[to];
        MappedRow(items, moveMapping, left, changes.items, to);
        if to == from {
          ghost var del, ins := changes.deletions.Rs(), changes.insertions.Rs();
          changes.deletions.Remove(from, 1);
          changes.insertions.Remove(to, 1);
          Return(changes.oldSize, changes.items, to, del, ins, changes.deletions.Rs(), changes.insertions.Rs());
          ReturnModified(changes.items, to, changes.modifications.Rs());
          changes.items := Unmoved(changes.items, to);
        } else {
          moves := moves + [Move(from, to)];
        }
        left := left - {to};
      }
      ListedAll(items, moveMapping, changes.items, moves);
      moveMapping := map[];
      GapsKeepOrder(changes.deletions.Rs());
      GapsKeepOrder(changes.insertions.Rs());
      TableTally(changes.oldSize, changes.items, changes.deletions.Rs(), changes.insertions.Rs());
      changes.moves := Sort(moves, (m: Move) => m.from, (m: Move) => m.to, (m: Move) => m.to);
      SortedMoves(changes.items, moves, changes.moves);
    }

    method Take(step: TableStep, size: nat)
      requires Valid() && size == |changes.items| && Fits(step, size)
      modifies `moveMapping, changes`items, changes.deletions.vec, changes.insertions.vec, changes.modifications.vec
      ensures Valid() && changes.items == After(old(changes.items), step)
    {
      match step
      case Append => Append(size);
      case Touch(row) => Touch(row);
      case MoveLastOver(row) => MoveOver(row, size - 1);
      case SwapRows(row, other) => Swap(row, other);
    }
  }

  /** Any history of a table gives a sound change set, with the account of that history. */
  method TrackTable(n: nat, steps: seq<TableStep>) returns (changes: CollectionChangeBuilder)
    requires AllFit(OldItems(n), steps)
    ensures fresh(changes) && changes.Valid() && ByFrom(changes.moves) && changes.oldSize == n
    ensures changes.items == Home(AfterAll(OldItems(n), steps)) && TableTells(n, steps, changes.items)
  {
    hide AtHome, Gone, Inserted, Modified, Mapped, After, AllFit, AfterAll, Separated, ChunksOk, Tally, Sources, MovesAre, Fits;
    hide TableTells;
    var t := new TableChangeBuilder(n);
    var i, size := 0, n;
    assert steps[0..] == steps;
    while i < |steps|
      invariant i <= |steps| && t.Valid() && fresh(t) && fresh(t.changes) && t.changes.oldSize == n && size == |t.changes.items|
      invariant fresh(t.changes.deletions.vec) && fresh(t.changes.insertions.vec) && fresh(t.changes.modifications.vec)
      invariant AllFit(t.changes.items, steps[i..])
      invariant AfterAll(t.changes.items, steps[i..]) == AfterAll(OldItems(n), steps)
    {
      FirstFits(t.changes.items, steps[i..]);
      assert steps[i..][1..] == steps[i + 1..];
      t.Take(steps[i], size);
      size := match steps[i]
        case Append => size + 1
        case MoveLastOver(_) => size - 1
        case _ => size;
      i := i + 1;
    }
    NoneFits(t.changes.items, steps[i..]);
    t.ParseComplete();
    HomeTells(n, steps);
    changes := t.changes;
  }

  lemma {:induction false} FirstFits(items: seq<Item>, steps: seq<TableStep>)
    requires AllFit(items, steps) && steps != []
    ensures Fits(steps[0], |items|) && AllFit(After(items, steps[0]), steps[1..])
    ensures AfterAll(items, steps) == AfterAll(After(items, steps[0]), steps[1..])
    ensures |After(items, steps[0])| ==
      match steps[0] case Append => |items| + 1 case MoveLastOver(_) => |items| - 1 case _ => |items|
  {
  }

  lemma {:induction false} NoneFits(items: seq<Item>, steps: seq<TableStep>)
    requires steps == []
    ensures AllFit(items, steps) && AfterAll(items, steps) == items
  {
  }

  ghost predicate ByFrom(moves: seq<Move>) {
    forall k, l :: 0 <= k < l < |moves| ==> moves[k].from <= moves[l].from
  }

  /** All rows but those left are back home, if that is where they are. */
  ghost predicate HomeBut(was: seq<Item>, left: set<nat>, now: seq<Item>) {
    |now| == |was| && forall j: nat {:trigger now[j]} :: j < |was| ==> now[j] == if j in left then was[j] else Homed(was[j], j)
  }

  /** Moves listed so far: of the rows that are not left and not home. */
  ghost predicate Listed(was: seq<Item>, m: map<nat, nat>, left: set<nat>, moves: seq<Move>) {
    && Mapped(was, m)
    && (forall x {:trigger x in moves} :: x in moves <==> x.to in m && x.to !in left && m[x.to] == x.from && x.from != x.to)
    && (forall k, l :: 0 <= k < l < |moves| ==> moves[k].to != moves[l].to)
  }

  lemma {:induction false} ListNone(was: seq<Item>, m: map<nat, nat>)
    requires Mapped(was, m)
    ensures HomeBut(was, m.Keys, was) && Listed(was, m, m.Keys, [])
  {
    forall j: nat | j < |was| && j !in m ensures Homed(was[j], j) == was[j] {
    }
  }

  lemma {:induction false} MappedRow(was: seq<Item>, m: map<nat, nat>, left: set<nat>, now: seq<Item>, to: nat)
    requires Mapped(was, m) && HomeBut(was, left, now) && to in m && to in left
    ensures to < |now| && now[to].moved && now[to].origin == Some(m[to])
    ensures m[to] == to ==> HomeBut(was, left - {to}, Unmoved(now, to))
    ensures m[to] != to ==> HomeBut(was, left - {to}, now)
    ensures forall moves {:trigger Listed(was, m, left, moves)} :: Listed(was, m, left, moves) ==>
      Listed(was, m, left - {to}, if m[to] == to then moves else moves + [Move(m[to], to)])
  {
    assert to < |was| && was[to].moved;
    forall moves | Listed(was, m, left, moves)
      ensures Listed(was, m, left - {to}, if m[to] == to then moves else moves + [Move(m[to], to)])
    {
      forall k | 0 <= k < |moves| ensures moves[k].to != to {
        assert moves[k] in moves;
      }
    }
  }

  /** A row back home stays there. */
  lemma {:induction false} Return(n: nat, items: seq<Item>, j: nat, del: seq<Range>, ins: seq<Range>, del': seq<Range>, ins': seq<Range>)
    requires AtHome(n, items) && Gone(n, items, del) && Inserted(items, ins)
    requires j < |items| && items[j].moved && items[j].origin == Some(j)
    requires RemoveSpec(del, del', j, 1) && RemoveSpec(ins, ins', j, 1)
    ensures var now := Unmoved(items, j); AtHome(n, now) && Gone(n, now, del') && Inserted(now, ins')
  {
    hide In;
  }

  lemma {:induction false} ReturnModified(items: seq<Item>, j: nat, mods: seq<Range>)
    requires j < |items| && Modified(items, mods)
    ensures Modified(Unmoved(items, j), mods)
  {
    hide In;
  }

  lemma {:induction false} ListedAll(was: seq<Item>, m: map<nat, nat>, now: seq<Item>, moves: seq<Move>)
    requires HomeBut(was, {}, now) && Listed(was, m, {}, moves)
    ensures now == Home(was) && MovesAre(now, moves)
    ensures Apart(moves, (m: Move) => m.to)
  {
    forall x: Move ensures x in moves <==> Moves(now, x) {
    }
  }

  lemma {:induction false} SortedMoves(items: seq<Item>, moves: seq<Move>, sorted: seq<Move>)
    requires MovesAre(items, moves) && SameElements(moves, sorted) && Apart(sorted, (m: Move) => m.to)
    requires InOrder(sorted, (m: Move) => m.from, (m: Move) => m.to)
    ensures MovesAre(items, sorted) && ByFrom(sorted)
  {
    hide Moves;
  }

  lemma {:induction false} SwapSame(items: seq<Item>, row: nat, other: nat)
    requires row < |items| && other < |items| && row != other
    ensures After(items, SwapRows(row, other)) == After(items, SwapRows(other, row))
  {
  }

  /** Both rows come into their new places. */
  lemma {:induction false} TradePlaces(n: nat, items: seq<Item>, now: seq<Item>, a: nat, b: nat, del: seq<Range>, ins: seq<Range>)
    requires AtHome(n, items) && a < b < |items| && |now| == |items|
    requires AtHome(n, now) && Gone(n, now, del) && Inserted(now, ins) && Placed(now[a]) && Placed(now[b])
    requires forall j :: 0 <= j < |now| && j != a && j != b ==> now[j] == items[j]
    ensures var after := After(items, SwapRows(a, b)); AtHome(n, after) && Gone(n, after, del) && Inserted(after, ins)
  {
    hide In, Gone, Inserted, AtHome;
    var blank := Item(None, false, false);
    TakenAlready(now, a, del, ins);
    Replace(n, now, a, blank, del, ins, del, ins);
    var one := now[a := blank];
    TakenAlready(one, b, del, ins);
    FreeOrigin(n, items, one, a, b);
    Replace(n, one, b, Relocated(items[a]), del, ins, del, ins);
    var two := one[b := Relocated(items[a])];
    TakenAlready(two, a, del, ins);
    FreeOrigin(n, items, two, b, a);
    Replace(n, two, a, Relocated(items[b]), del, ins, del, ins);
    assert two[a := Relocated(items[b])] == After(items, SwapRows(a, b));
  }

  /** Nobody else comes from where the row at `from` does. */
  lemma {:induction false} FreeOrigin(n: nat, items: seq<Item>, now: seq<Item>, from: nat, to: nat)
    requires AtHome(n, items) && |now| == |items| && from < |items| && to < |items| && from != to
    requires forall j :: 0 <= j < |now| && j != from && j != to ==> now[j] == items[j]
    requires now[from] == Item(None, false, false) || now[from] == Relocated(items[to])
    ensures var x := Relocated(items[from]);
      && Placed(x) && (x.moved ==> x.origin.Some?) && (x.origin.Some? ==> x.origin.value < n)
      && (x.origin.Some? ==> forall j :: 0 <= j < |now| && j != to ==> now[j].origin != x.origin)
  {
  }

  lemma {:induction false} LastRange(rs: seq<Range>, last: nat)
    requires Separated(rs) && rs != [] && forall x {:trigger In(rs, x)} :: In(rs, x) ==> x <= last
    ensures rs[|rs| - 1].second == last + 1 <==> In(rs, last)
  {
    var r := rs[|rs| - 1];
    IndexIn(rs, r.second - 1, |rs| - 1);
    forall k | 0 <= k < |rs| ensures rs[k].second <= r.second {
      assert k < |rs| - 1 ==> rs[k].second < r.first;
    }
    if In(rs, last) {
      var i := InIndex(rs, last);
    }
  }

  lemma {:induction false} EraseLast(items: seq<Item>, ins: seq<Range>, ins': seq<Range>, last: nat)
    requires Inserted(items, ins) && last + 1 == |items| && EraseSpec(ins, ins', last)
    ensures RemoveSpec(ins, ins', last, 1)
  {
    hide In;
    forall x {:trigger In(ins', x)} ensures In(ins', x) <==> In(ins, x) && !(last <= x < last + 1) {
      assert In(ins, x + 1) ==> x + 1 <= last;
      assert In(ins, x) ==> x <= last;
    }
  }

  lemma {:induction false} InsertedAt(items: seq<Item>, ins: seq<Range>, row: nat)
    requires Inserted(items, ins) && row < |items|
    ensures In(ins, row) <==> Placed(items[row])
  {
    hide In, Placed;
  }

  lemma {:induction false} InsertedUpTo(items: seq<Item>, ins: seq<Range>, last: nat)
    requires Inserted(items, ins) && last + 1 == |items|
    ensures forall x {:trigger In(ins, x)} :: In(ins, x) ==> x <= last
  {
  }

  lemma {:induction false} HomeFacts(n: nat, items: seq<Item>, j: nat)
    requires AtHome(n, items) && j < |items|
    ensures !Placed(items[j]) ==> items[j].origin == Some(j) && j < n
    ensures items[j].moved ==> items[j].origin.Some?
  {
  }

  /** The last row comes into its new place. */
  lemma {:induction false} TakePlace(n: nat, rest: seq<Item>, items: seq<Item>, row: nat, del: seq<Range>, ins: seq<Range>)
    requires AtHome(n, items) && row < |items| - 1 && |rest| == |items| - 1
    requires AtHome(n, rest) && Gone(n, rest, del) && Inserted(rest, ins) && Placed(rest[row])
    requires forall j :: 0 <= j < |rest| && j != row ==> rest[j] == items[j]
    ensures AtHome(n, Shrunk(items, row)) && Gone(n, Shrunk(items, row), del) && Inserted(Shrunk(items, row), ins)
  {
    hide In, Gone, Inserted;
    var x := Relocated(items[|items| - 1]);
    assert Shrunk(items, row) == rest[row := x];
    Replace(n, rest, row, x, del, ins, del, ins) by { TakenAlready(rest, row, del, ins); }
  }

  lemma {:induction false} TakenAlready(items: seq<Item>, row: nat, del: seq<Range>, ins: seq<Range>)
    requires row < |items| && Placed(items[row]) && Inserted(items, ins)
    ensures Replaced(items, row, del, ins, del, ins)
  {
  }
}
