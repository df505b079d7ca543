/** Objects whose properties are plain values and lists of plain values: what every
    cell holds after a write, and when a differential write gives the same as a full
    one. */
module RecordWrites {
  import opened Common
  import opened Records

  // ---------- what a write should leave ----------

  predicate Good(kind: Kind, v: Value) {
    v.Val? && v.scalar.kind == kind
  }

  /** The first element that cannot be stored, or the length. */
  function FirstBad(kind: Kind, items: seq<Value>): (k: nat)
    ensures k <= |items|
    ensures forall j :: 0 <= j < k ==> Good(kind, items[j])
    ensures k < |items| ==> !Good(kind, items[k])
  {
    if items == [] || !Good(kind, items[0]) then 0
    else
      assert forall j :: 0 < j < |items| ==> items[j] == items[1..][j - 1];
      1 + FirstBad(kind, items[1..])
  }

  function Ones(items: seq<Value>): (r: seq<Cell>)
    ensures |r| == |items|
    ensures forall j :: 0 <= j < |r| ==> r[j] == if items[j].Val? then One(items[j].scalar) else Nil
  {
    seq(|items|, j requires 0 <= j < |items| => if items[j].Val? then One(items[j].scalar) else Nil)
  }

  datatype Outcome = Outcome(cell: Cell, error: Option<Error>)

  /** The list after an assignment: the elements up to the first bad one; a
      differential write that fails there leaves the rest of the old list. */
  function AssignedList(kind: Kind, old_: seq<Cell>, items: seq<Value>, diff: bool): Outcome {
    var k := FirstBad(kind, items);
    if k == |items| then Outcome(Many(Ones(items)), None)
    else Outcome(Many(Ones(items[..k]) + if diff && k < |old_| then old_[k..] else []), Some(BadValue))
  }

  /** The cell after a write to a plain property or a list of plain values. */
  function Written(e: Env, p: Property, here: Value, c: Cell, v: Value, diff: bool): Outcome
    requires p.base.Plain?
  {
    if p.nullable && v.Null? then Outcome(Nil, None)
    else if p.list then
      if v == here then Outcome(c, None)
      else if v.Null? then Outcome(Many([]), None)
      else if v.Items? then AssignedList(p.base.kind, Elems(c), v.items, diff)
      else Outcome(if diff then c else Many([]), Some(BadValue))
    else if !Good(p.base.kind, v) then Outcome(c, Some(BadValue))
    else Outcome(if diff && Read(e, p.base.kind, c) == Some(v.scalar) then c else One(v.scalar), None)
  }

  /** The store with one cell replaced. */
  function PutCell(s: Store, t: string, row: nat, i: nat, c: Cell): Store
    requires t in s && row < |s[t]| && i < |s[t][row]|
  {
    s[t := s[t][row := s[t][row][i := c]]]
  }

  ghost predicate IsList(s: Store, t: string, row: nat, i: nat) {
    t in s && row < |s[t]| && i < |s[t][row]| && s[t][row][i].Many?
  }

  // ---------- list assignment ----------

  lemma {:induction false} EditPuts(e: Env, st: State, t: string, row: nat, i: nat, edit: ListEdit)
    requires Place(e, st.store, t, row, i)
    ensures Do(e, st, Edit(t, row, i, edit)).store == PutCell(st.store, t, row, i, Edited(st.store[t][row][i], edit))
    ensures Do(e, st, Edit(t, row, i, edit)).log == st.log + [Edit(t, row, i, edit)]
  {
  }

  lemma {:induction false} PutAgain(s: Store, t: string, row: nat, i: nat, a: Cell, b: Cell)
    requires t in s && row < |s[t]| && i < |s[t][row]|
    ensures PutCell(PutCell(s, t, row, i, a), t, row, i, b) == PutCell(s, t, row, i, b)
    ensures PutCell(s, t, row, i, a)[t][row][i] == a
    ensures PutCell(s, t, row, i, s[t][row][i]) == s
  {
    var s1 := PutCell(s, t, row, i, a);
    assert s[t][row][i := s[t][row][i]] == s[t][row];
    assert s[t][row := s[t][row]] == s[t];
    assert s1[t][row][i := b] == s[t][row][i := b];
    assert s1[t][row := s[t][row][i := b]] == s[t][row := s[t][row][i := b]];
  }

  /** The list part of a store after `k` elements of a differential assignment. */
  function Mixed(items: seq<Value>, old_: seq<Cell>, k: nat): (r: seq<Cell>)
    requires k <= |items|
  {
    Ones(items[..k]) + if k < |old_| then old_[k..] else []
  }

  lemma {:induction false} MixedStep(items: seq<Value>, old_: seq<Cell>, k: nat)
    requires k < |items| && items[k].Val?
    ensures var now, c := Mixed(items, old_, k), One(items[k].scalar);
      if k < |old_| then
        && k < |now| && now[k] == old_[k] && now[k := c] == Mixed(items, old_, k + 1)
        && (c == old_[k] ==> now == Mixed(items, old_, k + 1))
      else now + [c] == Mixed(items, old_, k + 1)
  {
  }

  /** Trimming cuts the list to its first `k` elements. */
  lemma {:induction false} TrimResult(e: Env, st: State, t: string, row: nat, i: nat, k: nat, n: nat)
    requires Place(e, st.store, t, row, i) && IsList(st.store, t, row, i)
    requires |st.store[t][row][i].cells| == k + n
    ensures var r := Trim(e, st, t, row, i, k, n);
      && r.error.None? && r.state.store == PutCell(st.store, t, row, i, Many(st.store[t][row][i].cells[..k]))
      && st.log <= r.state.log && |r.state.log| == |st.log| + n
      && forall l :: |st.log| <= l < |r.state.log| ==> r.state.log[l] == Edit(t, row, i, RemoveAt(k))
    decreases n
  {
    hide Do;
    var cells := st.store[t][row][i].cells;
    PutAgain(st.store, t, row, i, Many(cells[..k]), Many(cells[..k]));
    if n == 0 {
      assert cells[..k] == cells;
    } else {
      EditPuts(e, st, t, row, i, RemoveAt(k));
      var st1 := Do(e, st, Edit(t, row, i, RemoveAt(k)));
      var less := cells[..k] + cells[k + 1..];
      PutAgain(st.store, t, row, i, Many(less), Many(cells[..k]));
      assert less[..k] == cells[..k];
      TrimResult(e, st1, t, row, i, k, n - 1);
    }
  }

  /** A write of a differential assignment: it changes an element, adds one past the
      old end, or removes one past the new end. */
  ghost predicate Needed(w: Write, t: string, row: nat, i: nat, old_: seq<Cell>, items: seq<Value>) {
    && w.Edit? && w.type_ == t && w.row == row && w.prop == i
    && match w.edit
       case SetAt(j, c) => j < |old_| && j < |items| && items[j].Val? && c == One(items[j].scalar) && old_[j] != c
       case Push(c) => exists j :: |old_| <= j < |items| && items[j].Val? && c == One(items[j].scalar)
       case RemoveAt(j) => j == |items| < |old_|
       case Clear => false
  }

  ghost predicate AllNeeded(log: seq<Write>, from: nat, t: string, row: nat, i: nat, old_: seq<Cell>, items: seq<Value>) {
    forall l :: from <= l < |log| ==> Needed(log[l], t, row, i, old_, items)
  }

  /** How many writes a differential assignment makes from element `k` on. */
  function Differences(old_: seq<Cell>, items: seq<Value>, k: nat): nat
    requires k <= |items|
    decreases |items| - k
  {
    if k == |items| then (if k < |old_| then |old_| - k else 0)
    else (if k < |old_| && items[k].Val? && old_[k] == One(items[k].scalar) then 0 else 1) + Differences(old_, items, k + 1)
  }

  /** One more element at the end. */
  lemma {:induction false} AddResult(e: Env, st: State, t: string, row: nat, i: nat, v: Value, k: nat, update: bool)
    requires SchemaOk(e) && Place(e, st.store, t, row, i) && v.Items? && k < |v.items|
    requires e.schema[t].props[i].base.Plain? && IsList(st.store, t, row, i)
    ensures var r, cells := AddElement(e, st, t, row, i, v, k, update), st.store[t][row][i].cells;
      if Good(e.schema[t].props[i].base.kind, v.items[k]) then
        && r.error.None? && r.state.log == st.log + [Edit(t, row, i, Push(One(v.items[k].scalar)))]
        && r.state.store == PutCell(st.store, t, row, i, Many(cells + [One(v.items[k].scalar)]))
      else r == Result(st, Some(BadValue), 0)
  {
  }

  /** One element of the old list compared and, if different, replaced. */
  lemma {:induction false} SetResult(e: Env, st: State, t: string, row: nat, i: nat, v: Value, k: nat, update: bool)
    requires SchemaOk(e) && Place(e, st.store, t, row, i) && v.Items? && k < |v.items|
    requires e.schema[t].props[i].base.Plain? && IsList(st.store, t, row, i) && k < |st.store[t][row][i].cells|
    ensures var r, cells := SetElement(e, st, t, row, i, v, k, update), st.store[t][row][i].cells;
      if Good(e.schema[t].props[i].base.kind, v.items[k]) then
        var c := One(v.items[k].scalar);
        && r.error.None? && r.state.store == PutCell(st.store, t, row, i, Many(cells[k := c]))
        && r.state.log == st.log + if c == cells[k] then [] else [Edit(t, row, i, SetAt(k, c))]
      else r == Result(st, Some(BadValue), 0)
  {
    hide Do, SchemaOk, PutCell;
    var cells := st.store[t][row][i].cells;
    if Good(e.schema[t].props[i].base.kind, v.items[k]) {
      var c := One(v.items[k].scalar);
      EditPuts(e, st, t, row, i, SetAt(k, c));
      if c == cells[k] {
        assert cells[k := c] == cells;
        PutAgain(st.store, t, row, i, Nil, Nil);
      }
    }
  }

  /** Appending the elements from `k` on to what is there. */
  lemma {:induction false} FullResult(e: Env, st: State, t: string, row: nat, i: nat, v: Value, k: nat, update: bool)
    requires SchemaOk(e) && Place(e, st.store, t, row, i) && v.Items?
    requires e.schema[t].props[i].base.Plain? && IsList(st.store, t, row, i)
    requires k <= FirstBad(e.schema[t].props[i].base.kind, v.items)
    requires st.store[t][row][i].cells == Ones(v.items[..k])
    ensures var r, b := AssignFrom(e, st, t, row, i, v, k, 0, update, false), FirstBad(e.schema[t].props[i].base.kind, v.items);
      && r.error == (if b == |v.items| then None else Some(BadValue))
      && r.state.store == PutCell(st.store, t, row, i, Many(Ones(v.items[..b])))
    decreases |v.items| - k
  {
    hide SchemaOk, AddElement, SetElement, FirstBad, PutCell;
    var b := FirstBad(e.schema[t].props[i].base.kind, v.items);
    PutAgain(st.store, t, row, i, Nil, Nil);
    if k < |v.items| {
      AddResult(e, st, t, row, i, v, k, update);
      if k < b {
        var st1 := AddElement(e, st, t, row, i, v, k, update).state;
        assert Ones(v.items[..k + 1]) == Ones(v.items[..k]) + [One(v.items[k].scalar)];
        PutAgain(st.store, t, row, i, Many(Ones(v.items[..k + 1])), Many(Ones(v.items[..b])));
        FullResult(e, st1, t, row, i, v, k + 1, update);
      }
    }
  }

  /** The element loop of a differential assignment from `k` on. */
  lemma {:induction false} DiffResult(e: Env, st: State, t: string, row: nat, i: nat, v: Value, k: nat,
                                      old_: seq<Cell>, update: bool)
    requires SchemaOk(e) && Place(e, st.store, t, row, i) && v.Items?
    requires e.schema[t].props[i].base.Plain? && IsList(st.store, t, row, i)
    requires k <= FirstBad(e.schema[t].props[i].base.kind, v.items)
    requires st.store[t][row][i].cells == Mixed(v.items, old_, k)
    ensures var r, b := AssignFrom(e, st, t, row, i, v, k, |old_|, update, true), FirstBad(e.schema[t].props[i].base.kind, v.items);
      && r.error == (if b == |v.items| then None else Some(BadValue))
      && r.state.store == PutCell(st.store, t, row, i, AssignedList(e.schema[t].props[i].base.kind, old_, v.items, true).cell)
      && st.log <= r.state.log && AllNeeded(r.state.log, |st.log|, t, row, i, old_, v.items)
      && (b == |v.items| ==> |r.state.log| == |st.log| + Differences(old_, v.items, k))
    decreases |v.items| - k
  {
    hide SchemaOk, AddElement, SetElement, FirstBad, Trim, AllNeeded, PutCell, Mixed, Needed;
    var kind := e.schema[t].props[i].base.kind;
    var b := FirstBad(kind, v.items);
    PutAgain(st.store, t, row, i, Nil, Nil);
    NoneNeeded(st.log, t, row, i, old_, v.items);
    MixedEnds(v.items, old_, k);
    if k == |v.items| {
      if k < |old_| {
        TrimResult(e, st, t, row, i, k, |old_| - k);
        TrimNeeded(st.log, Trim(e, st, t, row, i, k, |old_| - k).state.log, t, row, i, old_, v.items);
      }
    } else if k == b {
      if k < |old_| {
        SetResult(e, st, t, row, i, v, k, update);
      } else {
        AddResult(e, st, t, row, i, v, k, update);
      }
    } else {
      var r := DiffStep(e, st, t, row, i, v, k, old_, update);
      PutAgain(st.store, t, row, i, Many(Mixed(v.items, old_, k + 1)), AssignedList(kind, old_, v.items, true).cell);
      DiffResult(e, r.state, t, row, i, v, k + 1, old_, update);
      StepNeeded(st.log, r.state.log, AssignFrom(e, r.state, t, row, i, v, k + 1, |old_|, update, true).state.log,
                 t, row, i, old_, v.items, k);
    }
  }

  lemma {:induction false} MixedEnds(items: seq<Value>, old_: seq<Cell>, k: nat)
    requires k <= |items|
    ensures |Mixed(items, old_, k)| == if k < |old_| then |old_| else k
    ensures k == |items| ==> Mixed(items, old_, k)[..k] == Ones(items)
    ensures k == |items| && |old_| <= k ==> Mixed(items, old_, k) == Ones(items)
    ensures Mixed(items, old_, k) == Ones(items[..k]) + if k < |old_| then old_[k..] else []
  {
  }

  lemma {:induction false} DiffStep(e: Env, st: State, t: string, row: nat, i: nat, v: Value, k: nat,
                                    old_: seq<Cell>, update: bool) returns (r: Result)
    requires SchemaOk(e) && Place(e, st.store, t, row, i) && v.Items? && k < |v.items|
    requires e.schema[t].props[i].base.Plain? && IsList(st.store, t, row, i)
    requires Good(e.schema[t].props[i].base.kind, v.items[k]) && st.store[t][row][i].cells == Mixed(v.items, old_, k)
    ensures r == if k < |old_| then SetElement(e, st, t, row, i, v, k, update) else AddElement(e, st, t, row, i, v, k, update)
    ensures r.error.None? && r.state.store == PutCell(st.store, t, row, i, Many(Mixed(v.items, old_, k + 1)))
    ensures r.state.log == st.log + (
      if k >= |old_| then [Edit(t, row, i, Push(One(v.items[k].scalar)))]
      else if One(v.items[k].scalar) == old_[k] then []
      else [Edit(t, row, i, SetAt(k, One(v.items[k].scalar)))])
  {
    hide SchemaOk, AddElement, SetElement, PutCell, Mixed;
    MixedStep(v.items, old_, k);
    if k < |old_| {
      SetResult(e, st, t, row, i, v, k, update);
      r := SetElement(e, st, t, row, i, v, k, update);
    } else {
      AddResult(e, st, t, row, i, v, k, update);
      r := AddElement(e, st, t, row, i, v, k, update);
    }
  }

  lemma {:induction false} NoneNeeded(log: seq<Write>, t: string, row: nat, i: nat, old_: seq<Cell>, items: seq<Value>)
    ensures AllNeeded(log, |log|, t, row, i, old_, items)
  {
  }

  lemma {:induction false} TrimNeeded(log: seq<Write>, log': seq<Write>, t: string, row: nat, i: nat,
                                      old_: seq<Cell>, items: seq<Value>)
    requires |items| < |old_|
    requires forall l :: |log| <= l < |log'| ==> log'[l] == Edit(t, row, i, RemoveAt(|items|))
    ensures AllNeeded(log', |log|, t, row, i, old_, items)
  {
  }

  lemma {:induction false} StepNeeded(log: seq<Write>, log1: seq<Write>, log2: seq<Write>, t: string, row: nat, i: nat,
                                      old_: seq<Cell>, items: seq<Value>, k: nat)
    requires k < |items| && items[k].Val? && log <= log1 <= log2 && AllNeeded(log2, |log1|, t, row, i, old_, items)
    requires log1 == log + (
      if k >= |old_| then [Edit(t, row, i, Push(One(items[k].scalar)))]
      else if One(items[k].scalar) == old_[k] then []
      else [Edit(t, row, i, SetAt(k, One(items[k].scalar)))])
    ensures AllNeeded(log2, |log|, t, row, i, old_, items)
  {
  }

  /** `List::assign` with plain values: what it leaves in either mode, for every list
      and every supplied value. A differential assignment writes only what differs,
      and every difference once. */
  lemma {:induction false} AssignResult(e: Env, st: State, t: string, row: nat, i: nat, v: Value, update: bool, diff: bool)
    requires SchemaOk(e) && Place(e, st.store, t, row, i) && IsList(st.store, t, row, i)
    requires e.schema[t].props[i].base.Plain? && e.schema[t].props[i].list
    ensures var r := Assign(e, st, t, row, i, v, update, diff);
      var o := Written(e, e.schema[t].props[i], ListOf(t, row, i), st.store[t][row][i], v, diff);
      r.error == o.error && r.state.store == PutCell(st.store, t, row, i, o.cell)
    ensures diff && v.Items? ==>
      var r, old_ := Assign(e, st, t, row, i, v, update, diff), st.store[t][row][i].cells;
      && st.log <= r.state.log && AllNeeded(r.state.log, |st.log|, t, row, i, old_, v.items)
      && (r.error.None? ==> |r.state.log| == |st.log| + Differences(old_, v.items, 0))
  {
    hide AssignFrom, Do, FirstBad, AllNeeded;
    var p, c := e.schema[t].props[i], st.store[t][row][i];
    assert !p.nullable && Elems(c) == c.cells;
    EditPuts(e, st, t, row, i, Clear);
    PutAgain(st.store, t, row, i, Many([]), Written(e, p, ListOf(t, row, i), c, v, diff).cell);
    if v.Items? {
      var b := FirstBad(p.base.kind, v.items);
      if diff {
        assert Mixed(v.items, c.cells, 0) == c.cells;
        DiffResult(e, st, t, row, i, v, 0, c.cells, update);
      } else {
        var st1 := Do(e, st, Edit(t, row, i, Clear));
        assert Ones(v.items[..0]) == [];
        assert b == |v.items| ==> v.items[..b] == v.items;
        assert Ones(v.items[..b]) + [] == Ones(v.items[..b]);
        FullResult(e, st1, t, row, i, v, 0, update);
      }
    }
  }

  /** A differential assignment of the list that is already there writes nothing, and
      only then. */
  lemma {:induction false} NoDifferenceIff(old_: seq<Cell>, items: seq<Value>)
    requires forall j :: 0 <= j < |items| ==> items[j].Val?
    ensures Differences(old_, items, 0) == 0 <==> old_ == Ones(items)
  {
    NoDifferenceFrom(old_, items, 0);
    if old_ == Ones(items) {
      assert forall j :: 0 <= j < |items| ==> old_[j] == Ones(items)[j];
    }
  }

  lemma {:induction false} NoDifferenceFrom(old_: seq<Cell>, items: seq<Value>, k: nat)
    requires k <= |items| && forall j :: 0 <= j < |items| ==> items[j].Val?
    ensures Differences(old_, items, k) == 0 <==>
      |old_| <= |items| && (k < |items| ==> |old_| == |items|) && forall j :: k <= j < |items| ==> j < |old_| && old_[j] == One(items[j].scalar)
    decreases |items| - k
  {
    if k < |items| {
      NoDifferenceFrom(old_, items, k + 1);
    }
  }
}
