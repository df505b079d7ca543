/** Creating and updating objects without links: what every cell ends up with, and
    exactly when a differential write equals a full one. */
module RecordDiffs {
  import opened Common
  import opened Records
  import opened RecordLaws
  import opened RecordRuns
  import opened RecordWrites

  // ---------- one property ----------

  predicate ListWhereDue(p: Property, c: Cell) {
    if p.list then c.Many? else c.Nil? || c.One?
  }

  /** `set_property_value_impl` on a plain property: the cell it leaves. In
      differential mode it writes nothing exactly when the cell stays as it was. */
  lemma {:induction false} SetPropResult(e: Env, st: State, t: string, row: nat, i: nat, v: Value,
                                         update: bool, diff: bool, isDefault: bool)
    requires SchemaOk(e) && Place(e, st.store, t, row, i) && e.schema[t].props[i].base.Plain?
    requires ListWhereDue(e.schema[t].props[i], st.store[t][row][i])
    ensures var p, c, r := e.schema[t].props[i], st.store[t][row][i], SetProp(e, st, t, row, i, v, update, diff, isDefault);
      var o := Written(e, p, ListOf(t, row, i), c, v, diff);
      && r.error == o.error && r.state.store == PutCell(st.store, t, row, i, o.cell) && ListWhereDue(p, o.cell)
      && (diff && r.error.None? && !(p.list && v.Null?) ==> (r.state.log == st.log <==> o.cell == c))
  {
    hide Assign, Differences, AllNeeded, PutCell;
    var p, c := e.schema[t].props[i], st.store[t][row][i];
    PutAgain(st.store, t, row, i, Nil, Nil);
    if p.nullable && v.Null? {
      PutPuts(e, st, t, row, i, Nil);
    } else if p.list {
      AssignResult(e, st, t, row, i, v, update, diff);
      if diff && v.Items? {
        AssignQuiet(p.base.kind, c.cells, v.items, st.log, Assign(e, st, t, row, i, v, update, diff).state.log);
      }
      AssignItself(e, st, t, row, i, v, update, diff);
    } else if Good(p.base.kind, v) {
      PutPuts(e, st, t, row, i, One(v.scalar));
    }
  }

  lemma {:induction false} AssignItself(e: Env, st: State, t: string, row: nat, i: nat, v: Value, update: bool, diff: bool)
    requires SchemaOk(e) && Place(e, st.store, t, row, i)
    ensures v == ListOf(t, row, i) ==> Assign(e, st, t, row, i, v, update, diff) == Result(st, None, row)
  {
  }

  lemma {:induction false} PutPuts(e: Env, st: State, t: string, row: nat, i: nat, c: Cell)
    requires Place(e, st.store, t, row, i)
    ensures Do(e, st, Put(t, row, i, c)).store == PutCell(st.store, t, row, i, c)
    ensures Do(e, st, Put(t, row, i, c)).log == st.log + [Put(t, row, i, c)]
  {
  }

  lemma {:induction false} AssignQuiet(kind: Kind, old_: seq<Cell>, items: seq<Value>, log: seq<Write>, log': seq<Write>)
    requires log <= log' && (FirstBad(kind, items) == |items| ==> |log'| == |log| + Differences(old_, items, 0))
    ensures FirstBad(kind, items) == |items| ==> (log' == log <==> AssignedList(kind, old_, items, true).cell == Many(old_))
  {
    if FirstBad(kind, items) == |items| {
      NoDifferenceIff(old_, items);
    }
  }

  /** The cell is null and reads as the value: a differential write takes the null for
      the value and leaves it. Only truth values and whole numbers can be taken so. */
  predicate TakesNull(e: Env, p: Property, c: Cell, v: Value) {
    !p.list && p.base.Plain? && c.Nil? && Good(p.base.kind, v) && EmptyRead(e, p.base.kind) == Some(v.scalar)
  }

  /** One property written differentially and in full: the same error; the same cell
      except for a value that a null reads as over a null, or when an assignment fails
      before the old list is used up. Whatever a null reads as, only nullable truth
      values and whole numbers are affected. */
  lemma {:induction false} SameWriteIff(e: Env, p: Property, here: Value, c: Cell, v: Value)
    requires p.base.Plain? && ListWhereDue(p, c) && (p.list ==> !p.nullable)
    ensures var d, f := Written(e, p, here, c, v, true), Written(e, p, here, c, v, false);
      && d.error == f.error
      && (d.error.None? || !p.list ==> (d.cell == f.cell <==> !TakesNull(e, p, c, v)))
      && (d.error.Some? && p.list && v.Items? ==> (d.cell == f.cell <==> |c.cells| <= FirstBad(p.base.kind, v.items)))
      && (d.error.Some? && p.list && !v.Items? ==> (d.cell == f.cell <==> c.cells == []))
      && (TakesNull(e, p, c, v) ==> p.base.kind in {Bool, Int} && p.base.kind in e.nullReads)
  {
    if p.list && v.Items? {
      var k := FirstBad(p.base.kind, v.items);
      if k < |v.items| && k < |c.cells| {
        assert |Ones(v.items[..k]) + c.cells[k..]| > |Ones(v.items[..k]) + []|;
      }
    }
  }

  // ---------- a whole object ----------

  predicate Linkless(o: ObjectSchema) {
    forall i :: 0 <= i < |o.props| ==> o.props[i].base.Plain?
  }

  predicate RowDue(o: ObjectSchema, row: Row) {
    |row| == |o.props| && forall i :: 0 <= i < |row| ==> ListWhereDue(o.props[i], row[i])
  }

  /** What the populate loop makes of one cell. */
  function Populated(e: Env, o: ObjectSchema, t: string, r: nat, c: Cell, v: Value, i: nat,
                     created: bool, skipPrimary: bool, diff: bool): Outcome
    requires Linkless(o) && i < |o.props|
  {
    if skipPrimary && o.primary == Some(i) then Outcome(c, None)
    else if !v.Obj? then Outcome(c, Some(BadValue))
    else
      match Supplied(o, v, i, created)
      case NotSet => Outcome(c, None)
      case Refused => Outcome(c, Some(MissingValue))
      case Set(x, _) => Written(e, o.props[i], ListOf(t, r, i), c, x, diff)
  }

  /** The cells from `i` on are as the populate loop makes them, the others as before. */
  ghost predicate PopulatedFrom(e: Env, o: ObjectSchema, t: string, r: nat, was: Row, now: Row, v: Value, i: nat,
                                created: bool, skipPrimary: bool, diff: bool)
    requires Linkless(o)
  {
    && |was| == |now| == |o.props|
    && (forall j :: 0 <= j < i && j < |was| ==> now[j] == was[j])
    && (forall j :: i <= j < |was| ==> now[j] == Populated(e, o, t, r, was[j], v, j, created, skipPrimary, diff).cell)
  }

  ghost predicate AllPopulate(e: Env, o: ObjectSchema, t: string, r: nat, was: Row, v: Value, i: nat,
                              created: bool, skipPrimary: bool, diff: bool)
    requires Linkless(o) && |was| == |o.props|
  {
    forall j :: i <= j < |was| ==> Populated(e, o, t, r, was[j], v, j, created, skipPrimary, diff).error.None?
  }

  /** It succeeds exactly when every property does, and then only the object's own row
      differs, cell by cell as each property says. */
  ghost predicate PopulateMeans(e: Env, st: State, t: string, row: nat, v: Value, i: nat,
                                created: bool, skipPrimary: bool, diff: bool, r: Result)
    requires SchemaOk(e) && Shaped(e, st.store) && t in e.schema && row < |st.store[t]|
    requires Shaped(e, r.state.store) && Grows(st.store, r.state.store) && Linkless(e.schema[t])
  {
    var o, was := e.schema[t], st.store[t][row];
    && (r.error.None? <==> AllPopulate(e, o, t, row, was, v, i, created, skipPrimary, diff))
    && r.state.store == st.store[t := st.store[t][row := r.state.store[t][row]]]
    && (r.error.None? ==> PopulatedFrom(e, o, t, row, was, r.state.store[t][row], v, i, created, skipPrimary, diff))
  }

  lemma {:induction false} PopulateResult(e: Env, st: State, t: string, row: nat, v: Value, i: nat,
                                          created: bool, skipPrimary: bool, update: bool, diff: bool)
    requires SchemaOk(e) && Shaped(e, st.store) && t in e.schema && row < |st.store[t]| && i <= |e.schema[t].props|
    requires Linkless(e.schema[t]) && RowDue(e.schema[t], st.store[t][row])
    ensures PopulateMeans(e, st, t, row, v, i, created, skipPrimary, diff,
                          Populate(e, st, t, row, v, i, created, skipPrimary, update, diff))
    decreases |e.schema[t].props| - i, 1
  {
    hide SchemaOk, SetProp, Supplied, Written, PutCell, Populated, PopulateMeans, RowDue;
    var o, was := e.schema[t], st.store[t][row];
    var r := Populate(e, st, t, row, v, i, created, skipPrimary, update, diff);
    if i < |o.props| {
      PopulatedCell(e, o, t, row, was, v, i, created, skipPrimary, diff);
      var supplied := if v.Obj? then Supplied(o, v, i, created) else Refused;
      if (skipPrimary && o.primary == Some(i)) || supplied.NotSet? {
        PopulateResult(e, st, t, row, v, i + 1, created, skipPrimary, update, diff);
        MeansSkip(e, st, t, row, v, i, created, skipPrimary, diff, r);
      } else if supplied.Set? {
        PopulateSet(e, st, t, row, v, i, created, skipPrimary, update, diff);
      } else {
        MeansStop(e, st, t, row, v, i, created, skipPrimary, diff, r);
      }
    } else {
      MeansDone(e, st, t, row, v, created, skipPrimary, diff, r);
    }
  }

  lemma {:induction false} MeansSkip(e: Env, st: State, t: string, row: nat, v: Value, i: nat,
                                     created: bool, skipPrimary: bool, diff: bool, r: Result)
    requires SchemaOk(e) && Shaped(e, st.store) && t in e.schema && row < |st.store[t]| && i < |e.schema[t].props|
    requires Shaped(e, r.state.store) && Grows(st.store, r.state.store) && Linkless(e.schema[t])
    requires Populated(e, e.schema[t], t, row, st.store[t][row][i], v, i, created, skipPrimary, diff)
      == Outcome(st.store[t][row][i], None)
    requires PopulateMeans(e, st, t, row, v, i + 1, created, skipPrimary, diff, r)
    ensures PopulateMeans(e, st, t, row, v, i, created, skipPrimary, diff, r)
  {
    hide SchemaOk, Populated;
    PopulatedDefs(e, e.schema[t], t, row, st.store[t][row], v, i, created, skipPrimary, diff);
  }

  lemma {:induction false} MeansStop(e: Env, st: State, t: string, row: nat, v: Value, i: nat,
                                     created: bool, skipPrimary: bool, diff: bool, r: Result)
    requires SchemaOk(e) && Shaped(e, st.store) && t in e.schema && row < |st.store[t]| && i < |e.schema[t].props|
    requires Linkless(e.schema[t]) && r.state == st && r.error.Some?
    requires Populated(e, e.schema[t], t, row, st.store[t][row][i], v, i, created, skipPrimary, diff).error.Some?
    ensures PopulateMeans(e, st, t, row, v, i, created, skipPrimary, diff, r)
  {
    hide SchemaOk, Populated;
    SameStore(st.store, t, row);
  }

  lemma {:induction false} MeansDone(e: Env, st: State, t: string, row: nat, v: Value,
                                     created: bool, skipPrimary: bool, diff: bool, r: Result)
    requires SchemaOk(e) && Shaped(e, st.store) && t in e.schema && row < |st.store[t]|
    requires Linkless(e.schema[t]) && r.state == st && r.error.None?
    ensures PopulateMeans(e, st, t, row, v, |e.schema[t].props|, created, skipPrimary, diff, r)
  {
    hide SchemaOk, Populated;
    SameStore(st.store, t, row);
  }

  lemma {:induction false} PopulateSet(e: Env, st: State, t: string, row: nat, v: Value, i: nat,
                                       created: bool, skipPrimary: bool, update: bool, diff: bool)
    requires SchemaOk(e) && Shaped(e, st.store) && t in e.schema && row < |st.store[t]| && i < |e.schema[t].props|
    requires Linkless(e.schema[t]) && RowDue(e.schema[t], st.store[t][row])
    requires !(skipPrimary && e.schema[t].primary == Some(i)) && v.Obj? && Supplied(e.schema[t], v, i, created).Set?
    ensures PopulateMeans(e, st, t, row, v, i, created, skipPrimary, diff,
                          Populate(e, st, t, row, v, i, created, skipPrimary, update, diff))
    decreases |e.schema[t].props| - i, 0
  {
    hide SchemaOk, SetProp, Supplied, Written, PutCell, Populated, AllPopulate, PopulatedFrom, ListWhereDue;
    var o, was, supplied := e.schema[t], st.store[t][row], Supplied(e.schema[t], v, i, created);
    PopulatedDefs(e, o, t, row, was, v, i, created, skipPrimary, diff);
    PopulatedCell(e, o, t, row, was, v, i, created, skipPrimary, diff);
    SetPropResult(e, st, t, row, i, supplied.value, update, diff, supplied.isDefault);
    var r := SetProp(e, st, t, row, i, supplied.value, update, diff, supplied.isDefault);
    var c := Written(e, o.props[i], ListOf(t, row, i), was[i], supplied.value, diff).cell;
    if r.error.Some? {
      PutInRow(st.store, t, row, i, c, was[i := c]);
    } else {
      var done := Populate(e, r.state, t, row, v, i + 1, created, skipPrimary, update, diff);
      PutInRow(st.store, t, row, i, c, done.state.store[t][row]);
      PopulateResult(e, r.state, t, row, v, i + 1, created, skipPrimary, update, diff);
      SameRest(e, o, t, row, was, was[i := c], v, i, created, skipPrimary, diff);
      if done.error.None? {
        PopulatedBack(e, o, t, row, was, c, done.state.store[t][row], v, i, created, skipPrimary, diff);
      }
    }
  }

  /** One step of the loop, as the specification sees it. */
  lemma {:induction false} PopulatedDefs(e: Env, o: ObjectSchema, t: string, r: nat, was: Row, v: Value, i: nat,
                                         created: bool, skipPrimary: bool, diff: bool)
    requires Linkless(o) && |was| == |o.props| && i < |was|
    ensures
      var x := Populated(e, o, t, r, was[i], v, i, created, skipPrimary, diff);
      && (AllPopulate(e, o, t, r, was, v, i, created, skipPrimary, diff)
          <==> x.error.None? && AllPopulate(e, o, t, r, was, v, i + 1, created, skipPrimary, diff))
      && (x.cell == was[i] ==> forall now ::
            PopulatedFrom(e, o, t, r, was, now, v, i + 1, created, skipPrimary, diff)
            ==> PopulatedFrom(e, o, t, r, was, now, v, i, created, skipPrimary, diff))
  {
    hide Populated;
  }

  lemma {:induction false} PopulatedCell(e: Env, o: ObjectSchema, t: string, r: nat, was: Row, v: Value, i: nat,
                                         created: bool, skipPrimary: bool, diff: bool)
    requires Linkless(o) && |was| == |o.props| && i < |was|
    ensures Populated(e, o, t, r, was[i], v, i, created, skipPrimary, diff) ==
      if skipPrimary && o.primary == Some(i) then Outcome(was[i], None)
      else if !v.Obj? then Outcome(was[i], Some(BadValue))
      else match Supplied(o, v, i, created)
        case NotSet => Outcome(was[i], None)
        case Refused => Outcome(was[i], Some(MissingValue))
        case Set(y, _) => Written(e, o.props[i], ListOf(t, r, i), was[i], y, diff)
  {
    hide Supplied, Written;
  }

  lemma {:induction false} PopulatedBack(e: Env, o: ObjectSchema, t: string, r: nat, was: Row, c: Cell, now: Row, v: Value, i: nat,
                                         created: bool, skipPrimary: bool, diff: bool)
    requires Linkless(o) && |was| == |o.props| && i < |was|
    requires PopulatedFrom(e, o, t, r, was[i := c], now, v, i + 1, created, skipPrimary, diff)
    requires c == Populated(e, o, t, r, was[i], v, i, created, skipPrimary, diff).cell
    ensures PopulatedFrom(e, o, t, r, was, now, v, i, created, skipPrimary, diff)
  {
  }

  lemma {:induction false} PutInRow(s: Store, t: string, row: nat, i: nat, c: Cell, x: Row)
    requires t in s && row < |s[t]| && i < |s[t][row]|
    ensures var s1 := PutCell(s, t, row, i, c);
      && t in s1 && row < |s1[t]| && s1[t][row] == s[t][row][i := c]
      && s1 == s[t := s[t][row := s[t][row][i := c]]]
      && s1[t := s1[t][row := x]] == s[t := s[t][row := x]]
  {
    var s1 := PutCell(s, t, row, i, c);
    assert s1[t][row := x] == s[t][row := x];
  }

  lemma {:induction false} SameStore(s: Store, t: string, row: nat)
    requires t in s && row < |s[t]|
    ensures s == s[t := s[t][row := s[t][row]]]
  {
    assert s[t][row := s[t][row]] == s[t];
  }

  lemma {:induction false} SameRest(e: Env, o: ObjectSchema, t: string, r: nat, was: Row, now: Row, v: Value, i: nat,
                                    created: bool, skipPrimary: bool, diff: bool)
    requires Linkless(o) && |was| == |o.props| && |now| == |was| && i < |was| && now == was[i := now[i]]
    ensures AllPopulate(e, o, t, r, was, v, i + 1, created, skipPrimary, diff)
      <==> AllPopulate(e, o, t, r, now, v, i + 1, created, skipPrimary, diff)
    ensures forall j :: i < j < |was| ==> now[j] == was[j]
  {
    hide Populated;
    forall j | i < j < |was| ensures now[j] == was[j] {
    }
    if AllPopulate(e, o, t, r, was, v, i + 1, created, skipPrimary, diff) {
      forall j | i + 1 <= j < |now| ensures Populated(e, o, t, r, now[j], v, j, created, skipPrimary, diff).error.None? {
        assert Populated(e, o, t, r, was[j], v, j, created, skipPrimary, diff).error.None?;
      }
    }
    if AllPopulate(e, o, t, r, now, v, i + 1, created, skipPrimary, diff) {
      forall j | i + 1 <= j < |was| ensures Populated(e, o, t, r, was[j], v, j, created, skipPrimary, diff).error.None? {
        assert Populated(e, o, t, r, now[j], v, j, created, skipPrimary, diff).error.None?;
      }
    }
  }

  lemma {:induction false} StartedDue(e: Env, st: State, t: string, v: Value, update: bool, diff: bool)
    requires SchemaOk(e) && Typed(e, st.store) && t in e.schema && !e.migrating && Linkless(e.schema[t])
    requires Create(e, st, t, v, update, diff, None).error.None?
    ensures var r, st1 := Create(e, st, t, v, update, diff, None), Started(e, st, t, v, update);
      r.row < |st1.store[t]| && RowDue(e.schema[t], st1.store[t][r.row])
  {
    hide Populate, Typed, SchemaOk, Create, Started;
    TypedShaped(e, st.store);
    CreateStarts(e, st, t, v, update, diff);
    StartedTyped(e, st, t, v, update);
    var r, st1 := Create(e, st, t, v, update, diff, None), Started(e, st, t, v, update);
    forall i | 0 <= i < |e.schema[t].props|
      ensures |st1.store[t][r.row]| == |e.schema[t].props|
      ensures ListWhereDue(e.schema[t].props[i], st1.store[t][r.row][i])
    {
      CellOf(e, st1.store, t, r.row, i);
    }
  }

  lemma {:induction false} StartedTyped(e: Env, st: State, t: string, v: Value, update: bool)
    requires SchemaOk(e) && Typed(e, st.store) && t in e.schema && !e.migrating
    ensures Typed(e, Started(e, st, t, v, update).store)
  {
  }

  lemma {:induction false} StartedCell(e: Env, st: State, t: string, v: Value, update: bool, diff: bool, i: nat)
    requires SchemaOk(e) && Shaped(e, st.store) && t in e.schema && !e.migrating
    requires Create(e, st, t, v, update, diff, None).error.None?
    requires i < |e.schema[t].props| && e.schema[t].primary != Some(i)
    ensures var r, st1 := Create(e, st, t, v, update, diff, None), Started(e, st, t, v, update);
      r.row < |st1.store[t]| && r.row <= |st.store[t]| &&
      st1.store[t][r.row][i] == if r.row == |st.store[t]| then InitialCell(e.schema[t].props[i]) else st.store[t][r.row][i]
  {
  }

  // ---------- differential against full ----------

  /** The property is written, and a differential write would take a null for its
      value. */
  predicate NullLeft(e: Env, o: ObjectSchema, c: Cell, v: Value, i: nat, created: bool)
    requires i < |o.props|
  {
    v.Obj? && o.primary != Some(i) && Supplied(o, v, i, created).Set?
    && TakesNull(e, o.props[i], c, Supplied(o, v, i, created).value)
  }

  /** Creating or updating an object without links: differential and full writes fail
      together, and when they return they leave the same tables exactly if nothing is
      written over a null that reads as it. */
  lemma {:induction false} DiffEqualsFullIff(e: Env, st: State, t: string, v: Value, update: bool)
    requires SchemaOk(e) && Typed(e, st.store) && t in e.schema && !e.migrating && Linkless(e.schema[t])
    ensures var f, d := Create(e, st, t, v, update, false, None), Create(e, st, t, v, update, true, None);
      && (f.error.None? <==> d.error.None?)
      && (f.error.None? ==>
          f.row == d.row && f.row <= |st.store[t]|
          && (f.state.store == d.state.store <==>
              forall i :: 0 <= i < |e.schema[t].props| ==>
                !NullLeft(e, e.schema[t],
                          if f.row == |st.store[t]| then InitialCell(e.schema[t].props[i]) else st.store[t][f.row][i],
                          v, i, f.row == |st.store[t]|)))
  {
    hide Populate, Typed, SchemaOk, Create, Started, Supplied;
    TypedShaped(e, st.store);
    var f, d := Create(e, st, t, v, update, false, None), Create(e, st, t, v, update, true, None);
    SameErrors(e, st, t, v, update);
    if f.error.None? {
      CreateStarts(e, st, t, v, update, false);
      CreateStarts(e, st, t, v, update, true);
      SameRow(e, st, t, v, update);
      StartedDue(e, st, t, v, update, false);
      var st1, created := Started(e, st, t, v, update), f.row == |st.store[t]|;
      PopulateResult(e, st1, t, f.row, v, 0, created, true, update, false);
      PopulateResult(e, st1, t, f.row, v, 0, created, true, update, true);
      var o, was, fr, dr := e.schema[t], st1.store[t][f.row], f.state.store[t][f.row], d.state.store[t][f.row];
      forall i | 0 <= i < |o.props|
        ensures fr[i] == dr[i] <==>
          !NullLeft(e, o, if created then InitialCell(o.props[i]) else st.store[t][f.row][i], v, i, created)
      {
        CellSameIff(e, t, f.row, was[i], v, i, created);
        if o.primary != Some(i) {
          StartedCell(e, st, t, v, update, false, i);
        }
        assert Populated(e, o, t, f.row, was[i], v, i, created, true, false).error.None?;
      }
      if forall i :: 0 <= i < |o.props| ==> fr[i] == dr[i] {
        assert fr == dr;
      }
    }
  }

  lemma {:induction false} CellSameIff(e: Env, t: string, r: nat, c: Cell, v: Value, i: nat, created: bool)
    requires SchemaOk(e) && t in e.schema && Linkless(e.schema[t]) && i < |e.schema[t].props|
    requires ListWhereDue(e.schema[t].props[i], c)
    ensures var o := e.schema[t];
      var f, d := Populated(e, o, t, r, c, v, i, created, true, false), Populated(e, o, t, r, c, v, i, created, true, true);
      f.error == d.error && (f.error.None? ==> (f.cell == d.cell <==> !NullLeft(e, o, c, v, i, created)))
  {
  }

  lemma {:induction false} SameRow(e: Env, st: State, t: string, v: Value, update: bool)
    requires SchemaOk(e) && Shaped(e, st.store) && t in e.schema && !e.migrating
    requires Create(e, st, t, v, update, false, None).error.None? && Create(e, st, t, v, update, true, None).error.None?
    ensures Create(e, st, t, v, update, false, None).row == Create(e, st, t, v, update, true, None).row
  {
  }

  lemma {:induction false} SameErrors(e: Env, st: State, t: string, v: Value, update: bool)
    requires SchemaOk(e) && Typed(e, st.store) && t in e.schema && !e.migrating && Linkless(e.schema[t])
    ensures Create(e, st, t, v, update, false, None).error.None? <==> Create(e, st, t, v, update, true, None).error.None?
  {
    hide Populate, Typed, InitialRow;
    TypedShaped(e, st.store);
    var st1 := Started(e, st, t, v, update);
    StartedTyped(e, st, t, v, update);
    forall row: nat, created | row < |st1.store[t]|
      ensures Populate(e, st1, t, row, v, 0, created, true, update, false).error.None?
        <==> Populate(e, st1, t, row, v, 0, created, true, update, true).error.None?
    {
      PopulateErrors(e, st1, t, row, v, created, update);
    }
  }

  lemma {:induction false} PopulateErrors(e: Env, st: State, t: string, row: nat, v: Value, created: bool, update: bool)
    requires SchemaOk(e) && Typed(e, st.store) && t in e.schema && Linkless(e.schema[t]) && row < |st.store[t]|
    ensures Populate(e, st, t, row, v, 0, created, true, update, false).error.None?
      <==> Populate(e, st, t, row, v, 0, created, true, update, true).error.None?
  {
    hide Populate, Typed, SchemaOk, Populated;
    TypedShaped(e, st.store);
    var o, was := e.schema[t], st.store[t][row];
    forall i | 0 <= i < |o.props| ensures |was| == |o.props| && ListWhereDue(o.props[i], was[i]) {
      CellOf(e, st.store, t, row, i);
    }
    PopulateResult(e, st, t, row, v, 0, created, true, update, false);
    PopulateResult(e, st, t, row, v, 0, created, true, update, true);
    forall i | 0 <= i < |o.props|
      ensures Populated(e, o, t, row, was[i], v, i, created, true, false).error
           == Populated(e, o, t, row, was[i], v, i, created, true, true).error
    {
      CellSameIff(e, t, row, was[i], v, i, created);
    }
  }

  /** A new object with a number in a nullable property: written in full it holds the
      number, written differentially it holds null exactly if a null reads as it. */
  lemma {:induction false} DiffLosesReading(nulls: map<Kind, Scalar>, n: int)
    ensures var e := Counters(nulls);
      var st, v, lost := State(map["Counter" := []], []), Obj([Some(Val(Scalar(Int, n)))], false), Int in nulls && nulls[Int] == Scalar(Int, n);
      && SchemaOk(e) && Shaped(e, st.store)
      && Create(e, st, "Counter", v, false, false, None).state.store["Counter"] == [[One(Scalar(Int, n))]]
      && Create(e, st, "Counter", v, false, true, None).state.store["Counter"] == [[if lost then Nil else One(Scalar(Int, n))]]
  {
    var e := Counters(nulls);
    var st, v := State(map["Counter" := []], []), Obj([Some(Val(Scalar(Int, n)))], false);
    var st1 := Do(e, st, Append("Counter", InitialRow(e.schema["Counter"].props)));
    assert InitialRow(e.schema["Counter"].props) == [Nil];
    assert st1.store["Counter"] == [[Nil]];
    PopulateNumber(e, st1, v, n, false);
    PopulateNumber(e, st1, v, n, true);
  }

  ghost function Counters(nulls: map<Kind, Scalar>): Env {
    Env(map["Counter" := ObjectSchema([Property(Plain(Int), true, false, None)], None)], false, nulls)
  }

  lemma {:induction false} PopulateNumber(e: Env, st: State, v: Value, n: int, diff: bool)
    requires e == Counters(e.nullReads) && SchemaOk(e) && Shaped(e, st.store) && st.store["Counter"] == [[Nil]]
    requires v == Obj([Some(Val(Scalar(Int, n)))], false)
    ensures Populate(e, st, "Counter", 0, v, 0, true, true, false, diff).state.store["Counter"]
         == [[if diff && Int in e.nullReads && e.nullReads[Int] == Scalar(Int, n) then Nil else One(Scalar(Int, n))]]
  {
    var t, x := "Counter", Val(Scalar(Int, n));
    SetPropResult(e, st, t, 0, 0, x, false, diff, false);
    var r := SetProp(e, st, t, 0, 0, x, false, diff, false);
    assert r.state.store[t][0] == [Written(e, e.schema[t].props[0], ListOf(t, 0, 0), Nil, x, diff).cell];
    assert r.state.store[t] == [r.state.store[t][0]];
    assert Populate(e, r.state, t, 0, v, 1, true, true, false, diff) == Result(r.state, None, 0);
    assert Populate(e, st, t, 0, v, 0, true, true, false, diff) == Populate(e, r.state, t, 0, v, 1, true, true, false, diff);
  }
}
