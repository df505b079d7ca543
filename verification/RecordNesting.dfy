/** Objects within objects: what a nested object can do to the one it is supplied with,
    and so when every property ends up with its supplied value. */
module RecordNesting {
  import opened Common
  import opened Records
  import opened RecordLaws
  import opened RecordRuns
  import opened RecordWrites
  import opened RecordDiffs

  // ---------- rows a supplied value cannot reach ----------

  /** The cell the primary key of a supplied object has. */
  function KeyCell(o: ObjectSchema, v: Value): Option<Cell> {
    if o.primary.None? || o.primary.value >= |o.props| || !v.Obj? then None
    else
      match KeyValue(o.props[o.primary.value], v, o.primary.value)
      case Some(Null) => Some(Nil)
      case Some(Val(scalar)) => Some(One(scalar))
      case _ => None
  }

  /** No object in the value, directly or below, is the one of type `t` with the key;
      without a key, a differential write may take over any object of the type. */
  ghost predicate Avoids(e: Env, t: string, key: Cell, diff: bool, base: Base, v: Value)
    decreases v
  {
    match v
    case Obj(fields, _) =>
      base.Object? && base.target in e.schema ==>
        && (base.target == t ==>
              if e.schema[t].primary.Some? then KeyCell(e.schema[t], v) != Some(key) else !diff)
        && FieldsAvoid(e, t, key, diff, base.target, v)
    case Items(items) => forall k :: 0 <= k < |items| ==> Avoids(e, t, key, diff, base, items[k])
    case _ => true
  }

  /** The same of the objects below. */
  ghost predicate FieldsAvoid(e: Env, t: string, key: Cell, diff: bool, u: string, v: Value)
    requires v.Obj? && u in e.schema
    decreases v, 0
  {
    forall i :: 0 <= i < |v.fields| && i < |e.schema[u].props| && v.fields[i].Some? ==>
      Avoids(e, t, key, diff, e.schema[u].props[i].base, v.fields[i].value)
  }

  lemma {:induction false} AvoidsInFull(e: Env, t: string, key: Cell, diff: bool, base: Base, v: Value)
    requires Avoids(e, t, key, diff, base, v)
    ensures Avoids(e, t, key, false, base, v)
    decreases v
  {
    match v
    case Obj(fields, _) =>
      if base.Object? && base.target in e.schema {
        forall i | 0 <= i < |fields| && i < |e.schema[base.target].props| && fields[i].Some?
          ensures Avoids(e, t, key, false, e.schema[base.target].props[i].base, fields[i].value)
        {
          AvoidsInFull(e, t, key, diff, e.schema[base.target].props[i].base, fields[i].value);
        }
      }
    case Items(items) =>
      forall k | 0 <= k < |items| ensures Avoids(e, t, key, false, base, items[k]) {
        AvoidsInFull(e, t, key, diff, base, items[k]);
      }
    case _ =>
  }

  lemma {:induction false} FlatAvoids(e: Env, t: string, key: Cell, diff: bool, base: Base, v: Value)
    requires Flat(v)
    ensures Avoids(e, t, key, diff, base, v)
  {
  }

  lemma {:induction false} SuppliedAvoids(e: Env, t: string, key: Cell, diff: bool, u: string, v: Value, i: nat, created: bool)
    requires SchemaOk(e) && u in e.schema && v.Obj? && FieldsAvoid(e, t, key, diff, u, v)
    requires i < |e.schema[u].props| && Supplied(e.schema[u], v, i, created).Set?
    ensures Avoids(e, t, key, diff, e.schema[u].props[i].base, Supplied(e.schema[u], v, i, created).value)
  {
    var p := e.schema[u].props[i];
    assert PropertyOk(e, p);
    if Field(v, i).None? {
      FlatAvoids(e, t, key, diff, p.base, p.default.value);
    }
  }

  /** The row of type `t` with the key. */
  ghost predicate RowHas(e: Env, s: Store, t: string, r: nat, key: Cell) {
    && SchemaOk(e) && Shaped(e, s) && t in e.schema && r < |s[t]|
    && (e.schema[t].primary.Some? ==> s[t][r][e.schema[t].primary.value] == key)
  }

  ghost predicate SameCells(e: Env, s: Store, s': Store, t: string, r: nat) {
    && Shaped(e, s) && Shaped(e, s') && Grows(s, s') && t in e.schema && r < |s[t]|
    && s'[t][r] == s[t][r]
  }

  lemma {:induction false} SameRowHas(e: Env, s: Store, s': Store, t: string, r: nat, key: Cell)
    requires RowHas(e, s, t, r, key) && SameCells(e, s, s', t, r)
    ensures RowHas(e, s', t, r, key)
  {
  }

  lemma {:induction false} SameCellsOn(e: Env, a: Store, b: Store, c: Store, t: string, r: nat)
    requires SameCells(e, a, b, t, r) && SameCells(e, b, c, t, r)
    ensures SameCells(e, a, c, t, r)
  {
  }

  lemma {:induction false} SameCellsStill(e: Env, s: Store, t: string, r: nat)
    requires Shaped(e, s) && t in e.schema && r < |s[t]|
    ensures SameCells(e, s, s, t, r)
  {
  }

  lemma {:induction false} WriteSpares(e: Env, st: State, w: Write, t: string, r: nat)
    requires Shaped(e, st.store) && Fits(e, st.store, w) && t in e.schema && r < |st.store[t]|
    requires !w.Append? ==> w.type_ != t || w.row != r
    ensures SameCells(e, st.store, Do(e, st, w).store, t, r)
  {
  }

  lemma {:induction false} AppendedLength(e: Env, st: State, t: string, cells: Row)
    requires Shaped(e, st.store) && t in e.schema && |cells| == |e.schema[t].props|
    ensures |Do(e, st, Append(t, cells)).store[t]| == |st.store[t]| + 1
  {
  }

  lemma {:induction false} FoundKey(rows: seq<Row>, p: Property, col: nat, o: ObjectSchema, v: Value)
    requires o.primary == Some(col) && col < |o.props| && p == o.props[col] && p.base.Plain? && v.Obj? && KeyValue(p, v, col).Some?
    requires forall k :: 0 <= k < |rows| ==> col < |rows[k]|
    ensures var found := FindKey(rows, p, col, KeyValue(p, v, col).value);
      found.Found? ==>
        && KeyCell(o, v) == Some(found.key)
        && (found.row.Some? ==> found.row.value < |rows| && rows[found.row.value][col] == found.key)
  {
  }

  /** Creating or updating an object leaves the row alone if its value avoids it. */
  lemma {:induction false} CreateSpares(e: Env, st: State, u: string, v: Value, update: bool, diff: bool, current: Option<nat>,
                                        t: string, r: nat, key: Cell)
    requires RowHas(e, st.store, t, r, key) && u in e.schema && !e.migrating
    requires Avoids(e, t, key, diff, Object(u), v)
    ensures SameCells(e, st.store, Create(e, st, u, v, update, diff, current).state.store, t, r)
    decreases Depth(v), 2, 0
  {
    hide Do, Populate, InitialRow, SameCells, RowHas, Avoids, KeyCell, SchemaOk, KeyValue;
    RowFacts(e, st.store, t, r, key);
    TableFacts(e, st.store, u);
    SameCellsStill(e, st.store, t, r);
    var props, primary, rows := e.schema[u].props, e.schema[u].primary, st.store[u];
    ObjAvoids(e, t, key, diff, u, v);
    match primary
    case Some(col) =>
      if v.Obj? && KeyValue(props[col], v, col).Some? {
        FoundKey(rows, props[col], col, e.schema[u], v);
        match FindKey(rows, props[col], col, KeyValue(props[col], v, col).value)
        case NotFound(_) =>
        case Found(None, k) => NewSpares(e, st, u, InitialRow(props)[col := k], v, update, diff, t, r, key);
        case Found(Some(row), _) =>
          if update {
            RowElse(e, st.store, u, row, t, r, key);
            PopulateSpares(e, st, u, row, v, 0, false, update, diff, t, r, key);
          }
      }
    case None =>
      if diff && current.Some? && current.value < |rows| {
        if v.Obj? {
          PopulateSpares(e, st, u, current.value, v, 0, false, update, diff, t, r, key);
        } else {
          PopulateNoObject(e, st, u, current.value, v, update, diff);
        }
      } else {
        NewSpares(e, st, u, InitialRow(props), v, update, diff, t, r, key);
      }
  }

  lemma {:induction false} PopulateNoObject(e: Env, st: State, u: string, row: nat, v: Value, update: bool, diff: bool)
    requires SchemaOk(e) && Shaped(e, st.store) && u in e.schema && row < |st.store[u]|
    requires !v.Obj? && e.schema[u].primary.None?
    ensures Populate(e, st, u, row, v, 0, false, true, update, diff).state == st
  {
  }

  lemma {:induction false} RowFacts(e: Env, s: Store, t: string, r: nat, key: Cell)
    requires RowHas(e, s, t, r, key)
    ensures SchemaOk(e) && Shaped(e, s) && t in e.schema && r < |s[t]|
  {
  }

  lemma {:induction false} TableFacts(e: Env, s: Store, u: string)
    requires SchemaOk(e) && Shaped(e, s) && u in e.schema
    ensures KeyOk(e.schema[u]) && RowsShaped(s[u], |e.schema[u].props|)
  {
  }

  lemma {:induction false} RowElse(e: Env, s: Store, u: string, row: nat, t: string, r: nat, key: Cell)
    requires RowHas(e, s, t, r, key) && u in e.schema && row < |s[u]| && e.schema[u].primary.Some?
    requires u == t ==> s[u][row][e.schema[u].primary.value] != key
    ensures u != t || row != r
  {
  }

  lemma {:induction false} ObjAvoids(e: Env, t: string, key: Cell, diff: bool, u: string, v: Value)
    requires u in e.schema && Avoids(e, t, key, diff, Object(u), v)
    ensures v.Obj? ==> FieldsAvoid(e, t, key, diff, u, v)
    ensures v.Obj? && u == t ==> if e.schema[t].primary.Some? then KeyCell(e.schema[t], v) != Some(key) else !diff
  {
  }

  lemma {:induction false} NewSpares(e: Env, st: State, u: string, cells: Row, v: Value, update: bool, diff: bool,
                                     t: string, r: nat, key: Cell)
    requires RowHas(e, st.store, t, r, key) && u in e.schema && !e.migrating && |cells| == |e.schema[u].props|
    requires v.Obj? ==> FieldsAvoid(e, t, key, diff, u, v)
    ensures |Do(e, st, Append(u, cells)).store[u]| == |st.store[u]| + 1
    ensures SameCells(e, st.store,
              Populate(e, Do(e, st, Append(u, cells)), u, |st.store[u]|, v, 0, true, true, update, diff).state.store, t, r)
    decreases Depth(v), 1, |e.schema[u].props| + 1
  {
    hide Do, Populate, SameCells, RowHas, Avoids, SchemaOk, FieldsAvoid;
    RowFacts(e, st.store, t, r, key);
    AppendedLength(e, st, u, cells);
    WriteSpares(e, st, Append(u, cells), t, r);
    var st1 := Do(e, st, Append(u, cells));
    SameRowHas(e, st.store, st1.store, t, r, key);
    PopulateSpares(e, st1, u, |st.store[u]|, v, 0, true, update, diff, t, r, key);
    SameCellsOn(e, st.store, st1.store, Populate(e, st1, u, |st.store[u]|, v, 0, true, true, update, diff).state.store, t, r);
  }

  lemma {:induction false} PopulateSpares(e: Env, st: State, u: string, row: nat, v: Value, i: nat, created: bool,
                                          update: bool, diff: bool, t: string, r: nat, key: Cell)
    requires RowHas(e, st.store, t, r, key) && u in e.schema && !e.migrating && row < |st.store[u]|
    requires i <= |e.schema[u].props| && (u != t || row != r) && (v.Obj? ==> FieldsAvoid(e, t, key, diff, u, v))
    ensures SameCells(e, st.store, Populate(e, st, u, row, v, i, created, true, update, diff).state.store, t, r)
    decreases Depth(v), 1, |e.schema[u].props| - i
  {
    hide SameCells, RowHas, Avoids, SchemaOk, FieldsAvoid, SetProp, Supplied, Shaped;
    RowFacts(e, st.store, t, r, key);
    SameCellsStill(e, st.store, t, r);
    if i < |e.schema[u].props| {
      if e.schema[u].primary == Some(i) {
        PopulateSpares(e, st, u, row, v, i + 1, created, update, diff, t, r, key);
      } else if v.Obj? {
        var supplied := Supplied(e.schema[u], v, i, created);
        if supplied.NotSet? {
          PopulateSpares(e, st, u, row, v, i + 1, created, update, diff, t, r, key);
        } else if supplied.Set? {
          DefaultFlat(e, u, i);
          FieldSmaller(e.schema[u], v, i, created);
          SuppliedAvoids(e, t, key, diff, u, v, i, created);
          PlaceOf(e, st.store, u, row, i);
          SetPropSpares(e, st, u, row, i, supplied.value, update, diff, supplied.isDefault, t, r, key);
          var next := SetProp(e, st, u, row, i, supplied.value, update, diff, supplied.isDefault);
          if next.error.None? {
            SameRowHas(e, st.store, next.state.store, t, r, key);
            PopulateSpares(e, next.state, u, row, v, i + 1, created, update, diff, t, r, key);
            SameCellsOn(e, st.store, next.state.store,
                        Populate(e, next.state, u, row, v, i + 1, created, true, update, diff).state.store, t, r);
          }
        }
      }
    }
  }

  lemma {:induction false} PlaceOf(e: Env, s: Store, u: string, row: nat, i: nat)
    requires Shaped(e, s) && u in e.schema && u in s && row < |s[u]| && i < |e.schema[u].props|
    ensures Place(e, s, u, row, i)
  {
  }

  lemma {:induction false} DefaultFlat(e: Env, u: string, i: nat)
    requires SchemaOk(e) && u in e.schema && i < |e.schema[u].props|
    ensures PropertyOk(e, e.schema[u].props[i])
  {
  }

  lemma {:induction false} SetPropSpares(e: Env, st: State, u: string, row: nat, i: nat, v: Value, update: bool, diff: bool,
                                         isDefault: bool, t: string, r: nat, key: Cell)
    requires RowHas(e, st.store, t, r, key) && Place(e, st.store, u, row, i) && !e.migrating && (u != t || row != r)
    requires Avoids(e, t, key, diff, e.schema[u].props[i].base, v)
    ensures SameCells(e, st.store, SetProp(e, st, u, row, i, v, update, diff, isDefault).state.store, t, r)
    decreases Depth(v), 6, 0
  {
    hide SameCells, RowHas, Avoids, SchemaOk, Unbox, Assign, Do;
    RowFacts(e, st.store, t, r, key);
    SameCellsStill(e, st.store, t, r);
    DefaultFlat(e, u, i);
    var p, cell := e.schema[u].props[i], st.store[u][row][i];
    if p.nullable && v.Null? {
      WriteSpares(e, st, Put(u, row, i, Nil), t, r);
    } else if p.list {
      AssignSpares(e, st, u, row, i, v, update, diff, t, r, key);
    } else if !p.base.Any? {
      var current := if p.base.Object? then LinkRow(cell) else None;
      UnboxSpares(e, st, p.base, v, update, diff, current, t, r, key);
      var x := Unbox(e, st, p.base, v, update, diff, current);
      if x.error.None? {
        ThenSpares(e, st.store, x.state, Put(u, row, i, x.cell), t, r);
      }
    }
  }

  lemma {:induction false} ThenSpares(e: Env, s: Store, st: State, w: Write, t: string, r: nat)
    requires SameCells(e, s, st.store, t, r) && Fits(e, st.store, w)
    requires !w.Append? ==> w.type_ != t || w.row != r
    ensures SameCells(e, s, Do(e, st, w).store, t, r)
  {
    hide Do, Fits;
    WriteSpares(e, st, w, t, r);
  }

  lemma {:induction false} UnboxSpares(e: Env, st: State, base: Base, v: Value, update: bool, diff: bool, current: Option<nat>,
                                       t: string, r: nat, key: Cell)
    requires RowHas(e, st.store, t, r, key) && !e.migrating && (base.Object? ==> base.target in e.schema)
    requires Avoids(e, t, key, diff, base, v)
    ensures SameCells(e, st.store, Unbox(e, st, base, v, update, diff, current).state.store, t, r)
    decreases Depth(v), 3, 0
  {
    hide SameCells, RowHas, Avoids, SchemaOk, Create;
    RowFacts(e, st.store, t, r, key);
    SameCellsStill(e, st.store, t, r);
    if base.Object? && !v.Managed? {
      CreateSpares(e, st, base.target, v, update, diff, current, t, r, key);
    }
  }

  lemma {:induction false} AssignSpares(e: Env, st: State, u: string, row: nat, i: nat, v: Value, update: bool, diff: bool,
                                        t: string, r: nat, key: Cell)
    requires RowHas(e, st.store, t, r, key) && Place(e, st.store, u, row, i) && !e.migrating && (u != t || row != r)
    requires Avoids(e, t, key, diff, e.schema[u].props[i].base, v)
    ensures SameCells(e, st.store, Assign(e, st, u, row, i, v, update, diff).state.store, t, r)
    decreases Depth(v), 5, 0
  {
    hide SameCells, RowHas, Avoids, SchemaOk, AssignFrom, Do;
    RowFacts(e, st.store, t, r, key);
    SameCellsStill(e, st.store, t, r);
    WriteSpares(e, st, Edit(u, row, i, Clear), t, r);
    var start := if diff then st else Do(e, st, Edit(u, row, i, Clear));
    if v.Items? {
      SameRowHas(e, st.store, start.store, t, r, key);
      var size := if diff then |Elems(st.store[u][row][i])| else 0;
      AssignFromSpares(e, start, u, row, i, v, 0, size, update, diff, t, r, key);
      SameCellsOn(e, st.store, start.store, AssignFrom(e, start, u, row, i, v, 0, size, update, diff).state.store, t, r);
    }
  }

  lemma {:induction false} AssignFromSpares(e: Env, st: State, u: string, row: nat, i: nat, v: Value, k: nat, size: nat,
                                            update: bool, diff: bool, t: string, r: nat, key: Cell)
    requires RowHas(e, st.store, t, r, key) && Place(e, st.store, u, row, i) && !e.migrating && (u != t || row != r)
    requires v.Items? && k <= |v.items| && (!diff ==> size == 0)
    requires Avoids(e, t, key, diff, e.schema[u].props[i].base, v)
    ensures SameCells(e, st.store, AssignFrom(e, st, u, row, i, v, k, size, update, diff).state.store, t, r)
    decreases Depth(v), 4, |v.items| - k
  {
    hide SameCells, RowHas, Avoids, SchemaOk, SetElement, AddElement, Trim;
    RowFacts(e, st.store, t, r, key);
    SameCellsStill(e, st.store, t, r);
    if k == |v.items| {
      if diff && k < size {
        TrimSpares(e, st, u, row, i, k, size - k, t, r);
      }
    } else {
      ElementSpares(e, st, u, row, i, v, k, update, diff, t, r, key);
      var next := if k < size then SetElement(e, st, u, row, i, v, k, update) else AddElement(e, st, u, row, i, v, k, update);
      if next.error.None? {
        SameRowHas(e, st.store, next.state.store, t, r, key);
        AssignFromSpares(e, next.state, u, row, i, v, k + 1, size, update, diff, t, r, key);
        SameCellsOn(e, st.store, next.state.store,
                    AssignFrom(e, next.state, u, row, i, v, k + 1, size, update, diff).state.store, t, r);
      }
    }
  }

  lemma {:induction false} ItemAvoids(e: Env, t: string, key: Cell, diff: bool, base: Base, v: Value, k: nat)
    requires v.Items? && k < |v.items| && Avoids(e, t, key, diff, base, v)
    ensures Avoids(e, t, key, diff, base, v.items[k])
  {
  }

  lemma {:induction false} ElementSpares(e: Env, st: State, u: string, row: nat, i: nat, v: Value, k: nat, update: bool,
                                         diff: bool, t: string, r: nat, key: Cell)
    requires RowHas(e, st.store, t, r, key) && Place(e, st.store, u, row, i) && !e.migrating && (u != t || row != r)
    requires v.Items? && k < |v.items| && Avoids(e, t, key, diff, e.schema[u].props[i].base, v)
    ensures SameCells(e, st.store, AddElement(e, st, u, row, i, v, k, update).state.store, t, r)
    ensures diff ==> SameCells(e, st.store, SetElement(e, st, u, row, i, v, k, update).state.store, t, r)
    decreases Depth(v), 4, 0
  {
    hide SameCells, RowHas, Avoids, SchemaOk, Unbox, AddElement, SetElement, Place;
    PlaceFacts(e, st.store, u, row, i);
    RowFacts(e, st.store, t, r, key);
    DefaultFlat(e, u, i);
    var base, cells := e.schema[u].props[i].base, Elems(st.store[u][row][i]);
    ItemSmaller(v, k);
    ItemAvoids(e, t, key, diff, base, v, k);
    AvoidsInFull(e, t, key, diff, base, v.items[k]);
    UnboxSpares(e, st, base, v.items[k], update, false, None, t, r, key);
    AddSpares(e, st, u, row, i, v, k, update, t, r, key);
    if diff {
      UnboxSpares(e, st, base, v.items[k], update, true, LinkRow(if k < |cells| then cells[k] else Nil), t, r, key);
      SetSpares(e, st, u, row, i, v, k, update, t, r, key);
    }
  }

  lemma {:induction false} PlaceFacts(e: Env, s: Store, u: string, row: nat, i: nat)
    requires Place(e, s, u, row, i)
    ensures Shaped(e, s) && u in e.schema && u in s && row < |s[u]| && i < |e.schema[u].props| && i < |s[u][row]|
  {
  }

  lemma {:induction false} AddSpares(e: Env, st: State, u: string, row: nat, i: nat, v: Value, k: nat, update: bool,
                                     t: string, r: nat, key: Cell)
    requires RowHas(e, st.store, t, r, key) && Place(e, st.store, u, row, i) && (u != t || row != r)
    requires v.Items? && k < |v.items|
    requires var base := e.schema[u].props[i].base;
      && (base.Object? ==> base.target in e.schema)
      && SameCells(e, st.store, Unbox(e, st, base, v.items[k], update, false, None).state.store, t, r)
    ensures SameCells(e, st.store, AddElement(e, st, u, row, i, v, k, update).state.store, t, r)
  {
    hide SameCells, RowHas, SchemaOk, Unbox, Do;
    RowFacts(e, st.store, t, r, key);
    var x := Unbox(e, st, e.schema[u].props[i].base, v.items[k], update, false, None);
    if x.error.None? {
      ThenSpares(e, st.store, x.state, Edit(u, row, i, Push(x.cell)), t, r);
    }
  }

  lemma {:induction false} SetSpares(e: Env, st: State, u: string, row: nat, i: nat, v: Value, k: nat, update: bool,
                                     t: string, r: nat, key: Cell)
    requires RowHas(e, st.store, t, r, key) && Place(e, st.store, u, row, i) && (u != t || row != r)
    requires v.Items? && k < |v.items|
    requires var base, cells := e.schema[u].props[i].base, Elems(st.store[u][row][i]);
      && (base.Object? ==> base.target in e.schema)
      && SameCells(e, st.store,
           Unbox(e, st, base, v.items[k], update, true, LinkRow(if k < |cells| then cells[k] else Nil)).state.store, t, r)
    ensures SameCells(e, st.store, SetElement(e, st, u, row, i, v, k, update).state.store, t, r)
  {
    hide SameCells, RowHas, SchemaOk, Unbox, Do;
    RowFacts(e, st.store, t, r, key);
    SameCellsStill(e, st.store, t, r);
    var cells := Elems(st.store[u][row][i]);
    if k < |cells| {
      var y := Unbox(e, st, e.schema[u].props[i].base, v.items[k], update, true, LinkRow(cells[k]));
      if y.error.None? {
        ThenSpares(e, st.store, y.state, Edit(u, row, i, SetAt(k, y.cell)), t, r);
      }
    }
  }

  lemma {:induction false} TrimSpares(e: Env, st: State, u: string, row: nat, i: nat, k: nat, n: nat, t: string, r: nat)
    requires Place(e, st.store, u, row, i) && t in e.schema && r < |st.store[t]| && (u != t || row != r)
    ensures SameCells(e, st.store, Trim(e, st, u, row, i, k, n).state.store, t, r)
    decreases n
  {
    hide SameCells, Do;
    SameCellsStill(e, st.store, t, r);
    if n > 0 && k < |Elems(st.store[u][row][i])| {
      WriteSpares(e, st, Edit(u, row, i, RemoveAt(k)), t, r);
      var st1 := Do(e, st, Edit(u, row, i, RemoveAt(k)));
      TrimSpares(e, st1, u, row, i, k, n - 1, t, r);
      SameCellsOn(e, st.store, st1.store, Trim(e, st1, u, row, i, k, n - 1).state.store, t, r);
    }
  }

  // ---------- what a cell has to hold ----------

  /** The cell stands for the value: a plain value as it is, a stored object by its
      row, another object by a row with its key. */
  ghost predicate HoldsElem(e: Env, s: Store, base: Base, c: Cell, x: Value) {
    match base
    case Plain(_) => x.Val? && c == One(x.scalar)
    case Object(u) =>
      && u in e.schema && u in s && c.Link? && c.row < |s[u]|
      && (if x.Managed? then c.row == x.row
          else e.schema[u].primary.Some? ==>
            e.schema[u].primary.value < |s[u][c.row]| &&
            KeyCell(e.schema[u], x) == Some(s[u][c.row][e.schema[u].primary.value]))
    case Any => false
  }

  ghost predicate HoldsAll(e: Env, s: Store, base: Base, cells: seq<Cell>, items: seq<Value>) {
    |cells| == |items| && forall k :: 0 <= k < |cells| ==> HoldsElem(e, s, base, cells[k], items[k])
  }

  ghost predicate HoldsValue(e: Env, s: Store, p: Property, c: Cell, x: Value) {
    if x.Null? then (if p.list then c == Many([]) else c == Nil)
    else if p.list then x.Items? && c.Many? && HoldsAll(e, s, p.base, c.cells, x.items)
    else HoldsElem(e, s, p.base, c, x)
  }

  lemma {:induction false} ElemLater(e: Env, s: Store, s': Store, base: Base, c: Cell, x: Value)
    requires SchemaOk(e) && Shaped(e, s) && Shaped(e, s') && KeysKept(e, s, s') && HoldsElem(e, s, base, c, x)
    ensures HoldsElem(e, s', base, c, x)
  {
    hide KeyCell;
    if base.Object? && e.schema[base.target].primary.Some? {
      assert KeyAt(e, s', base.target, c.row) == KeyAt(e, s, base.target, c.row);
      TableFacts(e, s', base.target);
    }
  }

  lemma {:induction false} AllLater(e: Env, s: Store, s': Store, base: Base, cells: seq<Cell>, items: seq<Value>)
    requires SchemaOk(e) && Shaped(e, s) && Shaped(e, s') && KeysKept(e, s, s') && HoldsAll(e, s, base, cells, items)
    ensures HoldsAll(e, s', base, cells, items)
  {
    hide SchemaOk, Shaped, KeysKept, HoldsElem;
    forall k | 0 <= k < |cells| ensures HoldsElem(e, s', base, cells[k], items[k]) {
      ElemLater(e, s, s', base, cells[k], items[k]);
    }
  }

  lemma {:induction false} ValueLater(e: Env, s: Store, s': Store, p: Property, c: Cell, x: Value)
    requires SchemaOk(e) && Shaped(e, s) && Shaped(e, s') && KeysKept(e, s, s')
    ensures HoldsValue(e, s, p, c, x) ==> HoldsValue(e, s', p, c, x)
    ensures !p.base.Object? ==> (HoldsValue(e, s', p, c, x) <==> HoldsValue(e, s, p, c, x))
  {
    hide SchemaOk, Shaped, KeysKept;
    if HoldsValue(e, s, p, c, x) && !x.Null? {
      if p.list {
        AllLater(e, s, s', p.base, c.cells, x.items);
      } else {
        ElemLater(e, s, s', p.base, c, x);
      }
    }
    if !p.base.Object? && HoldsValue(e, s', p, c, x) && p.list && !x.Null? {
      forall k | 0 <= k < |c.cells| ensures HoldsElem(e, s, p.base, c.cells[k], x.items[k]) {
      }
    }
  }

  // ---------- a link holds its object ----------

  /** What an operation that went well leaves sound. */
  ghost predicate Goes(e: Env, a: Store, b: Store) {
    SchemaOk(e) && Typed(e, a) && Typed(e, b) && KeysKept(e, a, b)
  }

  lemma {:induction false} GoesOn(e: Env, a: Store, b: Store, c: Store)
    requires Goes(e, a, b) && Goes(e, b, c)
    ensures Goes(e, a, c)
  {
    hide SchemaOk, Typed, KeysKept;
    TypedShaped(e, a);
    TypedShaped(e, b);
    TypedShaped(e, c);
    KeysOn(e, a, b, c);
  }

  lemma {:induction false} GoesFacts(e: Env, a: Store, b: Store)
    requires Goes(e, a, b)
    ensures SchemaOk(e) && Typed(e, a) && Typed(e, b) && Shaped(e, a) && Shaped(e, b) && KeysKept(e, a, b) && Grows(a, b)
  {
  }

  lemma {:induction false} FollowsGoes(e: Env, sc: Scope, a: State, b: State)
    requires SchemaOk(e) && Typed(e, a.store) && Follows(e, sc, a, b) && !e.migrating
    ensures Goes(e, a.store, b.store)
  {
    FollowsKeep(e, sc, a, b);
  }

  lemma {:induction false} StillGoes(e: Env, s: Store)
    requires SchemaOk(e) && Typed(e, s)
    ensures Goes(e, s, s)
  {
    KeysSame(e, s);
  }

  /** The row a creation returns has the key of the object supplied. */
  lemma {:induction false} CreateKey(e: Env, st: State, u: string, v: Value, update: bool, diff: bool, current: Option<nat>)
    requires SchemaOk(e) && Typed(e, st.store) && !e.migrating && u in e.schema && Live(e, st.store, Object(u), false, v)
    requires !v.Managed? && Create(e, st, u, v, update, diff, current).error.None?
    ensures var r := Create(e, st, u, v, update, diff, current);
      Goes(e, st.store, r.state.store) && HoldsElem(e, r.state.store, Object(u), Link(r.row), v)
  {
    hide Typed, Follows, Live, Populate, Lawful, Closed, Goes, KeyValue, KeyCell, InitialRow, Do;
    TypedShaped(e, st.store);
    var sc := Everywhere(e);
    EverywhereClosed(e);
    var r := Create(e, st, u, v, update, diff, current);
    CreateLawful(e, sc, st, u, v, update, diff, current);
    FollowsGoes(e, sc, st, r.state);
    GoesFacts(e, st.store, r.state.store);
    TableFacts(e, r.state.store, u);
    TableFacts(e, st.store, u);
    if e.schema[u].primary.Some? {
      var col, props := e.schema[u].primary.value, e.schema[u].props;
      FoundKey(st.store[u], props[col], col, e.schema[u], v);
      var found := FindKey(st.store[u], props[col], col, KeyValue(props[col], v, col).value);
      if found.row.Some? {
        assert KeyAt(e, r.state.store, u, r.row) == KeyAt(e, st.store, u, r.row);
      } else {
        NewKey(e, st, u, v, found.key, update, diff);
      }
    }
  }

  lemma {:induction false} NewKey(e: Env, st: State, u: string, v: Value, key: Cell, update: bool, diff: bool)
    requires SchemaOk(e) && Typed(e, st.store) && !e.migrating && u in e.schema && Live(e, st.store, Object(u), false, v)
    requires e.schema[u].primary.Some? && CellOk(st.store, e.schema[u].props[e.schema[u].primary.value], key)
    requires Shaped(e, st.store) && FindFirst(st.store[u], e.schema[u].primary.value, key).None?
    ensures var cells := InitialRow(e.schema[u].props)[e.schema[u].primary.value := key];
      var st1 := Do(e, st, Append(u, cells));
      && |st1.store[u]| == |st.store[u]| + 1
      && var r := Populate(e, st1, u, |st.store[u]|, v, 0, true, true, update, diff);
         |st.store[u]| < |r.state.store[u]| && KeyAt(e, r.state.store, u, |st.store[u]|) == key
  {
    hide Typed, Follows, Live, Populate, Lawful, Closed;
    var sc := Everywhere(e);
    EverywhereClosed(e);
    NewRowLawful(e, sc, st.store, u, key);
    var w := Append(u, InitialRow(e.schema[u].props)[e.schema[u].primary.value := key]);
    LawfulFits(e, sc, st.store, w);
    OneWrite(e, sc, st, w);
    var st1 := Do(e, st, w);
    FollowsKeep(e, sc, st, st1);
    LiveLater(e, st.store, st1.store, Object(u), false, v);
    var row := |st.store[u]|;
    PopulateLawful(e, sc, st1, u, row, v, 0, true, true, update, diff);
    KeyAfter(e, sc, st1, Populate(e, st1, u, row, v, 0, true, true, update, diff).state, u, row);
  }

  lemma {:induction false} UnboxHolds(e: Env, st: State, base: Base, v: Value, inList: bool, update: bool, diff: bool,
                                      current: Option<nat>)
    requires SchemaOk(e) && Typed(e, st.store) && Shaped(e, st.store) && !e.migrating && base.Object? && base.target in e.schema
    requires Live(e, st.store, base, inList, v) && !Misplaced(base, v)
    requires Unbox(e, st, base, v, update, diff, current).error.None?
    ensures var x := Unbox(e, st, base, v, update, diff, current);
      Goes(e, st.store, x.state.store) && HoldsElem(e, x.state.store, base, x.cell, v)
  {
    hide Typed, Goes, Create, SchemaOk;
    if v.Managed? {
      StillGoes(e, st.store);
      ManagedLive(e, st.store, base, inList, v);
    } else {
      ObjectLive(e, st.store, base, inList, v);
      CreateKey(e, st, base.target, v, update, diff, current);
    }
  }

  lemma {:induction false} ManagedLive(e: Env, s: Store, base: Base, inList: bool, v: Value)
    requires base.Object? && Live(e, s, base, inList, v) && !Misplaced(base, v) && v.Managed?
    ensures base.target in s && v.row < |s[base.target]|
  {
  }

  lemma {:induction false} ObjectLive(e: Env, s: Store, base: Base, inList: bool, v: Value)
    requires base.Object? && Live(e, s, base, inList, v) && !v.Managed?
    ensures Live(e, s, Object(base.target), false, v)
  {
  }

  // ---------- a list of links holds its objects ----------

  /** From one store to a later one in which only one cell of the row has changed. */
  ghost predicate OneCell(e: Env, a: Store, b: Store, t: string, r: nat, i: nat) {
    && Goes(e, a, b) && Place(e, a, t, r, i) && t in b && r < |b[t]| && |b[t][r]| == |a[t][r]|
    && b[t][r] == a[t][r][i := b[t][r][i]]
  }

  lemma {:induction false} OneCellOn(e: Env, a: Store, b: Store, c: Store, t: string, r: nat, i: nat)
    requires OneCell(e, a, b, t, r, i) && OneCell(e, b, c, t, r, i)
    ensures OneCell(e, a, c, t, r, i)
  {
    hide Goes;
    GoesOn(e, a, b, c);
  }

  lemma {:induction false} OneCellFacts(e: Env, a: Store, b: Store, t: string, r: nat, i: nat)
    requires OneCell(e, a, b, t, r, i)
    ensures Goes(e, a, b) && SchemaOk(e) && Typed(e, b) && Shaped(e, b) && Place(e, b, t, r, i) && KeysKept(e, a, b) && Grows(a, b)
    ensures |b[t][r]| == |a[t][r]| && forall j :: 0 <= j < |a[t][r]| && j != i ==> b[t][r][j] == a[t][r][j]
  {
  }

  lemma {:induction false} OneCellHas(e: Env, a: Store, b: Store, t: string, r: nat, i: nat, key: Cell)
    requires OneCell(e, a, b, t, r, i) && RowHas(e, a, t, r, key) && e.schema[t].primary != Some(i)
    ensures RowHas(e, b, t, r, key)
  {
    hide Typed, KeysKept;
    TypedShaped(e, b);
  }

  /** After a nested object, a write to the cell. */
  lemma {:induction false} ThenOneCell(e: Env, s: Store, st: State, t: string, r: nat, i: nat, w: Write, b: Store)
    requires Place(e, s, t, r, i) && SameCells(e, s, st.store, t, r) && Goes(e, s, b)
    requires (w.Put? && w == Put(t, r, i, w.cell)) || (w.Edit? && w == Edit(t, r, i, w.edit))
    requires Fits(e, st.store, w) && b == Do(e, st, w).store
    ensures OneCell(e, s, b, t, r, i)
    ensures b[t][r][i] == if w.Put? then w.cell else Edited(s[t][r][i], w.edit)
  {
    hide Goes;
  }

  ghost predicate Ready(e: Env, s: Store, t: string, row: nat, i: nat, v: Value, diff: bool, key: Cell) {
    && RowHas(e, s, t, row, key) && Typed(e, s) && Place(e, s, t, row, i) && !e.migrating
    && e.schema[t].primary != Some(i)
    && Live(e, s, e.schema[t].props[i].base, e.schema[t].props[i].list, v)
    && Avoids(e, t, key, diff, e.schema[t].props[i].base, v)
  }

  lemma {:induction false} ReadyFacts(e: Env, s: Store, t: string, row: nat, i: nat, v: Value, diff: bool, key: Cell)
    requires Ready(e, s, t, row, i, v, diff, key)
    ensures SchemaOk(e) && Shaped(e, s) && Place(e, s, t, row, i) && PropertyOk(e, e.schema[t].props[i])
    ensures t in s && row < |s[t]| && |s[t][row]| == |e.schema[t].props| && CellOk(s, e.schema[t].props[i], s[t][row][i])
  {
    hide Live, Avoids;
    CellOf(e, s, t, row, i);
  }

  lemma {:induction false} ReadyLater(e: Env, a: Store, b: Store, t: string, row: nat, i: nat, v: Value, diff: bool, key: Cell)
    requires Ready(e, a, t, row, i, v, diff, key) && OneCell(e, a, b, t, row, i)
    ensures Ready(e, b, t, row, i, v, diff, key)
  {
    hide Avoids, Live, Goes, RowHas;
    OneCellFacts(e, a, b, t, row, i);
    OneCellHas(e, a, b, t, row, i, key);
    LiveLater(e, a, b, e.schema[t].props[i].base, e.schema[t].props[i].list, v);
  }

  lemma {:induction false} AddHolds(e: Env, st: State, t: string, row: nat, i: nat, v: Value, k: nat, update: bool, diff: bool,
                                    key: Cell)
    requires Ready(e, st.store, t, row, i, v, diff, key) && v.Items? && k < |v.items|
    requires e.schema[t].props[i].list && e.schema[t].props[i].base.Object?
    requires AddElement(e, st, t, row, i, v, k, update).error.None?
    ensures var s := AddElement(e, st, t, row, i, v, k, update).state.store;
      && OneCell(e, st.store, s, t, row, i) && s[t][row][i].Many? && st.store[t][row][i].Many?
      && |s[t][row][i].cells| == |st.store[t][row][i].cells| + 1
      && s[t][row][i].cells[..|st.store[t][row][i].cells|] == st.store[t][row][i].cells
      && HoldsElem(e, s, e.schema[t].props[i].base, s[t][row][i].cells[|st.store[t][row][i].cells|], v.items[k])
  {
    hide Live, Avoids, Typed, RowHas, SameCells, Unbox, HoldsElem, Do, OneCell, Goes, Fits;
    ReadyFacts(e, st.store, t, row, i, v, diff, key);
    var base := e.schema[t].props[i].base;
    ItemSmaller(v, k);
    ItemAvoids(e, t, key, diff, base, v, k);
    AvoidsInFull(e, t, key, diff, base, v.items[k]);
    ItemLive(e, st.store, base, v, k);
    var x := Unbox(e, st, base, v.items[k], update, false, None);
    UnboxSpares(e, st, base, v.items[k], update, false, None, t, row, key);
    UnboxHolds(e, st, base, v.items[k], true, update, false, None);
    ElementGoes(e, st, t, row, i, v, k, update);
    var w := Edit(t, row, i, Push(x.cell));
    EditFits(e, st.store, x.state.store, t, row, i, w);
    var s := Do(e, x.state, w).store;
    ThenOneCell(e, st.store, x.state, t, row, i, w, s);
    AfterWrite(e, x.state, w, base, x.cell, v.items[k]);
  }

  lemma {:induction false} ItemLive(e: Env, s: Store, base: Base, v: Value, k: nat)
    requires v.Items? && k < |v.items| && Live(e, s, base, true, v)
    ensures Live(e, s, base, true, v.items[k])
  {
  }

  lemma {:induction false} EditFits(e: Env, a: Store, b: Store, t: string, r: nat, i: nat, w: Write)
    requires Place(e, a, t, r, i) && Shaped(e, b) && Grows(a, b)
    requires w.Edit? || w.Put?
    requires if w.Put? then w == Put(t, r, i, w.cell) else w == Edit(t, r, i, w.edit)
    ensures Fits(e, b, w)
  {
  }

  /** A write elsewhere than to a key keeps what a link holds. */
  lemma {:induction false} AfterWrite(e: Env, st: State, w: Write, base: Base, c: Cell, v: Value)
    requires SchemaOk(e) && Shaped(e, st.store) && Fits(e, st.store, w) && HoldsElem(e, st.store, base, c, v)
    requires w.Put? ==> e.schema[w.type_].primary != Some(w.prop)
    requires w.Edit? ==> e.schema[w.type_].primary != Some(w.prop)
    requires !w.Append?
    ensures HoldsElem(e, Do(e, st, w).store, base, c, v)
  {
    hide KeyCell;
  }

  lemma {:induction false} ElementGoes(e: Env, st: State, t: string, row: nat, i: nat, v: Value, k: nat, update: bool)
    requires SchemaOk(e) && Typed(e, st.store) && Place(e, st.store, t, row, i) && e.schema[t].props[i].list && v.Items? && k < |v.items|
    requires Live(e, st.store, e.schema[t].props[i].base, true, v) && !e.migrating
    ensures Goes(e, st.store, AddElement(e, st, t, row, i, v, k, update).state.store)
    ensures Goes(e, st.store, SetElement(e, st, t, row, i, v, k, update).state.store)
  {
    hide Typed, Live, Goes, Follows, AddElement, SetElement;
    var sc := Everywhere(e);
    EverywhereClosed(e);
    ElementLawful(e, sc, st, t, row, i, v, k, update);
    FollowsGoes(e, sc, st, AddElement(e, st, t, row, i, v, k, update).state);
    FollowsGoes(e, sc, st, SetElement(e, st, t, row, i, v, k, update).state);
  }

  /** An element compared with the old one and replaced if different. */
  lemma {:induction false} SetHolds(e: Env, st: State, t: string, row: nat, i: nat, v: Value, k: nat, update: bool, key: Cell)
    requires Ready(e, st.store, t, row, i, v, true, key) && v.Items? && k < |v.items|
    requires e.schema[t].props[i].list && e.schema[t].props[i].base.Object?
    requires SetElement(e, st, t, row, i, v, k, update).error.None?
    ensures var s := SetElement(e, st, t, row, i, v, k, update).state.store;
      && OneCell(e, st.store, s, t, row, i) && s[t][row][i].Many? && st.store[t][row][i].Many?
      && k < |s[t][row][i].cells| == |st.store[t][row][i].cells|
      && (forall j :: 0 <= j < |s[t][row][i].cells| && j != k ==> s[t][row][i].cells[j] == st.store[t][row][i].cells[j])
      && HoldsElem(e, s, e.schema[t].props[i].base, s[t][row][i].cells[k], v.items[k])
  {
    hide Live, Avoids, Typed, RowHas, SameCells, Unbox, HoldsElem, Do, OneCell, Goes, Fits;
    ReadyFacts(e, st.store, t, row, i, v, true, key);
    var base, cells := e.schema[t].props[i].base, Elems(st.store[t][row][i]);
    ItemSmaller(v, k);
    ItemAvoids(e, t, key, true, base, v, k);
    ItemLive(e, st.store, base, v, k);
    var x := Unbox(e, st, base, v.items[k], update, true, LinkRow(cells[k]));
    UnboxSpares(e, st, base, v.items[k], update, true, LinkRow(cells[k]), t, row, key);
    UnboxHolds(e, st, base, v.items[k], true, update, true, LinkRow(cells[k]));
    ElementGoes(e, st, t, row, i, v, k, update);
    if x.cell == cells[k] {
      SameOneCell(e, st.store, x.state.store, t, row, i);
    } else {
      var w := Edit(t, row, i, SetAt(k, x.cell));
      EditFits(e, st.store, x.state.store, t, row, i, w);
      var s := Do(e, x.state, w).store;
      SameLength(e, st.store, x.state.store, t, row, i);
      ThenOneCell(e, st.store, x.state, t, row, i, w, s);
      AfterWrite(e, x.state, w, base, x.cell, v.items[k]);
    }
  }

  lemma {:induction false} SameLength(e: Env, a: Store, b: Store, t: string, r: nat, i: nat)
    requires Place(e, a, t, r, i) && SameCells(e, a, b, t, r)
    ensures t in b && r < |b[t]| && i < |b[t][r]| && b[t][r][i] == a[t][r][i]
  {
  }

  lemma {:induction false} SameOneCell(e: Env, a: Store, b: Store, t: string, r: nat, i: nat)
    requires Place(e, a, t, r, i) && SameCells(e, a, b, t, r) && Goes(e, a, b)
    ensures OneCell(e, a, b, t, r, i) && b[t][r][i] == a[t][r][i]
  {
    hide Goes;
  }

  lemma {:induction false} TrimHolds(e: Env, st: State, t: string, row: nat, i: nat, k: nat, n: nat)
    requires SchemaOk(e) && Typed(e, st.store) && Place(e, st.store, t, row, i) && e.schema[t].props[i].list && !e.migrating
    requires st.store[t][row][i].Many? && |st.store[t][row][i].cells| == k + n
    ensures var r := Trim(e, st, t, row, i, k, n);
      && r.error.None? && OneCell(e, st.store, r.state.store, t, row, i)
      && r.state.store[t][row][i] == Many(st.store[t][row][i].cells[..k])
  {
    hide Typed, Goes, Follows, Trim;
    var sc := Everywhere(e);
    TrimLawful(e, sc, st, t, row, i, k, n);
    TrimResult(e, st, t, row, i, k, n);
    FollowsGoes(e, sc, st, Trim(e, st, t, row, i, k, n).state);
  }

  /** The first `k` elements hold, the list is as long as it has to be. */
  ghost predicate Assigned(e: Env, s: Store, t: string, row: nat, i: nat, v: Value, k: nat, size: nat) {
    && Place(e, s, t, row, i) && v.Items? && k <= |v.items| && s[t][row][i].Many?
    && |s[t][row][i].cells| == (if k < size then size else k)
    && HoldsAll(e, s, e.schema[t].props[i].base, s[t][row][i].cells[..k], v.items[..k])
  }

  lemma {:induction false} AssignedNext(e: Env, a: Store, b: Store, t: string, row: nat, i: nat, v: Value, k: nat, size: nat)
    requires Assigned(e, a, t, row, i, v, k, size) && OneCell(e, a, b, t, row, i) && k < |v.items|
    requires b[t][row][i].Many? && k < |b[t][row][i].cells| == (if k < size then size else k + 1)
    requires forall j :: 0 <= j < k ==> b[t][row][i].cells[j] == a[t][row][i].cells[j]
    requires HoldsElem(e, b, e.schema[t].props[i].base, b[t][row][i].cells[k], v.items[k])
    ensures Assigned(e, b, t, row, i, v, k + 1, size)
  {
    hide Goes, HoldsElem, Typed, KeysKept;
    OneCellFacts(e, a, b, t, row, i);
    var base, was, now := e.schema[t].props[i].base, a[t][row][i].cells, b[t][row][i].cells;
    TypedOf(e, a, b, t, row, i);
    AllLater(e, a, b, base, was[..k], v.items[..k]);
    var cells, items := now[..k + 1], v.items[..k + 1];
    forall j | 0 <= j < k + 1 ensures HoldsElem(e, b, base, cells[j], items[j]) {
      if j < k {
        assert was[..k][j] == now[j] && v.items[..k][j] == v.items[j];
      }
    }
  }

  lemma {:induction false} TypedOf(e: Env, a: Store, b: Store, t: string, row: nat, i: nat)
    requires OneCell(e, a, b, t, row, i)
    ensures SchemaOk(e) && Typed(e, a) && Shaped(e, a)
  {
  }

  /** After an assignment that returns, the list holds all elements. */
  lemma {:induction false} AssignFromHolds(e: Env, st: State, t: string, row: nat, i: nat, v: Value, k: nat, size: nat,
                                           update: bool, diff: bool, key: Cell)
    requires Ready(e, st.store, t, row, i, v, diff, key) && Assigned(e, st.store, t, row, i, v, k, size)
    requires e.schema[t].props[i].list && !e.schema[t].props[i].base.Plain? && (!diff ==> size == 0)
    requires AssignFrom(e, st, t, row, i, v, k, size, update, diff).error.None?
    ensures var s := AssignFrom(e, st, t, row, i, v, k, size, update, diff).state.store;
      && OneCell(e, st.store, s, t, row, i) && s[t][row][i].Many?
      && HoldsAll(e, s, e.schema[t].props[i].base, s[t][row][i].cells, v.items)
    decreases |v.items| - k
  {
    hide Ready, OneCell, Assigned, HoldsAll, HoldsElem, SetElement, AddElement, Trim, Goes;
    ReadyFacts(e, st.store, t, row, i, v, diff, key);
    AssignedFacts(e, st.store, t, row, i, v, k, size);
    if k == |v.items| {
      assert v.items[..k] == v.items;
      if diff && k < size {
        ReadyTyped(e, st.store, t, row, i, v, diff, key);
        TrimHolds(e, st, t, row, i, k, size - k);
        TrimKeeps(e, st.store, Trim(e, st, t, row, i, k, size - k).state.store, t, row, i, v, k);
      } else {
        StillOneCell(e, st.store, t, row, i, v, diff, key);
        assert st.store[t][row][i].cells[..k] == st.store[t][row][i].cells;
      }
    } else {
      var next := if k < size then SetElement(e, st, t, row, i, v, k, update) else AddElement(e, st, t, row, i, v, k, update);
      NoAny(e, st, t, row, i, v, k, update);
      if k < size {
        SetHolds(e, st, t, row, i, v, k, update, key);
      } else {
        AddHolds(e, st, t, row, i, v, k, update, diff, key);
        AddedPrefix(st.store[t][row][i].cells, next.state.store[t][row][i].cells);
      }
      AssignedNext(e, st.store, next.state.store, t, row, i, v, k, size);
      ReadyLater(e, st.store, next.state.store, t, row, i, v, diff, key);
      AssignFromHolds(e, next.state, t, row, i, v, k + 1, size, update, diff, key);
      OneCellOn(e, st.store, next.state.store, AssignFrom(e, next.state, t, row, i, v, k + 1, size, update, diff).state.store,
                t, row, i);
    }
  }

  lemma {:induction false} NoAny(e: Env, st: State, t: string, row: nat, i: nat, v: Value, k: nat, update: bool)
    requires SchemaOk(e) && Place(e, st.store, t, row, i) && v.Items? && k < |v.items|
    ensures e.schema[t].props[i].base.Any? ==>
      AddElement(e, st, t, row, i, v, k, update).error.Some? && SetElement(e, st, t, row, i, v, k, update).error.Some?
  {
  }

  lemma {:induction false} AddedPrefix(was: seq<Cell>, now: seq<Cell>)
    requires |was| <= |now| && now[..|was|] == was
    ensures forall j :: 0 <= j < |was| ==> now[j] == was[j]
  {
  }

  lemma {:induction false} AssignedFacts(e: Env, s: Store, t: string, row: nat, i: nat, v: Value, k: nat, size: nat)
    requires Assigned(e, s, t, row, i, v, k, size)
    ensures Place(e, s, t, row, i) && v.Items? && k <= |v.items| && s[t][row][i].Many?
    ensures |s[t][row][i].cells| == (if k < size then size else k)
    ensures HoldsAll(e, s, e.schema[t].props[i].base, s[t][row][i].cells[..k], v.items[..k])
  {
    hide HoldsAll;
  }

  lemma {:induction false} ReadyTyped(e: Env, s: Store, t: string, row: nat, i: nat, v: Value, diff: bool, key: Cell)
    requires Ready(e, s, t, row, i, v, diff, key)
    ensures Typed(e, s) && !e.migrating
  {
  }

  lemma {:induction false} StillOneCell(e: Env, s: Store, t: string, row: nat, i: nat, v: Value, diff: bool, key: Cell)
    requires Ready(e, s, t, row, i, v, diff, key)
    ensures OneCell(e, s, s, t, row, i)
  {
    hide Live, Avoids, Typed;
    StillGoes(e, s);
  }

  lemma {:induction false} TrimKeeps(e: Env, a: Store, b: Store, t: string, row: nat, i: nat, v: Value, k: nat)
    requires OneCell(e, a, b, t, row, i) && a[t][row][i].Many? && k <= |a[t][row][i].cells| && v.Items? && k == |v.items|
    requires b[t][row][i] == Many(a[t][row][i].cells[..k])
    requires HoldsAll(e, a, e.schema[t].props[i].base, a[t][row][i].cells[..k], v.items)
    ensures HoldsAll(e, b, e.schema[t].props[i].base, b[t][row][i].cells, v.items)
  {
    hide HoldsAll, Typed, KeysKept;
    OneCellFacts(e, a, b, t, row, i);
    TypedOf(e, a, b, t, row, i);
    AllLater(e, a, b, e.schema[t].props[i].base, a[t][row][i].cells[..k], v.items);
  }

  // ---------- one property ----------

  /** What a write that went well makes of the cell. */
  ghost predicate CellAfter(e: Env, s: Store, p: Property, here: Value, was: Cell, now: Cell, x: Value, isDefault: bool, diff: bool) {
    if (p.base.Object? && !p.list && x.Null? && isDefault) || (p.list && x == here) then now == was
    else HoldsValue(e, s, p, now, x) <==> !(diff && TakesNull(e, p, was, x))
  }

  lemma {:induction false} CellAfterLater(e: Env, s: Store, s': Store, p: Property, here: Value, was: Cell, now: Cell, x: Value,
                                          isDefault: bool, diff: bool)
    requires SchemaOk(e) && Shaped(e, s) && Shaped(e, s') && KeysKept(e, s, s')
    requires CellAfter(e, s, p, here, was, now, x, isDefault, diff)
    ensures CellAfter(e, s', p, here, was, now, x, isDefault, diff)
  {
    hide SchemaOk, Shaped, KeysKept, HoldsValue;
    ValueLater(e, s, s', p, now, x);
  }

  lemma {:induction false} WrittenHolds(e: Env, s: Store, p: Property, here: Value, was: Cell, x: Value, isDefault: bool, diff: bool)
    requires p.base.Plain? && (p.list ==> !p.nullable) && ListWhereDue(p, was)
    requires Written(e, p, here, was, x, diff).error.None?
    ensures CellAfter(e, s, p, here, was, Written(e, p, here, was, x, diff).cell, x, isDefault, diff)
  {
  }

  lemma {:induction false} SetPropHolds(e: Env, st: State, t: string, row: nat, i: nat, x: Value, update: bool, diff: bool,
                                        isDefault: bool, key: Cell)
    requires Ready(e, st.store, t, row, i, x, diff, key) && SetProp(e, st, t, row, i, x, update, diff, isDefault).error.None?
    ensures var s := SetProp(e, st, t, row, i, x, update, diff, isDefault).state.store;
      && OneCell(e, st.store, s, t, row, i)
      && CellAfter(e, s, e.schema[t].props[i], ListOf(t, row, i), st.store[t][row][i], s[t][row][i], x, isDefault, diff)
  {
    hide Ready, OneCell, CellAfter, SetProp, Goes;
    ReadyFacts(e, st.store, t, row, i, x, diff, key);
    ReadyTyped(e, st.store, t, row, i, x, diff, key);
    var p, r := e.schema[t].props[i], SetProp(e, st, t, row, i, x, update, diff, isDefault);
    SetPropGoes(e, st, t, row, i, x, update, diff, isDefault, key);
    if p.base.Plain? {
      SetPropResult(e, st, t, row, i, x, update, diff, isDefault);
      WrittenHolds(e, r.state.store, p, ListOf(t, row, i), st.store[t][row][i], x, isDefault, diff);
      PutOneCell(e, st.store, r.state.store, t, row, i,
                 Written(e, p, ListOf(t, row, i), st.store[t][row][i], x, diff).cell);
    } else if p.list {
      SetListHolds(e, st, t, row, i, x, update, diff, isDefault, key);
    } else {
      SetLinkHolds(e, st, t, row, i, x, update, diff, isDefault, key);
    }
  }

  lemma {:induction false} PutOneCell(e: Env, a: Store, b: Store, t: string, r: nat, i: nat, c: Cell)
    requires Place(e, a, t, r, i) && Goes(e, a, b) && t in a && r < |a[t]| && i < |a[t][r]| && b == PutCell(a, t, r, i, c)
    ensures OneCell(e, a, b, t, r, i) && b[t][r][i] == c
  {
    hide Goes;
  }

  lemma {:induction false} SetPropGoes(e: Env, st: State, t: string, row: nat, i: nat, x: Value, update: bool, diff: bool,
                                       isDefault: bool, key: Cell)
    requires Ready(e, st.store, t, row, i, x, diff, key)
    ensures Goes(e, st.store, SetProp(e, st, t, row, i, x, update, diff, isDefault).state.store)
  {
    hide Live, Avoids, Typed, Goes, Follows, SetProp;
    var sc := Everywhere(e);
    EverywhereClosed(e);
    SetPropLawful(e, sc, st, t, row, i, x, update, diff, isDefault);
    FollowsGoes(e, sc, st, SetProp(e, st, t, row, i, x, update, diff, isDefault).state);
  }

  lemma {:induction false} SetListHolds(e: Env, st: State, t: string, row: nat, i: nat, x: Value, update: bool, diff: bool,
                                        isDefault: bool, key: Cell)
    requires Ready(e, st.store, t, row, i, x, diff, key) && SetProp(e, st, t, row, i, x, update, diff, isDefault).error.None?
    requires e.schema[t].props[i].list && !e.schema[t].props[i].base.Plain?
    ensures var s := SetProp(e, st, t, row, i, x, update, diff, isDefault).state.store;
      && OneCell(e, st.store, s, t, row, i)
      && CellAfter(e, s, e.schema[t].props[i], ListOf(t, row, i), st.store[t][row][i], s[t][row][i], x, isDefault, diff)
  {
    hide Ready, OneCell, Goes, AssignFrom, HoldsAll, Do;
    ReadyFacts(e, st.store, t, row, i, x, diff, key);
    var p := e.schema[t].props[i];
    StillOneCell(e, st.store, t, row, i, x, diff, key);
    ClearOneCell(e, st, t, row, i, x, diff, key);
    if x.Items? {
      var start := if diff then st else Do(e, st, Edit(t, row, i, Clear));
      var size := if diff then |Elems(st.store[t][row][i])| else 0;
      ReadyLater(e, st.store, start.store, t, row, i, x, diff, key);
      AssignedNone(e, start.store, t, row, i, x, size);
      AssignFromHolds(e, start, t, row, i, x, 0, size, update, diff, key);
      OneCellOn(e, st.store, start.store, AssignFrom(e, start, t, row, i, x, 0, size, update, diff).state.store, t, row, i);
    }
  }

  lemma {:induction false} ClearOneCell(e: Env, st: State, t: string, row: nat, i: nat, x: Value, diff: bool, key: Cell)
    requires Ready(e, st.store, t, row, i, x, diff, key) && e.schema[t].props[i].list
    ensures Place(e, st.store, t, row, i)
    ensures var s := Do(e, st, Edit(t, row, i, Clear)).store; OneCell(e, st.store, s, t, row, i) && s[t][row][i] == Many([])
  {
    hide Live, Avoids, Typed, Goes, Follows, Lawful;
    var sc, w := Everywhere(e), Edit(t, row, i, Clear);
    ClearLawful(e, st.store, t, row, i);
    OneWrite(e, sc, st, w);
    FollowsGoes(e, sc, st, Do(e, st, w));
    EditPuts(e, st, t, row, i, Clear);
    PutOneCell(e, st.store, Do(e, st, w).store, t, row, i, Many([]));
  }

  lemma {:induction false} ClearLawful(e: Env, s: Store, t: string, row: nat, i: nat)
    requires SchemaOk(e) && Place(e, s, t, row, i) && e.schema[t].props[i].list
    ensures Lawful(e, Everywhere(e), s, Edit(t, row, i, Clear))
  {
  }

  lemma {:induction false} AssignedNone(e: Env, s: Store, t: string, row: nat, i: nat, v: Value, size: nat)
    requires Place(e, s, t, row, i) && v.Items? && s[t][row][i].Many? && |s[t][row][i].cells| == size
    ensures Assigned(e, s, t, row, i, v, 0, size)
  {
  }

  lemma {:induction false} SetLinkHolds(e: Env, st: State, t: string, row: nat, i: nat, x: Value, update: bool, diff: bool,
                                        isDefault: bool, key: Cell)
    requires Ready(e, st.store, t, row, i, x, diff, key) && SetProp(e, st, t, row, i, x, update, diff, isDefault).error.None?
    requires Goes(e, st.store, SetProp(e, st, t, row, i, x, update, diff, isDefault).state.store)
    requires !e.schema[t].props[i].list && !e.schema[t].props[i].base.Plain?
    ensures var s := SetProp(e, st, t, row, i, x, update, diff, isDefault).state.store;
      && OneCell(e, st.store, s, t, row, i)
      && CellAfter(e, s, e.schema[t].props[i], ListOf(t, row, i), st.store[t][row][i], s[t][row][i], x, isDefault, diff)
  {
    hide Ready, OneCell, Goes, Unbox, HoldsElem, Do, SameCells, Fits, CellAfter;
    ReadyFacts(e, st.store, t, row, i, x, diff, key);
    var p, cell := e.schema[t].props[i], st.store[t][row][i];
    var s := SetProp(e, st, t, row, i, x, update, diff, isDefault).state.store;
    if p.nullable && x.Null? {
      NilOneCell(e, st, t, row, i, x, diff, key);
      StillOneCell(e, st.store, t, row, i, x, diff, key);
      NilAfter(e, s, p, ListOf(t, row, i), cell, isDefault, diff);
    } else if p.base.Object? {
      var u := Unbox(e, st, p.base, x, update, diff, LinkRow(cell));
      LinkHolds(e, st, t, row, i, x, update, diff, LinkRow(cell), key);
      if diff && cell == u.cell {
        SameOneCell(e, st.store, u.state.store, t, row, i);
      } else {
        var w := Put(t, row, i, u.cell);
        EditFits(e, st.store, u.state.store, t, row, i, w);
        ThenOneCell(e, st.store, u.state, t, row, i, w, Do(e, u.state, w).store);
        ReadyKey(e, st.store, t, row, i, x, diff, key);
        AfterWrite(e, u.state, w, p.base, u.cell, x);
      }
      LinkAfter(e, s, p, ListOf(t, row, i), cell, u.cell, x, isDefault, diff);
    }
  }

  lemma {:induction false} NilAfter(e: Env, s: Store, p: Property, here: Value, was: Cell, isDefault: bool, diff: bool)
    requires !p.list && !p.base.Plain?
    ensures CellAfter(e, s, p, here, was, if p.base.Object? && isDefault then was else Nil, Null, isDefault, diff)
  {
  }

  lemma {:induction false} LinkAfter(e: Env, s: Store, p: Property, here: Value, was: Cell, now: Cell, x: Value, isDefault: bool,
                                     diff: bool)
    requires !p.list && p.base.Object? && p.nullable && !x.Null? && HoldsElem(e, s, p.base, now, x)
    ensures CellAfter(e, s, p, here, was, now, x, isDefault, diff)
  {
    hide HoldsElem;
  }

  lemma {:induction false} ReadyKey(e: Env, s: Store, t: string, row: nat, i: nat, v: Value, diff: bool, key: Cell)
    requires Ready(e, s, t, row, i, v, diff, key)
    ensures t in e.schema && e.schema[t].primary != Some(i)
  {
  }

  lemma {:induction false} NilOneCell(e: Env, st: State, t: string, row: nat, i: nat, x: Value, diff: bool, key: Cell)
    requires Ready(e, st.store, t, row, i, x, diff, key) && !e.schema[t].props[i].list && e.schema[t].props[i].nullable
    ensures Place(e, st.store, t, row, i)
    ensures var s := Do(e, st, Put(t, row, i, Nil)).store; OneCell(e, st.store, s, t, row, i) && s[t][row][i] == Nil
  {
    hide Live, Avoids, Typed, Goes, Follows, Lawful;
    var sc, w := Everywhere(e), Put(t, row, i, Nil);
    NilLawful(e, st.store, t, row, i);
    OneWrite(e, sc, st, w);
    FollowsGoes(e, sc, st, Do(e, st, w));
    PutPuts(e, st, t, row, i, Nil);
    PutOneCell(e, st.store, Do(e, st, w).store, t, row, i, Nil);
  }

  lemma {:induction false} NilLawful(e: Env, s: Store, t: string, row: nat, i: nat)
    requires SchemaOk(e) && Place(e, s, t, row, i) && !e.schema[t].props[i].list && e.schema[t].props[i].nullable
    requires e.schema[t].primary != Some(i)
    ensures Lawful(e, Everywhere(e), s, Put(t, row, i, Nil))
  {
  }

  lemma {:induction false} LinkHolds(e: Env, st: State, t: string, row: nat, i: nat, x: Value, update: bool, diff: bool,
                                     current: Option<nat>, key: Cell)
    requires Ready(e, st.store, t, row, i, x, diff, key) && e.schema[t].props[i].base.Object? && !e.schema[t].props[i].list
    requires SchemaOk(e) && Shaped(e, st.store) && e.schema[t].props[i].base.target in e.schema
    requires Unbox(e, st, e.schema[t].props[i].base, x, update, diff, current).error.None?
    ensures var u := Unbox(e, st, e.schema[t].props[i].base, x, update, diff, current);
      && SameCells(e, st.store, u.state.store, t, row) && Goes(e, st.store, u.state.store)
      && HoldsElem(e, u.state.store, e.schema[t].props[i].base, u.cell, x)
  {
    hide Live, Avoids, Typed, Goes, Unbox, SameCells, HoldsElem, RowHas;
    var base := e.schema[t].props[i].base;
    LiveInPlace(e, st.store, base, x);
    UnboxSpares(e, st, base, x, update, diff, current, t, row, key);
    UnboxHolds(e, st, base, x, false, update, diff, current);
  }

  // ---------- a whole object ----------

  /** What the populate loop makes of one property. */
  ghost predicate PropAfter(e: Env, s: Store, t: string, row: nat, i: nat, v: Value, created: bool, diff: bool, was: Cell, now: Cell)
    requires t in e.schema && i < |e.schema[t].props|
  {
    v.Obj? &&
    match Supplied(e.schema[t], v, i, created)
    case NotSet => now == was
    case Refused => false
    case Set(x, isDefault) => CellAfter(e, s, e.schema[t].props[i], ListOf(t, row, i), was, now, x, isDefault, diff)
  }

  /** The row has a fresh start in `a` and its properties from `from` on are set in `b`. */
  ghost predicate RowAfter(e: Env, a: Store, b: Store, t: string, row: nat, v: Value, from: nat, created: bool, diff: bool) {
    && t in e.schema && Goes(e, a, b) && t in a && t in b && row < |a[t]| && row < |b[t]|
    && |a[t][row]| == |b[t][row]| == |e.schema[t].props|
    && forall i :: 0 <= i < |e.schema[t].props| ==>
         if i < from || e.schema[t].primary == Some(i) then b[t][row][i] == a[t][row][i]
         else PropAfter(e, b, t, row, i, v, created, diff, a[t][row][i], b[t][row][i])
  }

  lemma {:induction false} RowAfterNothing(e: Env, s: Store, t: string, row: nat, v: Value, created: bool, diff: bool)
    requires SchemaOk(e) && Typed(e, s) && t in e.schema && row < |s[t]|
    ensures RowAfter(e, s, s, t, row, v, |e.schema[t].props|, created, diff)
  {
    hide Typed;
    TypedShaped(e, s);
    StillGoes(e, s);
    TableFacts(e, s, t);
  }

  lemma {:induction false} RowAfterSkip(e: Env, a: Store, b: Store, t: string, row: nat, v: Value, i: nat, created: bool, diff: bool)
    requires RowAfter(e, a, b, t, row, v, i + 1, created, diff) && i < |e.schema[t].props|
    requires e.schema[t].primary == Some(i) || (v.Obj? && Supplied(e.schema[t], v, i, created).NotSet?)
    ensures RowAfter(e, a, b, t, row, v, i, created, diff)
  {
    hide Goes, Supplied, CellAfter;
  }

  lemma {:induction false} RowAfterSet(e: Env, a: Store, m: Store, b: Store, t: string, row: nat, v: Value, i: nat,
                                       created: bool, diff: bool)
    requires OneCell(e, a, m, t, row, i) && RowAfter(e, m, b, t, row, v, i + 1, created, diff)
    requires v.Obj? && e.schema[t].primary != Some(i) && Supplied(e.schema[t], v, i, created).Set?
    requires var x := Supplied(e.schema[t], v, i, created);
      CellAfter(e, m, e.schema[t].props[i], ListOf(t, row, i), a[t][row][i], m[t][row][i], x.value, x.isDefault, diff)
    ensures RowAfter(e, a, b, t, row, v, i, created, diff)
  {
    hide Goes, Supplied, CellAfter, Typed, SchemaOk, KeysKept;
    OneCellFacts(e, a, m, t, row, i);
    GoesOn(e, a, m, b);
    GoesFacts(e, m, b);
    var x := Supplied(e.schema[t], v, i, created);
    CellAfterLater(e, m, b, e.schema[t].props[i], ListOf(t, row, i), a[t][row][i], m[t][row][i], x.value, x.isDefault, diff);
    forall j | 0 <= j < |e.schema[t].props|
      ensures if j < i || e.schema[t].primary == Some(j) then b[t][row][j] == a[t][row][j]
        else PropAfter(e, b, t, row, j, v, created, diff, a[t][row][j], b[t][row][j])
    {
      if j != i {
        assert m[t][row][j] == a[t][row][j];
      }
    }
  }

  lemma {:induction false} PopulateHolds(e: Env, st: State, t: string, row: nat, v: Value, i: nat, created: bool, update: bool,
                                         diff: bool, key: Cell)
    requires RowHas(e, st.store, t, row, key) && Typed(e, st.store) && !e.migrating && i <= |e.schema[t].props|
    requires Live(e, st.store, Object(t), false, v) && (v.Obj? ==> FieldsAvoid(e, t, key, diff, t, v))
    requires Populate(e, st, t, row, v, i, created, true, update, diff).error.None?
    ensures RowAfter(e, st.store, Populate(e, st, t, row, v, i, created, true, update, diff).state.store, t, row, v, i, created, diff)
    decreases |e.schema[t].props| - i
  {
    hide RowHas, Typed, Live, FieldsAvoid, RowAfter, SetProp, Supplied, OneCell, CellAfter, SchemaOk, Ready, Place;
    RowFacts(e, st.store, t, row, key);
    if i == |e.schema[t].props| {
      RowAfterNothing(e, st.store, t, row, v, created, diff);
    } else if e.schema[t].primary == Some(i) {
      PopulateHolds(e, st, t, row, v, i + 1, created, update, diff, key);
      RowAfterSkip(e, st.store, Populate(e, st, t, row, v, i, created, true, update, diff).state.store, t, row, v, i, created, diff);
    } else {
      var supplied := Supplied(e.schema[t], v, i, created);
      if supplied.NotSet? {
        PopulateHolds(e, st, t, row, v, i + 1, created, update, diff, key);
        RowAfterSkip(e, st.store, Populate(e, st, t, row, v, i, created, true, update, diff).state.store, t, row, v, i, created, diff);
      } else {
        ReadyToSet(e, st.store, t, row, v, i, created, diff, key);
        SetPropHolds(e, st, t, row, i, supplied.value, update, diff, supplied.isDefault, key);
        var next := SetProp(e, st, t, row, i, supplied.value, update, diff, supplied.isDefault);
        OneCellHas(e, st.store, next.state.store, t, row, i, key);
        OneCellFacts(e, st.store, next.state.store, t, row, i);
        LiveLater(e, st.store, next.state.store, Object(t), false, v);
        PopulateHolds(e, next.state, t, row, v, i + 1, created, update, diff, key);
        RowAfterSet(e, st.store, next.state.store, Populate(e, next.state, t, row, v, i + 1, created, true, update, diff).state.store,
                    t, row, v, i, created, diff);
      }
    }
  }

  lemma {:induction false} ReadyToSet(e: Env, s: Store, t: string, row: nat, v: Value, i: nat, created: bool, diff: bool, key: Cell)
    requires RowHas(e, s, t, row, key) && Typed(e, s) && !e.migrating && i < |e.schema[t].props| && e.schema[t].primary != Some(i)
    requires v.Obj? && Live(e, s, Object(t), false, v) && FieldsAvoid(e, t, key, diff, t, v)
    requires Supplied(e.schema[t], v, i, created).Set?
    ensures Ready(e, s, t, row, i, Supplied(e.schema[t], v, i, created).value, diff, key)
    ensures Place(e, s, t, row, i)
  {
    hide Live, Avoids, FieldsAvoid, Supplied, Typed;
    SuppliedLive(e, s, t, v, i, created);
    SuppliedAvoids(e, t, key, diff, t, v, i, created);
  }

  function OwnKey(e: Env, t: string, v: Value): Cell
    requires t in e.schema
  {
    if KeyCell(e.schema[t], v).Some? then KeyCell(e.schema[t], v).value else Nil
  }

  /** After a creation that returns, for every schema, with nested objects, links and
      lists of links: every property other than the key holds its supplied value - but
      for one that a null reads as, written differentially over a null; without a
      supplied value, an updated object keeps its old one, and a new one has the
      default or else the initial value of its column. Nested objects that carry the
      object's own key are the one thing that can change this. */
  lemma {:induction false} CreateHolds(e: Env, st: State, t: string, v: Value, update: bool, diff: bool, i: nat)
    requires SchemaOk(e) && Typed(e, st.store) && t in e.schema && !e.migrating && Live(e, st.store, Object(t), false, v)
    requires Create(e, st, t, v, update, diff, None).error.None?
    requires v.Obj? ==> FieldsAvoid(e, t, OwnKey(e, t, v), diff, t, v)
    requires i < |e.schema[t].props| && e.schema[t].primary != Some(i)
    ensures v.Obj?
    ensures var r, p := Create(e, st, t, v, update, diff, None), e.schema[t].props[i];
      var created := r.row == |st.store[t]|;
      r.row < |r.state.store[t]| && i < |r.state.store[t][r.row]| && r.row <= |st.store[t]| &&
      var was := if created then InitialCell(p) else st.store[t][r.row][i];
      var c := r.state.store[t][r.row][i];
      match Field(v, i)
      case Some(x) =>
        if p.list && x == ListOf(t, r.row, i) then c == was
        else HoldsValue(e, r.state.store, p, c, x) <==> !(diff && TakesNull(e, p, was, x))
      case None =>
        if !created || p.default.None? then c == was
        else HoldsValue(e, r.state.store, p, c, p.default.value) <==> !(diff && TakesNull(e, p, was, p.default.value))
  {
    hide Populate, Typed, SchemaOk, Create, Started, Supplied, Live, FieldsAvoid, RowHas, RowAfter, KeyCell, CellAfter, HoldsValue;
    TypedShaped(e, st.store);
    CreateStarts(e, st, t, v, update, diff);
    StartedCell(e, st, t, v, update, diff, i);
    StartedKey(e, st, t, v, update, diff);
    var r, st1 := Create(e, st, t, v, update, diff, None), Started(e, st, t, v, update);
    var created := r.row == |st.store[t]|;
    StartedTyped(e, st, t, v, update);
    LiveLater(e, st.store, st1.store, Object(t), false, v);
    PopulateHolds(e, st1, t, r.row, v, 0, created, update, diff, OwnKey(e, t, v));
    AfterMeans(e, st1.store, r.state.store, t, r.row, v, i, created, diff);
  }

  lemma {:induction false} StartedKey(e: Env, st: State, t: string, v: Value, update: bool, diff: bool)
    requires SchemaOk(e) && Shaped(e, st.store) && t in e.schema && !e.migrating
    requires Create(e, st, t, v, update, diff, None).error.None?
    ensures RowHas(e, Started(e, st, t, v, update).store, t, Create(e, st, t, v, update, diff, None).row, OwnKey(e, t, v))
  {
    hide Populate, InitialRow, KeyValue, KeyCell;
    CreateStarts(e, st, t, v, update, diff);
    TableFacts(e, st.store, t);
    var o := e.schema[t];
    if o.primary.Some? {
      FoundKey(st.store[t], o.props[o.primary.value], o.primary.value, o, v);
    }
  }

  lemma {:induction false} AfterMeans(e: Env, a: Store, b: Store, t: string, row: nat, v: Value, i: nat, created: bool, diff: bool)
    requires SchemaOk(e) && RowAfter(e, a, b, t, row, v, 0, created, diff) && i < |e.schema[t].props| && e.schema[t].primary != Some(i)
    requires created ==> a[t][row][i] == InitialCell(e.schema[t].props[i])
    ensures v.Obj?
    ensures var p, was, c := e.schema[t].props[i], a[t][row][i], b[t][row][i];
      match Field(v, i)
      case Some(x) =>
        if p.list && x == ListOf(t, row, i) then c == was
        else HoldsValue(e, b, p, c, x) <==> !(diff && TakesNull(e, p, was, x))
      case None =>
        if !created || p.default.None? then c == was
        else HoldsValue(e, b, p, c, p.default.value) <==> !(diff && TakesNull(e, p, was, p.default.value))
  {
    hide Goes, HoldsElem, HoldsAll;
    assert PropertyOk(e, e.schema[t].props[i]);
    assert PropAfter(e, b, t, row, i, v, created, diff, a[t][row][i], b[t][row][i]);
  }

  // ---------- where nothing can lead back ----------

  /** If no link leads back to the type, no value avoids to avoid its objects. */
  lemma {:induction false} ClosedAvoids(e: Env, types: set<string>, t: string, v: Value, key: Cell, diff: bool)
    requires SchemaOk(e) && t in e.schema && t !in types && Closed(e, Scope(types, t, 0)) && v.Obj?
    ensures FieldsAvoid(e, t, key, diff, t, v)
  {
    forall i | 0 <= i < |v.fields| && i < |e.schema[t].props| && v.fields[i].Some?
      ensures Avoids(e, t, key, diff, e.schema[t].props[i].base, v.fields[i].value)
    {
      WithinAvoids(e, types, t, key, diff, e.schema[t].props[i].base, v.fields[i].value);
    }
  }

  lemma {:induction false} WithinAvoids(e: Env, types: set<string>, t: string, key: Cell, diff: bool, base: Base, v: Value)
    requires t !in types && Closed(e, Scope(types, t, 0)) && (base.Object? ==> base.target in types)
    ensures Avoids(e, t, key, diff, base, v)
    decreases v
  {
    match v
    case Obj(fields, _) =>
      if base.Object? && base.target in e.schema {
        var props := e.schema[base.target].props;
        forall i | 0 <= i < |fields| && i < |props| && fields[i].Some?
          ensures Avoids(e, t, key, diff, props[i].base, fields[i].value)
        {
          WithinAvoids(e, types, t, key, diff, props[i].base, fields[i].value);
        }
      }
    case Items(items) =>
      forall k | 0 <= k < |items| ensures Avoids(e, t, key, diff, base, items[k]) {
        WithinAvoids(e, types, t, key, diff, base, items[k]);
      }
    case _ =>
  }
}
