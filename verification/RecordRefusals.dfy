/** When creating or updating an object succeeds: exactly, for types without links; and
    for all types, what a supplied value must be like for an upsert never to fail. */
module RecordRefusals {
  import opened Common
  import opened Records
  import opened RecordLaws
  import opened RecordRuns
  import opened RecordWrites
  import opened RecordDiffs

  // ---------- what fits ----------

  /** The supplied value can be a key; without one, the default or a null can. */
  predicate KeyFits(p: Property, supplied: Option<Value>) {
    p.base.Plain? &&
    match (if supplied.Some? then supplied else p.default)
    case Some(x) => (x.Null? && p.nullable) || Good(p.base.kind, x)
    case None => p.nullable
  }

  /** The supplied value can be stored in the plain property. */
  predicate PlainFits(p: Property, here: Value, x: Value)
    requires p.base.Plain?
  {
    if p.list then x.Null? || x == here || (x.Items? && forall k :: 0 <= k < |x.items| ==> Good(p.base.kind, x.items[k]))
    else (x.Null? && p.nullable) || Good(p.base.kind, x)
  }

  /** A property that is not supplied: an updated object keeps it; a new one takes the
      default, or else does without, if it may. */
  predicate MissingFits(p: Property, here: Value, created: bool, allowMissing: bool)
    requires p.base.Plain?
  {
    created ==>
      match p.default
      case Some(x) => PlainFits(p, here, x)
      case None => p.nullable || p.list || allowMissing
  }

  predicate PropFits(o: ObjectSchema, t: string, row: nat, v: Value, i: nat, created: bool)
    requires v.Obj? && i < |o.props| && o.props[i].base.Plain?
  {
    match Field(v, i)
    case Some(x) => PlainFits(o.props[i], ListOf(t, row, i), x)
    case None => MissingFits(o.props[i], ListOf(t, row, i), created, v.allowMissing)
  }

  // ---------- types without links ----------

  lemma {:induction false} WrittenFits(e: Env, p: Property, here: Value, c: Cell, x: Value, diff: bool)
    requires p.base.Plain? && (p.list ==> !p.nullable)
    ensures Written(e, p, here, c, x, diff).error.None? <==> PlainFits(p, here, x)
  {
  }

  lemma {:induction false} PropertyFits(e: Env, o: ObjectSchema, t: string, row: nat, c: Cell, v: Value, i: nat, created: bool, diff: bool)
    requires Linkless(o) && v.Obj? && i < |o.props| && o.primary != Some(i) && (o.props[i].list ==> !o.props[i].nullable)
    ensures Populated(e, o, t, row, c, v, i, created, true, diff).error.None? <==> PropFits(o, t, row, v, i, created)
  {
    hide Written;
    var supplied := Supplied(o, v, i, created);
    if supplied.Set? {
      WrittenFits(e, o.props[i], ListOf(t, row, i), c, supplied.value, diff);
    }
  }

  /** Some row has the key asked for. */
  ghost predicate Taken(e: Env, s: Store, t: string, v: Value)
    requires SchemaOk(e) && Shaped(e, s) && t in e.schema && e.schema[t].primary.Some? && v.Obj?
  {
    exists j :: 0 <= j < |s[t]| && KeyAsked(e.schema[t].props[e.schema[t].primary.value], Field(v, e.schema[t].primary.value), KeyAt(e, s, t, j))
  }

  /** Creating or updating an object of a type without links succeeds exactly if: it is
      an object; its key fits, and is free or the object may be updated; and every other
      property fits. */
  ghost predicate ObjectFits(e: Env, s: Store, t: string, v: Value, update: bool)
    requires SchemaOk(e) && Shaped(e, s) && t in e.schema && Linkless(e.schema[t])
  {
    var o := e.schema[t];
    if !v.Obj? then o.props == []
    else
      && (o.primary.Some? ==>
            KeyFits(o.props[o.primary.value], Field(v, o.primary.value)) && (update || !Taken(e, s, t, v)))
      && forall i, row: nat {:trigger PropFits(o, t, row, v, i, true)} {:trigger PropFits(o, t, row, v, i, false)} ::
           0 <= i < |o.props| && o.primary != Some(i) && RowFor(e, s, t, v, row) ==>
             PropFits(o, t, row, v, i, row == |s[t]|)
  }

  /** The row the object gets: the one that has its key, or a new one. */
  ghost predicate RowFor(e: Env, s: Store, t: string, v: Value, row: nat)
    requires SchemaOk(e) && Shaped(e, s) && t in e.schema && v.Obj?
  {
    if e.schema[t].primary.Some? && Taken(e, s, t, v)
    then row < |s[t]| && KeyAsked(e.schema[t].props[e.schema[t].primary.value], Field(v, e.schema[t].primary.value), KeyAt(e, s, t, row))
    else row == |s[t]|
  }

  lemma {:induction false} TypedDue(e: Env, s: Store, t: string, row: nat)
    requires SchemaOk(e) && Typed(e, s) && t in e.schema && row < |s[t]| && Linkless(e.schema[t])
    ensures RowDue(e.schema[t], s[t][row])
  {
    hide Typed;
    TypedShaped(e, s);
    assert RowsShaped(s[t], |e.schema[t].props|);
    forall i | 0 <= i < |e.schema[t].props| ensures ListWhereDue(e.schema[t].props[i], s[t][row][i]) {
      CellOf(e, s, t, row, i);
    }
  }

  lemma {:induction false} PopulateFits(e: Env, st: State, t: string, row: nat, v: Value, created: bool, update: bool, diff: bool)
    requires SchemaOk(e) && Typed(e, st.store) && t in e.schema && row < |st.store[t]| && Linkless(e.schema[t])
    ensures Shaped(e, st.store)
    ensures var o := e.schema[t];
      Populate(e, st, t, row, v, 0, created, true, update, diff).error.None? <==>
      forall i :: 0 <= i < |o.props| && o.primary != Some(i) ==> v.Obj? && PropFits(o, t, row, v, i, created)
  {
    hide Typed, SchemaOk, PropFits, Populated, Populate, PopulatedFrom;
    TypedShaped(e, st.store);
    TypedDue(e, st.store, t, row);
    PopulateResult(e, st, t, row, v, 0, created, true, update, diff);
    var o, was := e.schema[t], st.store[t][row];
    forall i | 0 <= i < |o.props|
      ensures Populated(e, o, t, row, was[i], v, i, created, true, diff).error.None? <==>
        (o.primary != Some(i) ==> v.Obj? && PropFits(o, t, row, v, i, created))
    {
      OneFits(e, o, t, row, was[i], v, i, created, diff);
    }
  }

  lemma {:induction false} OneFits(e: Env, o: ObjectSchema, t: string, row: nat, c: Cell, v: Value, i: nat, created: bool, diff: bool)
    requires SchemaOk(e) && t in e.schema && o == e.schema[t] && Linkless(o) && i < |o.props|
    ensures Populated(e, o, t, row, c, v, i, created, true, diff).error.None? <==>
      (o.primary != Some(i) ==> v.Obj? && PropFits(o, t, row, v, i, created))
  {
    hide Written, PropFits, Supplied;
    if v.Obj? && o.primary != Some(i) {
      PropertyFits(e, o, t, row, c, v, i, created, diff);
    }
  }

  lemma {:induction false} KeyFitsIff(rows: seq<Row>, p: Property, col: nat, v: Value)
    requires p.base.Plain? && v.Obj? && forall k :: 0 <= k < |rows| ==> col < |rows[k]|
    ensures KeyFits(p, Field(v, col)) <==>
      KeyValue(p, v, col).Some? && FindKey(rows, p, col, KeyValue(p, v, col).value).Found?
    ensures KeyFits(p, Field(v, col)) ==> forall c :: KeyAsked(p, Field(v, col), c) ==>
      c == FindKey(rows, p, col, KeyValue(p, v, col).value).key
  {
  }

  /** An object with a key: the row found is the one to write, and no other. */
  lemma {:induction false} FoundRow(e: Env, s: Store, t: string, v: Value)
    requires SchemaOk(e) && Shaped(e, s) && UniqueKeys(e, s) && t in e.schema && e.schema[t].primary.Some? && v.Obj?
    requires KeyFits(e.schema[t].props[e.schema[t].primary.value], Field(v, e.schema[t].primary.value))
    ensures var o := e.schema[t];
      var col := o.primary.value;
      RowsShaped(s[t], |o.props|) && KeyValue(o.props[col], v, col).Some? &&
      var found := FindKey(s[t], o.props[col], col, KeyValue(o.props[col], v, col).value);
      && found.Found? && (found.row.Some? <==> Taken(e, s, t, v)) && (found.row.Some? ==> found.row.value < |s[t]|)
      && forall row: nat :: RowFor(e, s, t, v, row) <==> row == if found.row.Some? then found.row.value else |s[t]|
  {
    hide KeyValue, FindKey, KeyAsked, UniqueKeys;
    var o := e.schema[t];
    var col := o.primary.value;
    assert RowsShaped(s[t], |o.props|);
    KeyFitsIff(s[t], o.props[col], col, v);
    FoundAsked(s[t], o.props[col], col, v);
    var found := FindKey(s[t], o.props[col], col, KeyValue(o.props[col], v, col).value);
    if found.row.Some? {
      assert KeyAt(e, s, t, found.row.value) == found.key;
      OnlyKey(e, s, t, found.row.value);
    }
  }

  lemma {:induction false} KeySchema(e: Env, s: Store, t: string)
    requires SchemaOk(e) && Shaped(e, s) && t in e.schema
    ensures KeyOk(e.schema[t]) && t in s && RowsShaped(s[t], |e.schema[t].props|)
  {
  }

  lemma {:induction false} NoKeyRow(e: Env, s: Store, t: string, v: Value)
    requires SchemaOk(e) && Shaped(e, s) && t in e.schema && e.schema[t].primary.None?
    ensures v.Obj? ==> forall row: nat :: RowFor(e, s, t, v, row) <==> row == |s[t]|
  {
  }

  lemma {:induction false} NewKeyLawful(e: Env, s: Store, t: string, v: Value)
    requires SchemaOk(e) && Shaped(e, s) && t in e.schema && e.schema[t].primary.Some? && v.Obj?
    ensures KeyOk(e.schema[t]) && RowsShaped(s[t], |e.schema[t].props|)
    ensures var o, col := e.schema[t], e.schema[t].primary.value;
      KeyValue(o.props[col], v, col).Some? ==>
        var found := FindKey(s[t], o.props[col], col, KeyValue(o.props[col], v, col).value);
        found.Found? && found.row.None? ==> Lawful(e, Everywhere(e), s, Append(t, InitialRow(o.props)[col := found.key]))
  {
    KeySchema(e, s, t);
    var o, col := e.schema[t], e.schema[t].primary.value;
    if KeyValue(o.props[col], v, col).Some? {
      var found := FindKey(s[t], o.props[col], col, KeyValue(o.props[col], v, col).value);
      if found.Found? && found.row.None? {
        NewRowLawful(e, Everywhere(e), s, t, found.key);
      }
    }
  }

  lemma {:induction false} NotAnObject(e: Env, st: State, t: string, row: nat, v: Value, update: bool, diff: bool)
    requires SchemaOk(e) && Shaped(e, st.store) && t in e.schema && row < |st.store[t]|
    ensures e.schema[t].primary.None? && !v.Obj? ==>
      (Populate(e, st, t, row, v, 0, true, true, update, diff).error.None? <==> e.schema[t].props == [])
  {
  }

  lemma {:induction false} NewFits(e: Env, st: State, t: string, cells: Row, v: Value, update: bool, diff: bool)
    requires SchemaOk(e) && Typed(e, st.store) && Shaped(e, st.store) && t in e.schema && Linkless(e.schema[t])
    requires Lawful(e, Everywhere(e), st.store, Append(t, cells))
    ensures Fits(e, st.store, Append(t, cells)) && |Do(e, st, Append(t, cells)).store[t]| == |st.store[t]| + 1
    ensures var o := e.schema[t];
      Populate(e, Do(e, st, Append(t, cells)), t, |st.store[t]|, v, 0, true, true, update, diff).error.None? <==>
      forall i :: 0 <= i < |o.props| && o.primary != Some(i) ==> v.Obj? && PropFits(o, t, |st.store[t]|, v, i, true)
    ensures e.schema[t].primary.None? && !v.Obj? ==>
      (Populate(e, Do(e, st, Append(t, cells)), t, |st.store[t]|, v, 0, true, true, update, diff).error.None? <==>
       e.schema[t].props == [])
  {
    hide Typed, SchemaOk, PropFits, Populate, Lawful;
    LawfulFits(e, Everywhere(e), st.store, Append(t, cells));
    LawfulTyped(e, Everywhere(e), st.store, Append(t, cells));
    PopulateFits(e, Do(e, st, Append(t, cells)), t, |st.store[t]|, v, true, update, diff);
    NotAnObject(e, Do(e, st, Append(t, cells)), t, |st.store[t]|, v, update, diff);
  }

  lemma {:induction false} CreateFitsIff(e: Env, st: State, t: string, v: Value, update: bool, diff: bool)
    requires SchemaOk(e) && Typed(e, st.store) && UniqueKeys(e, st.store) && !e.migrating && t in e.schema && Linkless(e.schema[t])
    ensures Shaped(e, st.store)
    ensures Create(e, st, t, v, update, diff, None).error.None? <==> ObjectFits(e, st.store, t, v, update)
  {
    hide Typed, UniqueKeys, SchemaOk, Populate, PropFits, KeyFits, Taken, RowFor, InitialRow, KeyValue, FindKey, Do, Lawful, Apply;
    TypedShaped(e, st.store);
    var o, rows := e.schema[t], st.store[t];
    KeySchema(e, st.store, t);
    match o.primary
    case Some(col) =>
      if v.Obj? {
        KeyFitsIff(rows, o.props[col], col, v);
        if KeyFits(o.props[col], Field(v, col)) {
          FoundRow(e, st.store, t, v);
          var found := FindKey(rows, o.props[col], col, KeyValue(o.props[col], v, col).value);
          if found.row.Some? {
            PopulateFits(e, st, t, found.row.value, v, false, update, diff);
          } else {
            NewKeyLawful(e, st.store, t, v);
            NewFits(e, st, t, InitialRow(o.props)[col := found.key], v, update, diff);
          }
        }
      }
    case None =>
      NoKeyRow(e, st.store, t, v);
      PlainRowLawful(e, Everywhere(e), st.store, t);
      NewFits(e, st, t, InitialRow(o.props), v, update, diff);
  }

  // ---------- keys within a migration ----------

  /** The populate loop gives a new row the key asked for. */
  lemma {:induction false} KeyPopulated(e: Env, o: ObjectSchema, t: string, row: nat, v: Value, col: nat)
    requires KeyOk(o) && o.primary == Some(col) && Linkless(o) && v.Obj? && KeyFits(o.props[col], Field(v, col))
    ensures |InitialRow(o.props)| == |o.props|
    ensures KeyAsked(o.props[col], Field(v, col), Populated(e, o, t, row, InitialRow(o.props)[col], v, col, true, false, false).cell)
  {
  }

  lemma {:induction false} AppendFits(e: Env, st: State, t: string, cells: Row)
    requires SchemaOk(e) && Typed(e, st.store) && Shaped(e, st.store) && t in e.schema && Linkless(e.schema[t])
    requires Lawful(e, Everywhere(e), st.store, Append(t, cells))
    ensures Fits(e, st.store, Append(t, cells)) && Typed(e, Do(e, st, Append(t, cells)).store)
    ensures Do(e, st, Append(t, cells)).store[t] == st.store[t] + [cells]
    ensures RowDue(e.schema[t], cells)
  {
    hide Typed, SchemaOk, Lawful;
    LawfulFits(e, Everywhere(e), st.store, Append(t, cells));
    LawfulTyped(e, Everywhere(e), st.store, Append(t, cells));
    TypedDue(e, Do(e, st, Append(t, cells)).store, t, |st.store[t]|);
  }

  /** Within a migration, creating an object without updating always makes a new row with
      the key asked for, be there one with that key or not, and leaves the others. */
  lemma {:induction false} MigrationKeepsBoth(e: Env, st: State, t: string, v: Value)
    requires SchemaOk(e) && Typed(e, st.store) && e.migrating && t in e.schema
    requires e.schema[t].primary.Some? && Linkless(e.schema[t])
    ensures Shaped(e, st.store)
    ensures var r, col := Create(e, st, t, v, false, false, None), e.schema[t].primary.value;
      r.error.None? ==>
        && v.Obj? && r.row == |st.store[t]| && |r.state.store[t]| == |st.store[t]| + 1
        && (forall j :: 0 <= j < |st.store[t]| ==> r.state.store[t][j] == st.store[t][j])
        && RowsShaped(r.state.store[t], |e.schema[t].props|) && col < |e.schema[t].props|
        && KeyAsked(e.schema[t].props[col], Field(v, col), r.state.store[t][r.row][col])
  {
    hide Typed, SchemaOk, Populate, InitialRow, KeyValue, FindKey, Do, Lawful, Apply, Populated, KeyAsked, KeyFits, RowDue;
    TypedShaped(e, st.store);
    KeySchema(e, st.store, t);
    var o, col, rows := e.schema[t], e.schema[t].primary.value, st.store[t];
    var r := Create(e, st, t, v, false, false, None);
    if r.error.None? {
      KeyFitsIff(rows, o.props[col], col, v);
      FoundAsked(rows, o.props[col], col, v);
      var found := FindKey(rows, o.props[col], col, KeyValue(o.props[col], v, col).value);
      var cells := if found.row.Some? then InitialRow(o.props) else InitialRow(o.props)[col := found.key];
      if found.row.Some? {
        PlainRowLawful(e, Everywhere(e), st.store, t);
        KeyPopulated(e, o, t, |rows|, v, col);
      } else {
        NewKeyLawful(e, st.store, t, v);
      }
      AppendFits(e, st, t, cells);
      var st1 := Do(e, st, Append(t, cells));
      TypedShaped(e, st1.store);
      PopulateResult(e, st1, t, |rows|, v, 0, true, found.row.None?, false, false);
      KeySchema(e, r.state.store, t);
      SkippedKey(e, o, t, |rows|, found.key, v, col);
    }
  }

  lemma {:induction false} SkippedKey(e: Env, o: ObjectSchema, t: string, row: nat, c: Cell, v: Value, col: nat)
    requires Linkless(o) && o.primary == Some(col) && col < |o.props|
    ensures Populated(e, o, t, row, c, v, col, true, true, false).cell == c
  {
  }

  // ---------- links to objects without a key ----------

  /** The given row is written, and nothing else. */
  lemma {:induction false} WritesRow(e: Env, st: State, u: string, row: nat, v: Value, created: bool, update: bool, diff: bool)
    requires SchemaOk(e) && Typed(e, st.store) && u in e.schema && Linkless(e.schema[u])
    ensures Shaped(e, st.store)
    ensures row < |st.store[u]| ==>
      var r := Populate(e, st, u, row, v, 0, created, true, update, diff);
      && (r.error.None? ==> r.row == row) && |r.state.store[u]| == |st.store[u]|
      && forall t :: t in st.store && t != u ==> t in r.state.store && r.state.store[t] == st.store[t]
  {
    hide Typed, SchemaOk, Populate, PopulatedFrom, AllPopulate, RowDue;
    TypedShaped(e, st.store);
    if row < |st.store[u]| {
      TypedDue(e, st.store, u, row);
      PopulateResult(e, st, u, row, v, 0, created, true, update, diff);
    }
  }

  /** Creating an object without a key and without links makes a new row, or in
      differential mode writes the one given. */
  lemma {:induction false} KeylessCreate(e: Env, st: State, u: string, v: Value, update: bool, diff: bool, current: Option<nat>)
    requires SchemaOk(e) && Typed(e, st.store) && u in e.schema && e.schema[u].primary.None? && Linkless(e.schema[u])
    ensures Shaped(e, st.store)
    ensures var r, reused := Create(e, st, u, v, update, diff, current), diff && current.Some? && current.value < |st.store[u]|;
      r.error.None? ==>
        && r.row == (if reused then current.value else |st.store[u]|)
        && |r.state.store[u]| == |st.store[u]| + (if reused then 0 else 1)
        && forall t :: t in st.store && t != u ==> t in r.state.store && r.state.store[t] == st.store[t]
  {
    hide Typed, SchemaOk, Shaped, Populate, InitialRow, Do, Lawful, Linkless;
    TypedShaped(e, st.store);
    KeySchema(e, st.store, u);
    if diff && current.Some? && current.value < |st.store[u]| {
      WritesRow(e, st, u, current.value, v, false, update, diff);
    } else {
      var cells := InitialRow(e.schema[u].props);
      PlainRowLawful(e, Everywhere(e), st.store, u);
      AppendFits(e, st, u, cells);
      AppendsOnly(e, st, u, cells);
      WritesRow(e, Do(e, st, Append(u, cells)), u, |st.store[u]|, v, true, update, diff);
    }
  }

  lemma {:induction false} AppendsOnly(e: Env, st: State, u: string, cells: Row)
    requires Shaped(e, st.store) && Fits(e, st.store, Append(u, cells))
    ensures Do(e, st, Append(u, cells)).store == st.store[u := st.store[u] + [cells]]
  {
  }

  /** Writing such an object to a link in full makes a new row each time; in differential
      mode it is written over the row the link already leads to. */
  lemma {:induction false} KeylessLinked(e: Env, st: State, t: string, row: nat, i: nat, v: Value, update: bool, diff: bool, isDefault: bool)
    requires SchemaOk(e) && Typed(e, st.store) && Place(e, st.store, t, row, i)
    requires !e.schema[t].props[i].list && e.schema[t].props[i].base.Object? && v.Obj?
    requires var u := e.schema[t].props[i].base.target; u in e.schema && e.schema[u].primary.None? && Linkless(e.schema[u])
    requires SetProp(e, st, t, row, i, v, update, diff, isDefault).error.None?
    ensures var u, was, s := e.schema[t].props[i].base.target, st.store[t][row][i], SetProp(e, st, t, row, i, v, update, diff, isDefault).state.store;
      && Shaped(e, s) && Place(e, s, t, row, i) && u in s && u in st.store
      && if diff && was.Link? && was.row < |st.store[u]| then s[t][row][i] == was && |s[u]| == |st.store[u]|
         else s[t][row][i] == Link(|st.store[u]|) && |s[u]| == |st.store[u]| + 1
  {
    hide Typed, SchemaOk, Create;
    var u, cell := e.schema[t].props[i].base.target, st.store[t][row][i];
    assert u != t;
    KeylessCreate(e, st, u, v, update, diff, LinkRow(cell));
    TypedShaped(e, st.store);
  }

  // ---------- upserts that cannot fail ----------

  /** The value can be one element or the target of one link. */
  predicate ElemComplete(e: Env, base: Base, inList: bool, x: Value)
    decreases x, 1
  {
    match base
    case Plain(kind) => Good(kind, x)
    case Object(u) => (x.Managed? && (inList ==> x.type_ == u)) || (x.Obj? && u in e.schema && Complete(e, u, x))
    case Any => false
  }

  predicate ValueComplete(e: Env, p: Property, x: Value)
    decreases x, 2
  {
    if x.Null? then p.nullable || p.list
    else if p.list then x.Items? && forall k :: 0 <= k < |x.items| ==> ElemComplete(e, p.base, true, x.items[k])
    else ElemComplete(e, p.base, false, x)
  }

  /** An object with a fitting key whose properties, and the objects nested in it, all have
      fitting values, or do without one. */
  predicate Complete(e: Env, t: string, v: Value)
    requires v.Obj? && t in e.schema
    decreases v, 0
  {
    var o := e.schema[t];
    && (o.primary.Some? ==> o.primary.value < |o.props| && KeyFits(o.props[o.primary.value], Field(v, o.primary.value)))
    && forall i :: 0 <= i < |o.props| && o.primary != Some(i) ==>
         if i < |v.fields| && v.fields[i].Some? then ValueComplete(e, o.props[i], v.fields[i].value)
         else MissingComplete(o.props[i], v.allowMissing)
  }

  predicate MissingComplete(p: Property, allowMissing: bool) {
    match p.default
    case None => p.nullable || p.list || allowMissing
    case Some(x) =>
      if x.Null? then p.nullable || p.list
      else p.base.Plain? && if p.list then x.Items? && forall k :: 0 <= k < |x.items| ==> Good(p.base.kind, x.items[k])
                            else Good(p.base.kind, x)
  }

  /** Creating or updating such an object in full succeeds in every state of the tables. */
  lemma {:induction false} CompleteSucceeds(e: Env, st: State, t: string, v: Value, current: Option<nat>)
    requires SchemaOk(e) && Shaped(e, st.store) && t in e.schema && v.Obj? && Complete(e, t, v)
    ensures Create(e, st, t, v, true, false, current).error.None?
    decreases Depth(v), 2, 0
  {
    hide SchemaOk, Populate, Complete, KeyFits, KeyValue, FindKey, Do, InitialRow;
    KeySchema(e, st.store, t);
    var o, rows := e.schema[t], st.store[t];
    match o.primary
    case Some(col) =>
      CompleteKey(e, t, v);
      KeyFitsIff(rows, o.props[col], col, v);
      FoundAsked(rows, o.props[col], col, v);
      var found := FindKey(rows, o.props[col], col, KeyValue(o.props[col], v, col).value);
      if found.row.Some? {
        CompletePopulate(e, st, t, found.row.value, v, 0, false);
      } else {
        NewRowFits(e, st, t, InitialRow(o.props)[col := found.key]);
        CompletePopulate(e, Do(e, st, Append(t, InitialRow(o.props)[col := found.key])), t, |rows|, v, 0, true);
      }
    case None =>
      NewRowFits(e, st, t, InitialRow(o.props));
      CompletePopulate(e, Do(e, st, Append(t, InitialRow(o.props))), t, |rows|, v, 0, true);
  }

  lemma {:induction false} CompleteKey(e: Env, t: string, v: Value)
    requires t in e.schema && v.Obj? && Complete(e, t, v) && e.schema[t].primary.Some?
    ensures e.schema[t].primary.value < |e.schema[t].props|
    ensures KeyFits(e.schema[t].props[e.schema[t].primary.value], Field(v, e.schema[t].primary.value))
  {
  }

  lemma {:induction false} NewRowFits(e: Env, st: State, t: string, cells: Row)
    requires SchemaOk(e) && Shaped(e, st.store) && t in e.schema && |cells| == |e.schema[t].props|
    ensures Fits(e, st.store, Append(t, cells)) && |Do(e, st, Append(t, cells)).store[t]| == |st.store[t]| + 1
  {
  }

  lemma {:induction false} CompletePopulate(e: Env, st: State, t: string, row: nat, v: Value, i: nat, created: bool)
    requires SchemaOk(e) && Shaped(e, st.store) && t in e.schema && row < |st.store[t]| && i <= |e.schema[t].props|
    requires v.Obj? && Complete(e, t, v)
    ensures Populate(e, st, t, row, v, i, created, true, true, false).error.None?
    decreases Depth(v), 1, |e.schema[t].props| - i
  {
    hide SchemaOk, SetProp, Complete, Supplied, ValueComplete;
    if i < |e.schema[t].props| {
      if e.schema[t].primary == Some(i) {
        CompletePopulate(e, st, t, row, v, i + 1, created);
      } else {
        CompleteSupplied(e, t, v, i, created);
        var supplied := Supplied(e.schema[t], v, i, created);
        if supplied.Set? {
          FieldSmaller(e.schema[t], v, i, created);
          CompleteSetProp(e, st, t, row, i, supplied.value, supplied.isDefault);
          CompletePopulate(e, SetProp(e, st, t, row, i, supplied.value, true, false, supplied.isDefault).state, t, row, v, i + 1, created);
        } else {
          CompletePopulate(e, st, t, row, v, i + 1, created);
        }
      }
    }
  }

  lemma {:induction false} CompleteSupplied(e: Env, t: string, v: Value, i: nat, created: bool)
    requires SchemaOk(e) && t in e.schema && v.Obj? && Complete(e, t, v) && i < |e.schema[t].props| && e.schema[t].primary != Some(i)
    ensures !Supplied(e.schema[t], v, i, created).Refused?
    ensures Supplied(e.schema[t], v, i, created).Set? ==>
      ValueComplete(e, e.schema[t].props[i], Supplied(e.schema[t], v, i, created).value)
    ensures e.schema[t].props[i].default.Some? ==> Flat(e.schema[t].props[i].default.value)
  {
  }

  lemma {:induction false} CompleteSetProp(e: Env, st: State, t: string, row: nat, i: nat, x: Value, isDefault: bool)
    requires SchemaOk(e) && Place(e, st.store, t, row, i) && ValueComplete(e, e.schema[t].props[i], x)
    ensures SetProp(e, st, t, row, i, x, true, false, isDefault).error.None?
    decreases Depth(x), 6, 0
  {
    hide SchemaOk, Do, AssignFrom, Unbox, ElemComplete;
    var p := e.schema[t].props[i];
    PropSchema(e, t, i);
    if p.nullable && x.Null? {
    } else if p.list {
      if x.Items? {
        ClearFits(e, st, t, row, i);
        CompleteItems(e, Do(e, st, Edit(t, row, i, Clear)), t, row, i, x, 0);
      }
    } else {
      CompleteUnbox(e, st, p.base, false, x, if p.base.Object? then LinkRow(st.store[t][row][i]) else None);
      NoAnyElem(e, p.base, false, x);
    }
  }

  lemma {:induction false} PropSchema(e: Env, t: string, i: nat)
    requires SchemaOk(e) && t in e.schema && i < |e.schema[t].props|
    ensures PropertyOk(e, e.schema[t].props[i])
  {
  }

  lemma {:induction false} NoAnyElem(e: Env, base: Base, inList: bool, x: Value)
    requires ElemComplete(e, base, inList, x)
    ensures !base.Any? && (inList ==> !Misplaced(base, x))
  {
  }

  lemma {:induction false} ClearFits(e: Env, st: State, t: string, row: nat, i: nat)
    requires SchemaOk(e) && Place(e, st.store, t, row, i) && e.schema[t].props[i].list
    ensures Fits(e, st.store, Edit(t, row, i, Clear)) && Place(e, Do(e, st, Edit(t, row, i, Clear)).store, t, row, i)
  {
  }

  lemma {:induction false} CompleteUnbox(e: Env, st: State, base: Base, inList: bool, x: Value, current: Option<nat>)
    requires SchemaOk(e) && Shaped(e, st.store) && (base.Object? ==> base.target in e.schema) && ElemComplete(e, base, inList, x)
    ensures Unbox(e, st, base, x, true, false, current).error.None?
    decreases Depth(x), 3, 0
  {
    hide SchemaOk, Create, Complete;
    if base.Object? && !x.Managed? {
      CompleteSucceeds(e, st, base.target, x, current);
    }
  }

  lemma {:induction false} CompleteItems(e: Env, st: State, t: string, row: nat, i: nat, x: Value, k: nat)
    requires SchemaOk(e) && Place(e, st.store, t, row, i) && x.Items? && k <= |x.items| && e.schema[t].props[i].list
    requires ValueComplete(e, e.schema[t].props[i], x)
    ensures AssignFrom(e, st, t, row, i, x, k, 0, true, false).error.None?
    decreases Depth(x), 4, |x.items| - k
  {
    hide SchemaOk, Do, Unbox, ElemComplete;
    if k < |x.items| {
      var base := e.schema[t].props[i].base;
      PropSchema(e, t, i);
      assert ElemComplete(e, base, true, x.items[k]);
      CompleteUnbox(e, st, base, true, x.items[k], None);
      NoAnyElem(e, base, true, x.items[k]);
      CompleteItems(e, AddElement(e, st, t, row, i, x, k, true).state, t, row, i, x, k + 1);
    }
  }
}
