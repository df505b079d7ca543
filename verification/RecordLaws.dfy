/** What every write the accessor layer makes respects, and so what every run of
    object creations and property writes keeps: typed cells, live links, unique and
    unchanging primary keys. */
module RecordLaws {
  import opened Common
  import opened Records

  // ---------- what a store has to satisfy ----------

  predicate ElemOk(s: Store, base: Base, c: Cell) {
    match base
    case Plain(kind) => c.One? && c.scalar.kind == kind
    case Object(target) => c.Link? && target in s && c.row < |s[target]|
    case Any => false
  }

  predicate CellOk(s: Store, p: Property, c: Cell) {
    if p.list then c.Many? && forall k :: 0 <= k < |c.cells| ==> ElemOk(s, p.base, c.cells[k])
    else if c.Nil? then p.nullable || !p.base.Plain?
    else ElemOk(s, p.base, c)
  }

  predicate RowOk(s: Store, props: seq<Property>, row: Row) {
    |row| == |props| && forall i :: 0 <= i < |row| ==> CellOk(s, props[i], row[i])
  }

  /** Every cell holds a value of its property's type, and no link dangles. */
  ghost predicate Typed(e: Env, s: Store) {
    && Shaped(e, s)
    && forall t, r :: t in e.schema && 0 <= r < |s[t]| ==> RowOk(s, e.schema[t].props, s[t][r])
  }

  ghost function KeyAt(e: Env, s: Store, t: string, r: nat): Cell
    requires SchemaOk(e) && Shaped(e, s) && t in e.schema && e.schema[t].primary.Some? && r < |s[t]|
  {
    s[t][r][e.schema[t].primary.value]
  }

  ghost predicate DistinctKeys(e: Env, s: Store, t: string)
    requires SchemaOk(e) && Shaped(e, s) && t in e.schema && e.schema[t].primary.Some?
  {
    forall j, k :: 0 <= j < k < |s[t]| ==> KeyAt(e, s, t, j) != KeyAt(e, s, t, k)
  }

  /** Primary keys are unique in every table. */
  ghost predicate UniqueKeys(e: Env, s: Store)
    requires SchemaOk(e) && Shaped(e, s)
  {
    forall t :: t in e.schema && e.schema[t].primary.Some? ==> DistinctKeys(e, s, t)
  }

  /** The rows of `s` are still there, each with its primary key. */
  ghost predicate KeysKept(e: Env, s: Store, s': Store)
    requires SchemaOk(e) && Shaped(e, s) && Shaped(e, s')
  {
    && Grows(s, s')
    && forall t, r :: t in e.schema && e.schema[t].primary.Some? && 0 <= r < |s[t]| ==>
         KeyAt(e, s', t, r) == KeyAt(e, s, t, r)
  }

  // ---------- lawful writes ----------

  ghost predicate FreshKey(e: Env, s: Store, t: string, cells: Row)
    requires SchemaOk(e) && Shaped(e, s) && t in e.schema && |cells| == |e.schema[t].props|
  {
    e.schema[t].primary.Some? ==> forall r :: 0 <= r < |s[t]| ==> KeyAt(e, s, t, r) != cells[e.schema[t].primary.value]
  }

  predicate EditOk(s: Store, base: Base, edit: ListEdit) {
    match edit
    case Push(c) => ElemOk(s, base, c)
    case SetAt(_, c) => ElemOk(s, base, c)
    case _ => true
  }

  /** Where writes may go: any table of the given types, and one row of one more. */
  datatype Scope = Scope(types: set<string>, type_: string, row: nat)

  predicate Within(sc: Scope, t: string, row: nat) {
    t in sc.types || (t == sc.type_ && row == sc.row)
  }

  /** Links from objects in the scope lead to the scope's types. */
  ghost predicate Closed(e: Env, sc: Scope) {
    forall t, i :: t in e.schema && (t in sc.types || t == sc.type_) && 0 <= i < |e.schema[t].props| ==>
      e.schema[t].props[i].base.Object? ==> e.schema[t].props[i].base.target in sc.types
  }

  /** Writes put well-typed values into their cells; outside a migration a key is
      written only when its row is added, and is then new. */
  ghost predicate Lawful(e: Env, sc: Scope, s: Store, w: Write)
    requires SchemaOk(e) && Shaped(e, s)
  {
    Fits(e, s, w) &&
    match w
    case Append(t, cells) =>
      t in sc.types && RowOk(s, e.schema[t].props, cells) && (!e.migrating ==> FreshKey(e, s, t, cells))
    case Put(t, row, i, c) =>
      Within(sc, t, row) && CellOk(s, e.schema[t].props[i], c) && (!e.migrating ==> e.schema[t].primary != Some(i))
    case Edit(t, row, i, edit) =>
      Within(sc, t, row) && e.schema[t].props[i].list && EditOk(s, e.schema[t].props[i].base, edit)
  }

  /** The writes lead from one store to the other, each lawful where it is made. */
  ghost predicate Leads(e: Env, sc: Scope, s: Store, ws: seq<Write>, s': Store)
    requires SchemaOk(e) && Shaped(e, s)
    decreases |ws|
  {
    if ws == [] then s == s' else Lawful(e, sc, s, ws[0]) && Leads(e, sc, Apply(e, s, ws[0]), ws[1..], s')
  }

  /** From one state to a later one by lawful writes. */
  ghost predicate Follows(e: Env, sc: Scope, a: State, b: State)
    requires SchemaOk(e) && Shaped(e, a.store)
  {
    a.log <= b.log && Leads(e, sc, a.store, b.log[|a.log|..], b.store)
  }

  lemma {:induction false} LawfulFits(e: Env, sc: Scope, s: Store, w: Write)
    requires SchemaOk(e) && Shaped(e, s) && Lawful(e, sc, s, w)
    ensures Fits(e, s, w)
  {
  }

  lemma {:induction false} LeadsOn(e: Env, sc: Scope, a: Store, ws: seq<Write>, b: Store, vs: seq<Write>, c: Store)
    requires SchemaOk(e) && Shaped(e, a) && Shaped(e, b) && Leads(e, sc, a, ws, b) && Leads(e, sc, b, vs, c)
    ensures Leads(e, sc, a, ws + vs, c)
    decreases |ws|
  {
    hide SchemaOk, Shaped, Lawful, Apply, Fits;
    if ws == [] {
      assert ws + vs == vs;
    } else {
      LawfulFits(e, sc, a, ws[0]);
      LeadsOn(e, sc, Apply(e, a, ws[0]), ws[1..], b, vs, c);
      assert (ws + vs)[1..] == ws[1..] + vs;
    }
  }

  lemma {:induction false} Stays(e: Env, sc: Scope, a: State)
    requires SchemaOk(e) && Shaped(e, a.store)
    ensures Follows(e, sc, a, a)
  {
  }

  lemma {:induction false} OneWrite(e: Env, sc: Scope, a: State, w: Write)
    requires SchemaOk(e) && Shaped(e, a.store) && Lawful(e, sc, a.store, w)
    ensures Follows(e, sc, a, Do(e, a, w))
  {
  }

  lemma {:induction false} Onwards(e: Env, sc: Scope, a: State, b: State, c: State)
    requires SchemaOk(e) && Shaped(e, a.store) && Shaped(e, b.store) && Follows(e, sc, a, b) && Follows(e, sc, b, c)
    ensures Follows(e, sc, a, c)
  {
    hide SchemaOk, Shaped, Leads;
    var ws, vs := b.log[|a.log|..], c.log[|b.log|..];
    assert c.log[|a.log|..] == ws + vs by {
      assert c.log == b.log + vs && b.log == a.log + ws;
    }
    LeadsOn(e, sc, a.store, ws, b.store, vs, c.store);
  }

  lemma {:induction false} ThenWrite(e: Env, sc: Scope, a: State, b: State, w: Write)
    requires SchemaOk(e) && Shaped(e, a.store) && Shaped(e, b.store) && Follows(e, sc, a, b) && Lawful(e, sc, b.store, w)
    ensures Follows(e, sc, a, Do(e, b, w))
  {
    OneWrite(e, sc, b, w);
    Onwards(e, sc, a, b, Do(e, b, w));
  }

  // ---------- supplied objects ----------

  /** Stored objects among the supplied values exist, and have the linked type where
      the accessor does not check it. */
  ghost predicate Live(e: Env, s: Store, base: Base, inList: bool, v: Value)
    decreases v
  {
    match v
    case Managed(type_, row) =>
      base.Object? ==>
        if type_ == base.target then type_ in s && row < |s[type_]| else inList
    case Obj(fields, _) =>
      base.Object? && base.target in e.schema ==>
        forall i :: 0 <= i < |fields| && i < |e.schema[base.target].props| && fields[i].Some? ==>
          Live(e, s, e.schema[base.target].props[i].base, e.schema[base.target].props[i].list, fields[i].value)
    case Items(items) => forall i :: 0 <= i < |items| ==> Live(e, s, base, true, items[i])
    case _ => true
  }

  lemma {:induction false} LiveLater(e: Env, s: Store, s': Store, base: Base, inList: bool, v: Value)
    requires Live(e, s, base, inList, v) && Grows(s, s')
    ensures Live(e, s', base, inList, v)
    decreases v
  {
    match v
    case Obj(fields, _) =>
      if base.Object? && base.target in e.schema {
        var props := e.schema[base.target].props;
        forall i | 0 <= i < |fields| && i < |props| && fields[i].Some?
          ensures Live(e, s', props[i].base, props[i].list, fields[i].value)
        {
          LiveLater(e, s, s', props[i].base, props[i].list, fields[i].value);
        }
      }
    case Items(items) =>
      forall i | 0 <= i < |items| ensures Live(e, s', base, true, items[i]) {
        LiveLater(e, s, s', base, true, items[i]);
      }
    case _ =>
  }

  lemma {:induction false} LiveInPlace(e: Env, s: Store, base: Base, v: Value)
    requires Live(e, s, base, false, v)
    ensures !Misplaced(base, v)
  {
  }

  // ---------- every operation makes lawful writes only ----------

  lemma {:induction false} NewRowLawful(e: Env, sc: Scope, s: Store, t: string, key: Cell)
    requires t in sc.types
    requires SchemaOk(e) && Shaped(e, s) && t in e.schema && e.schema[t].primary.Some?
    requires CellOk(s, e.schema[t].props[e.schema[t].primary.value], key)
    requires FindFirst(s[t], e.schema[t].primary.value, key).None?
    ensures Lawful(e, sc, s, Append(t, InitialRow(e.schema[t].props)[e.schema[t].primary.value := key]))
  {
  }

  lemma {:induction false} PlainRowLawful(e: Env, sc: Scope, s: Store, t: string)
    requires t in sc.types
    requires SchemaOk(e) && Shaped(e, s) && t in e.schema && (e.schema[t].primary.None? || e.migrating)
    ensures Lawful(e, sc, s, Append(t, InitialRow(e.schema[t].props)))
  {
  }

  lemma {:induction false} CreateLawful(e: Env, sc: Scope, st: State, t: string, v: Value, update: bool, diff: bool, current: Option<nat>)
    requires Closed(e, sc) && t in sc.types
    requires SchemaOk(e) && Shaped(e, st.store) && t in e.schema && Live(e, st.store, Object(t), false, v)
    ensures Follows(e, sc, st, Create(e, st, t, v, update, diff, current).state)
    decreases Depth(v), 2, 0
  {
    hide Follows, Do, Lawful, Apply, InitialRow, Populate;
    Stays(e, sc, st);
    var props, primary, rows := e.schema[t].props, e.schema[t].primary, st.store[t];
    match primary
    case Some(col) =>
      if v.Obj? && KeyValue(props[col], v, col).Some? {
        match FindKey(rows, props[col], col, KeyValue(props[col], v, col).value)
        case NotFound(_) =>
        case Found(None, key) =>
          NewRowLawful(e, sc, st.store, t, key);
          NewThenPopulate(e, sc, st, t, InitialRow(props)[col := key], v, true, update, diff);
        case Found(Some(row), _) =>
          if update {
            PopulateLawful(e, sc, st, t, row, v, 0, false, true, update, diff);
          } else if e.migrating {
            PlainRowLawful(e, sc, st.store, t);
            NewThenPopulate(e, sc, st, t, InitialRow(props), v, false, update, diff);
          }
      }
    case None =>
      if diff && current.Some? && current.value < |rows| {
        PopulateLawful(e, sc, st, t, current.value, v, 0, false, true, update, diff);
      } else {
        PlainRowLawful(e, sc, st.store, t);
        NewThenPopulate(e, sc, st, t, InitialRow(props), v, true, update, diff);
      }
  }

  lemma {:induction false} Appended(e: Env, st: State, t: string, row: Row)
    requires SchemaOk(e) && Shaped(e, st.store) && Fits(e, st.store, Append(t, row))
    ensures |Do(e, st, Append(t, row)).store[t]| == |st.store[t]| + 1
  {
  }

  lemma {:induction false} NewThenPopulate(e: Env, sc: Scope, st: State, t: string, row: Row, v: Value,
                                           skipPrimary: bool, update: bool, diff: bool)
    requires Closed(e, sc) && t in sc.types
    requires SchemaOk(e) && Shaped(e, st.store) && t in e.schema && Lawful(e, sc, st.store, Append(t, row))
    requires Live(e, st.store, Object(t), false, v) && (skipPrimary || e.migrating)
    ensures |Do(e, st, Append(t, row)).store[t]| == |st.store[t]| + 1
    ensures Follows(e, sc, st, Populate(e, Do(e, st, Append(t, row)), t, |st.store[t]|, v, 0, true, skipPrimary, update, diff).state)
    decreases Depth(v), 1, |e.schema[t].props| + 1
  {
    hide Follows, Do, Lawful, Apply, Populate, Live;
    OneWrite(e, sc, st, Append(t, row));
    LawfulFits(e, sc, st.store, Append(t, row));
    Appended(e, st, t, row);
    var st1 := Do(e, st, Append(t, row));
    LiveLater(e, st.store, st1.store, Object(t), false, v);
    PopulateLawful(e, sc, st1, t, |st.store[t]|, v, 0, true, skipPrimary, update, diff);
    Onwards(e, sc, st, st1, Populate(e, st1, t, |st.store[t]|, v, 0, true, skipPrimary, update, diff).state);
  }

  lemma {:induction false} SuppliedLive(e: Env, s: Store, t: string, v: Value, i: nat, created: bool)
    requires SchemaOk(e) && t in e.schema && i < |e.schema[t].props| && v.Obj?
    requires Live(e, s, Object(t), false, v) && Supplied(e.schema[t], v, i, created).Set?
    ensures Live(e, s, e.schema[t].props[i].base, e.schema[t].props[i].list, Supplied(e.schema[t], v, i, created).value)
  {
  }

  lemma {:induction false} PopulateLawful(e: Env, sc: Scope, st: State, t: string, row: nat, v: Value, i: nat,
                                          created: bool, skipPrimary: bool, update: bool, diff: bool)
    requires Closed(e, sc) && Within(sc, t, row)
    requires SchemaOk(e) && Shaped(e, st.store) && t in e.schema && row < |st.store[t]| && i <= |e.schema[t].props|
    requires Live(e, st.store, Object(t), false, v) && (skipPrimary || e.migrating)
    ensures Follows(e, sc, st, Populate(e, st, t, row, v, i, created, skipPrimary, update, diff).state)
    decreases Depth(v), 1, |e.schema[t].props| - i
  {
    hide Follows, Live, SetProp, Supplied;
    Stays(e, sc, st);
    if i == |e.schema[t].props| {
    } else if skipPrimary && e.schema[t].primary == Some(i) {
      PopulateLawful(e, sc, st, t, row, v, i + 1, created, skipPrimary, update, diff);
    } else if v.Obj? {
      var supplied := Supplied(e.schema[t], v, i, created);
      if supplied.NotSet? {
        PopulateLawful(e, sc, st, t, row, v, i + 1, created, skipPrimary, update, diff);
      } else if supplied.Set? {
        var x := supplied.value;
        FieldSmaller(e.schema[t], v, i, created);
        SuppliedLive(e, st.store, t, v, i, created);
        SetPropLawful(e, sc, st, t, row, i, x, update, diff, supplied.isDefault);
        var r := SetProp(e, st, t, row, i, x, update, diff, supplied.isDefault);
        if r.error.None? {
          LiveLater(e, st.store, r.state.store, Object(t), false, v);
          PopulateLawful(e, sc, r.state, t, row, v, i + 1, created, skipPrimary, update, diff);
          Onwards(e, sc, st, r.state, Populate(e, r.state, t, row, v, i + 1, created, skipPrimary, update, diff).state);
        }
      }
    }
  }

  lemma {:induction false} SetPropLawful(e: Env, sc: Scope, st: State, t: string, row: nat, i: nat, v: Value,
                                         update: bool, diff: bool, isDefault: bool)
    requires Closed(e, sc) && Within(sc, t, row)
    requires SchemaOk(e) && Place(e, st.store, t, row, i) && (e.migrating || e.schema[t].primary != Some(i))
    requires Live(e, st.store, e.schema[t].props[i].base, e.schema[t].props[i].list, v)
    ensures Follows(e, sc, st, SetProp(e, st, t, row, i, v, update, diff, isDefault).state)
    decreases Depth(v), 6, 0
  {
    hide Follows, Live, Do, Apply, Unbox, Assign;
    Stays(e, sc, st);
    var p, cell := e.schema[t].props[i], st.store[t][row][i];
    if p.nullable && v.Null? {
      OneWrite(e, sc, st, Put(t, row, i, Nil));
    } else if p.list {
      AssignLawful(e, sc, st, t, row, i, v, update, diff);
    } else if !p.base.Any? {
      var current := if p.base.Object? then LinkRow(cell) else None;
      UnboxLawful(e, sc, st, p.base, v, update, diff, current, false);
      LiveInPlace(e, st.store, p.base, v);
      var u := Unbox(e, st, p.base, v, update, diff, current);
      if u.error.None? {
        ThenWrite(e, sc, st, u.state, Put(t, row, i, u.cell));
      }
    }
  }

  lemma {:induction false} UnboxLawful(e: Env, sc: Scope, st: State, base: Base, v: Value, update: bool, diff: bool,
                                       current: Option<nat>, inList: bool)
    requires Closed(e, sc) && (base.Object? ==> base.target in sc.types)
    requires SchemaOk(e) && Shaped(e, st.store) && (base.Object? ==> base.target in e.schema)
    requires Live(e, st.store, base, inList, v)
    ensures var u := Unbox(e, st, base, v, update, diff, current);
      Follows(e, sc, st, u.state) && (u.error.None? && !Misplaced(base, v) ==> ElemOk(u.state.store, base, u.cell))
    decreases Depth(v), 3, 0
  {
    hide Follows, Create;
    Stays(e, sc, st);
    if base.Object? && !v.Managed? {
      assert Live(e, st.store, base, false, v);
      CreateLawful(e, sc, st, base.target, v, update, diff, current);
    }
  }

  lemma {:induction false} AssignLawful(e: Env, sc: Scope, st: State, t: string, row: nat, i: nat, v: Value, update: bool, diff: bool)
    requires Closed(e, sc) && Within(sc, t, row)
    requires SchemaOk(e) && Place(e, st.store, t, row, i) && e.schema[t].props[i].list
    requires Live(e, st.store, e.schema[t].props[i].base, true, v)
    ensures Follows(e, sc, st, Assign(e, st, t, row, i, v, update, diff).state)
    decreases Depth(v), 5, 0
  {
    hide Follows, Live, Do, Apply, AssignFrom;
    Stays(e, sc, st);
    OneWrite(e, sc, st, Edit(t, row, i, Clear));
    var start := if diff then st else Do(e, st, Edit(t, row, i, Clear));
    if v.Items? {
      LiveLater(e, st.store, start.store, e.schema[t].props[i].base, true, v);
      var size := if diff then |Elems(st.store[t][row][i])| else 0;
      AssignFromLawful(e, sc, start, t, row, i, v, 0, size, update, diff);
      Onwards(e, sc, st, start, AssignFrom(e, start, t, row, i, v, 0, size, update, diff).state);
    }
  }

  lemma {:induction false} AssignFromLawful(e: Env, sc: Scope, st: State, t: string, row: nat, i: nat, v: Value, k: nat, size: nat,
                                            update: bool, diff: bool)
    requires Closed(e, sc) && Within(sc, t, row)
    requires SchemaOk(e) && Place(e, st.store, t, row, i) && e.schema[t].props[i].list && v.Items? && k <= |v.items|
    requires Live(e, st.store, e.schema[t].props[i].base, true, v)
    ensures Follows(e, sc, st, AssignFrom(e, st, t, row, i, v, k, size, update, diff).state)
    decreases Depth(v), 4, |v.items| - k
  {
    hide Follows, Live, SetElement, AddElement, Trim;
    Stays(e, sc, st);
    if k == |v.items| {
      if diff && k < size {
        TrimLawful(e, sc, st, t, row, i, k, size - k);
      }
    } else {
      ElementLawful(e, sc, st, t, row, i, v, k, update);
      var r := if k < size then SetElement(e, st, t, row, i, v, k, update) else AddElement(e, st, t, row, i, v, k, update);
      if r.error.None? {
        LiveLater(e, st.store, r.state.store, e.schema[t].props[i].base, true, v);
        AssignFromLawful(e, sc, r.state, t, row, i, v, k + 1, size, update, diff);
        Onwards(e, sc, st, r.state, AssignFrom(e, r.state, t, row, i, v, k + 1, size, update, diff).state);
      }
    }
  }

  lemma {:induction false} ElementLawful(e: Env, sc: Scope, st: State, t: string, row: nat, i: nat, v: Value, k: nat, update: bool)
    requires Closed(e, sc) && Within(sc, t, row)
    requires SchemaOk(e) && Place(e, st.store, t, row, i) && e.schema[t].props[i].list && v.Items? && k < |v.items|
    requires Live(e, st.store, e.schema[t].props[i].base, true, v)
    ensures Follows(e, sc, st, SetElement(e, st, t, row, i, v, k, update).state)
    ensures Follows(e, sc, st, AddElement(e, st, t, row, i, v, k, update).state)
    decreases Depth(v), 4, 0
  {
    hide Follows, Do, Apply, Unbox;
    Stays(e, sc, st);
    var base, cells := e.schema[t].props[i].base, Elems(st.store[t][row][i]);
    ItemSmaller(v, k);
    UnboxLawful(e, sc, st, base, v.items[k], update, false, None, true);
    var u := Unbox(e, st, base, v.items[k], update, false, None);
    if u.error.None? && !Misplaced(base, v.items[k]) {
      ThenWrite(e, sc, st, u.state, Edit(t, row, i, Push(u.cell)));
    }
    if k < |cells| {
      UnboxLawful(e, sc, st, base, v.items[k], update, true, LinkRow(cells[k]), true);
      var w := Unbox(e, st, base, v.items[k], update, true, LinkRow(cells[k]));
      if w.error.None? && !Misplaced(base, v.items[k]) {
        ThenWrite(e, sc, st, w.state, Edit(t, row, i, SetAt(k, w.cell)));
      }
    }
  }

  lemma {:induction false} TrimLawful(e: Env, sc: Scope, st: State, t: string, row: nat, i: nat, k: nat, n: nat)
    requires Within(sc, t, row)
    requires SchemaOk(e) && Place(e, st.store, t, row, i) && e.schema[t].props[i].list
    ensures Follows(e, sc, st, Trim(e, st, t, row, i, k, n).state)
    decreases n
  {
    hide Follows, Do, Apply;
    Stays(e, sc, st);
    if n > 0 && k < |Elems(st.store[t][row][i])| {
      OneWrite(e, sc, st, Edit(t, row, i, RemoveAt(k)));
      var st1 := Do(e, st, Edit(t, row, i, RemoveAt(k)));
      TrimLawful(e, sc, st1, t, row, i, k, n - 1);
      Onwards(e, sc, st, st1, Trim(e, st1, t, row, i, k, n - 1).state);
    }
  }
}
