/** Nested objects that carry the key of an object they are supplied with: the last
    value supplied wins, wherever it is nested. */
module RecordEchoes {
  import opened Common
  import opened Records
  import opened RecordLaws
  import opened RecordRuns
  import opened RecordWrites
  import opened RecordDiffs
  import opened RecordNesting

  /** A plain property of the object of a type with a key, in a row. */
  datatype Spot = Spot(type_: string, row: nat, prop: nat, key: Cell, diff: bool)

  /** The object is the one at the spot. */
  predicate Mine(e: Env, q: Spot, u: string, v: Value)
    requires u in e.schema
  {
    v.Obj? && u == q.type_ && KeyCell(e.schema[u], v) == Some(q.key)
  }

  /** The cell at the spot after the value has been written, read off the value alone:
      objects in their order, those nested in a property before the property itself. */
  function LastIn(e: Env, q: Spot, base: Base, inList: bool, v: Value, c: Cell): Cell
    decreases v, 1
  {
    match v
    case Obj(_, _) => if base.Object? && base.target in e.schema then LastObject(e, q, base.target, v, 0, false, c) else c
    case Items(items) => if inList then LastItems(e, q, base, v, 0, c) else c
    case _ => c
  }

  function LastItems(e: Env, q: Spot, base: Base, v: Value, k: nat, c: Cell): Cell
    requires v.Items? && k <= |v.items|
    decreases v, 0, |v.items| - k
  {
    if k == |v.items| then c else LastItems(e, q, base, v, k + 1, LastIn(e, q, base, false, v.items[k], c))
  }

  function LastObject(e: Env, q: Spot, u: string, v: Value, j: nat, created: bool, c: Cell): Cell
    requires v.Obj? && u in e.schema && j <= |e.schema[u].props|
    decreases v, 0, |e.schema[u].props| - j
  {
    var o := e.schema[u];
    if j == |o.props| then c
    else if o.primary == Some(j) then LastObject(e, q, u, v, j + 1, created, c)
    else
      var nested := match Field(v, j) case Some(x) => LastIn(e, q, o.props[j].base, o.props[j].list, x, c) case None => c;
      LastObject(e, q, u, v, j + 1, created, LastOwn(e, q, u, v, j, created, nested))
  }

  /** The property itself. */
  function LastOwn(e: Env, q: Spot, u: string, v: Value, j: nat, created: bool, c: Cell): Cell
    requires v.Obj? && u in e.schema && j < |e.schema[u].props|
  {
    var p, supplied := e.schema[u].props[j], Supplied(e.schema[u], v, j, created);
    if Mine(e, q, u, v) && j == q.prop && supplied.Set? && p.base.Plain?
    then Written(e, p, ListOf(q.type_, q.row, q.prop), c, supplied.value, false).cell
    else c
  }

  // ---------- what the reading does not depend on ----------

  lemma {:induction false} NotLinked(e: Env, q: Spot, base: Base, inList: bool, v: Value, c: Cell)
    requires !base.Object?
    ensures LastIn(e, q, base, inList, v, c) == c
  {
    if v.Items? && inList {
      NotLinkedItems(e, q, base, v, 0, c);
    }
  }

  lemma {:induction false} NotLinkedItems(e: Env, q: Spot, base: Base, v: Value, k: nat, c: Cell)
    requires !base.Object? && v.Items? && k <= |v.items|
    ensures LastItems(e, q, base, v, k, c) == c
    decreases |v.items| - k
  {
    if k < |v.items| {
      NotLinkedItems(e, q, base, v, k + 1, c);
    }
  }

  /** Whether an object is new matters only for the one at the spot. */
  lemma {:induction false} OthersNew(e: Env, q: Spot, u: string, v: Value, j: nat, created: bool, c: Cell)
    requires v.Obj? && u in e.schema && j <= |e.schema[u].props| && !Mine(e, q, u, v)
    ensures LastObject(e, q, u, v, j, created, c) == LastObject(e, q, u, v, j, false, c)
    decreases |e.schema[u].props| - j
  {
    hide LastIn, Mine;
    if j < |e.schema[u].props| {
      var o := e.schema[u];
      var nested := match Field(v, j) case Some(x) => LastIn(e, q, o.props[j].base, o.props[j].list, x, c) case None => c;
      OthersNew(e, q, u, v, j + 1, created, if o.primary == Some(j) then c else nested);
    }
  }

  // ---------- the writes ----------

  /** The store is sound, and the spot is there. */
  ghost predicate Sound(e: Env, s: Store, q: Spot) {
    && SchemaOk(e) && Typed(e, s) && Shaped(e, s) && UniqueKeys(e, s) && !e.migrating
    && q.type_ in e.schema && e.schema[q.type_].primary.Some? && q.row < |s[q.type_]| && KeyAt(e, s, q.type_, q.row) == q.key
    && q.prop < |e.schema[q.type_].props| && q.prop < |s[q.type_][q.row]| && e.schema[q.type_].primary != Some(q.prop)
    && e.schema[q.type_].props[q.prop].base.Plain?
  }

  ghost function AtSpot(e: Env, s: Store, q: Spot): Cell
    requires Sound(e, s, q)
  {
    s[q.type_][q.row][q.prop]
  }

  lemma {:induction false} SoundFacts(e: Env, s: Store, q: Spot)
    requires Sound(e, s, q)
    ensures SchemaOk(e) && Typed(e, s) && Shaped(e, s) && UniqueKeys(e, s) && !e.migrating && q.type_ in e.schema && q.row < |s[q.type_]|
    ensures q.prop < |e.schema[q.type_].props| && e.schema[q.type_].props[q.prop].base.Plain?
    ensures e.schema[q.type_].primary != Some(q.prop) && e.schema[q.type_].primary.Some?
  {
  }

  lemma {:induction false} SoundLater(e: Env, a: State, b: State, q: Spot)
    requires Sound(e, a.store, q) && Follows(e, Everywhere(e), a, b)
    ensures Sound(e, b.store, q)
  {
    hide Typed, UniqueKeys, Follows;
    FollowsKeep(e, Everywhere(e), a, b);
    TypedShaped(e, b.store);
    TableFacts(e, b.store, q.type_);
    assert KeyAt(e, b.store, q.type_, q.row) == KeyAt(e, a.store, q.type_, q.row);
  }

  /** A write elsewhere. */
  lemma {:induction false} ElseWhere(e: Env, st: State, w: Write, q: Spot)
    requires Sound(e, st.store, q) && Fits(e, st.store, w) && Sound(e, Do(e, st, w).store, q)
    requires w.Put? ==> w.type_ != q.type_ || w.row != q.row || w.prop != q.prop
    requires w.Edit? ==> w.type_ != q.type_ || w.row != q.row || w.prop != q.prop
    ensures AtSpot(e, Do(e, st, w).store, q) == AtSpot(e, st.store, q)
  {
    hide Typed, UniqueKeys, SchemaOk;
  }

  /** A row of the type has the key exactly if it is the one at the spot. */
  lemma {:induction false} OnlySpot(e: Env, s: Store, q: Spot, row: nat)
    requires Sound(e, s, q) && row < |s[q.type_]|
    ensures KeyAt(e, s, q.type_, row) == q.key <==> row == q.row
  {
    hide Typed;
    OnlyKey(e, s, q.type_, q.row);
  }

  /** The row belongs to the object: it has its key, and so is the spot's if the
      object is. */
  ghost predicate Own(e: Env, q: Spot, u: string, row: nat, v: Value) {
    u in e.schema && (v.Obj? ==> (Mine(e, q, u, v) <==> u == q.type_ && row == q.row))
  }

  /** The same cell; in differential mode, a null may be left where the value is that a
      null reads as. */
  predicate Near(e: Env, q: Spot, a: Cell, b: Cell) {
    a == b ||
    (q.diff && q.type_ in e.schema && q.prop < |e.schema[q.type_].props| &&
     var p := e.schema[q.type_].props[q.prop];
     !p.list && p.base.Plain? && a.Nil? && EmptyRead(e, p.base.kind).Some? && b == One(EmptyRead(e, p.base.kind).value))
  }

  lemma {:induction false} NearWritten(e: Env, q: Spot, here: Value, a: Cell, b: Cell, x: Value, diff: bool, written: bool)
    requires q.type_ in e.schema && q.prop < |e.schema[q.type_].props| && e.schema[q.type_].props[q.prop].base.Plain?
    requires Near(e, q, a, b) && (diff ==> q.diff) && (written ==> ListWhereDue(e.schema[q.type_].props[q.prop], a))
    ensures var p := e.schema[q.type_].props[q.prop];
      written && Written(e, p, here, a, x, diff).error.None? ==>
        Near(e, q, Written(e, p, here, a, x, diff).cell, Written(e, p, here, b, x, false).cell)
  {
  }

  lemma {:induction false} EchoCreate(e: Env, st: State, u: string, v: Value, update: bool, diff: bool,
                                      current: Option<nat>, q: Spot, c: Cell)
    requires Sound(e, st.store, q) && u in e.schema && Live(e, st.store, Object(u), false, v) && !v.Managed?
    requires (diff ==> q.diff) && Near(e, q, AtSpot(e, st.store, q), c)
    requires Create(e, st, u, v, update, diff, current).error.None?
    ensures var s := Create(e, st, u, v, update, diff, current).state.store;
      Sound(e, s, q) && Near(e, q, AtSpot(e, s, q), LastIn(e, q, Object(u), false, v, c))
    decreases Depth(v), 2, 0
  {
    hide Sound, Typed, UniqueKeys, SchemaOk, Live, Populate, KeyCell, KeyValue, InitialRow, Do, AtSpot, Mine, Own;
    SoundFacts(e, st.store, q);
    TableFacts(e, st.store, u);
    var props, primary, rows := e.schema[u].props, e.schema[u].primary, st.store[u];
    match primary
    case Some(col) =>
      FoundKey(rows, props[col], col, e.schema[u], v);
      var found := FindKey(rows, props[col], col, KeyValue(props[col], v, col).value);
      if found.row.None? {
        NewNotMine(e, st.store, u, v, col, found.key, q);
        NewRowLawful(e, Everywhere(e), st.store, u, found.key);
        EchoNew(e, st, u, InitialRow(props)[col := found.key], v, update, diff, q, c);
      } else {
        FoundMine(e, st.store, u, v, found.row.value, q);
        EchoPopulate(e, st, u, found.row.value, v, 0, false, update, diff, q, c);
        NoObject(e, q, u, v, c);
      }
    case None =>
      KeylessNotMine(e, st.store, u, v, q);
      if diff && current.Some? && current.value < |rows| {
        OldOwn(e, st.store, q, u, current.value, v);
        EchoPopulate(e, st, u, current.value, v, 0, false, update, diff, q, c);
        NoObject(e, q, u, v, c);
      } else {
        PlainRowLawful(e, Everywhere(e), st.store, u);
        EchoNew(e, st, u, InitialRow(props), v, update, diff, q, c);
      }
  }

  lemma {:induction false} NoObject(e: Env, q: Spot, u: string, v: Value, c: Cell)
    requires u in e.schema
    ensures LastIn(e, q, Object(u), false, v, c) == if v.Obj? then LastObject(e, q, u, v, 0, false, c) else c
  {
  }

  lemma {:induction false} NewNotMine(e: Env, s: Store, u: string, v: Value, col: nat, key: Cell, q: Spot)
    requires Sound(e, s, q) && u in e.schema && v.Obj? && e.schema[u].primary == Some(col) && KeyCell(e.schema[u], v) == Some(key)
    requires RowsShaped(s[u], |e.schema[u].props|) && col < |e.schema[u].props|
    requires FindFirst(s[u], col, key).None?
    ensures !Mine(e, q, u, v)
  {
    hide Typed, UniqueKeys, KeyCell;
    if u == q.type_ {
      assert KeyAt(e, s, u, q.row) == s[u][q.row][col];
    }
  }

  lemma {:induction false} FoundMine(e: Env, s: Store, u: string, v: Value, row: nat, q: Spot)
    requires Sound(e, s, q) && u in e.schema && v.Obj? && e.schema[u].primary.Some? && row < |s[u]|
    requires e.schema[u].primary.value < |s[u][row]| && KeyCell(e.schema[u], v) == Some(s[u][row][e.schema[u].primary.value])
    ensures Own(e, q, u, row, v)
  {
    hide Typed, UniqueKeys, KeyCell;
    if u == q.type_ {
      OnlySpot(e, s, q, row);
    }
  }

  lemma {:induction false} KeylessNotMine(e: Env, s: Store, u: string, v: Value, q: Spot)
    requires Sound(e, s, q) && u in e.schema && e.schema[u].primary.None?
    ensures !Mine(e, q, u, v)
  {
  }

  lemma {:induction false} EchoNew(e: Env, st: State, u: string, cells: Row, v: Value, update: bool, diff: bool,
                                   q: Spot, c: Cell)
    requires Sound(e, st.store, q) && u in e.schema && Live(e, st.store, Object(u), false, v) && !Mine(e, q, u, v)
    requires (diff ==> q.diff) && Near(e, q, AtSpot(e, st.store, q), c)
    requires |cells| == |e.schema[u].props| && SchemaOk(e) && Shaped(e, st.store)
    requires Lawful(e, Everywhere(e), st.store, Append(u, cells))
    ensures |Do(e, st, Append(u, cells)).store[u]| == |st.store[u]| + 1
    ensures var r := Populate(e, Do(e, st, Append(u, cells)), u, |st.store[u]|, v, 0, true, true, update, diff);
      r.error.None? ==>
        Sound(e, r.state.store, q) && Near(e, q, AtSpot(e, r.state.store, q), LastIn(e, q, Object(u), false, v, c))
    decreases Depth(v), 1, |e.schema[u].props| + 1
  {
    hide Sound, Typed, UniqueKeys, SchemaOk, Live, Populate, Do, AtSpot, Mine, Own, Lawful, Follows, Fits;
    SoundFacts(e, st.store, q);
    var w := Append(u, cells);
    LawfulFits(e, Everywhere(e), st.store, w);
    AppendedLength(e, st, u, cells);
    OneWrite(e, Everywhere(e), st, w);
    var st1 := Do(e, st, w);
    SoundLater(e, st, st1, q);
    ElseWhere(e, st, w, q);
    LiveLater(e, st.store, st1.store, Object(u), false, v);
    NewOwn(e, st.store, q, u, v);
    NoObject(e, q, u, v, c);
    if v.Obj? {
      OthersNew(e, q, u, v, 0, true, c);
    }
    if Populate(e, st1, u, |st.store[u]|, v, 0, true, true, update, diff).error.None? {
      EchoPopulate(e, st1, u, |st.store[u]|, v, 0, true, update, diff, q, c);
    }
  }

  lemma {:induction false} NewOwn(e: Env, s: Store, q: Spot, u: string, v: Value)
    requires Sound(e, s, q) && u in e.schema && !Mine(e, q, u, v)
    ensures Own(e, q, u, |s[u]|, v)
  {
  }

  lemma {:induction false} OldOwn(e: Env, s: Store, q: Spot, u: string, row: nat, v: Value)
    requires Sound(e, s, q) && u in e.schema && e.schema[u].primary.None?
    ensures Own(e, q, u, row, v)
  {
  }

  lemma {:induction false} EchoPopulate(e: Env, st: State, u: string, row: nat, v: Value, i: nat, created: bool,
                                        update: bool, diff: bool, q: Spot, c: Cell)
    requires Sound(e, st.store, q) && u in e.schema && row < |st.store[u]| && i <= |e.schema[u].props| && Own(e, q, u, row, v)
    requires (diff ==> q.diff) && Near(e, q, AtSpot(e, st.store, q), c)
    requires Live(e, st.store, Object(u), false, v)
    requires Populate(e, st, u, row, v, i, created, true, update, diff).error.None?
    ensures var s := Populate(e, st, u, row, v, i, created, true, update, diff).state.store;
      Sound(e, s, q) &&
      Near(e, q, AtSpot(e, s, q), if v.Obj? then LastObject(e, q, u, v, i, created, c) else c)
    decreases Depth(v), 1, |e.schema[u].props| - i
  {
    hide Sound, Typed, UniqueKeys, SchemaOk, Live, SetProp, AtSpot, Mine, Own, LastIn, LastObject, Supplied, Written, Near, AfterProp;
    SoundFacts(e, st.store, q);
    if i < |e.schema[u].props| {
      var supplied := if v.Obj? then Supplied(e.schema[u], v, i, created) else NotSet;
      if e.schema[u].primary == Some(i) {
        LastSkip(e, q, u, v, i, created, c);
        EchoPopulate(e, st, u, row, v, i + 1, created, update, diff, q, c);
      } else if supplied.NotSet? {
        LastSkip(e, q, u, v, i, created, c);
        EchoPopulate(e, st, u, row, v, i + 1, created, update, diff, q, c);
      } else {
        DefaultFlat(e, u, i);
        FieldSmaller(e.schema[u], v, i, created);
        SuppliedLive(e, st.store, u, v, i, created);
        EchoSetProp(e, st, u, row, i, supplied.value, update, diff, supplied.isDefault, q, c);
        SameRead(e, q, u, row, v, i, created, c);
        var next := SetProp(e, st, u, row, i, supplied.value, update, diff, supplied.isDefault);
        LiveLater(e, st.store, next.state.store, Object(u), false, v);
        EchoPopulate(e, next.state, u, row, v, i + 1, created, update, diff, q, AfterProp(e, q, u, row, i, supplied.value, c));
      }
    } else {
      LastSkip(e, q, u, v, i, created, c);
    }
  }

  /** Nothing to read of the key, of what is not supplied, and past the last property. */
  lemma {:induction false} LastSkip(e: Env, q: Spot, u: string, v: Value, i: nat, created: bool, c: Cell)
    requires u in e.schema && i <= |e.schema[u].props|
    ensures v.Obj? && i == |e.schema[u].props| ==> LastObject(e, q, u, v, i, created, c) == c
    ensures v.Obj? && i < |e.schema[u].props| && (e.schema[u].primary == Some(i) || Supplied(e.schema[u], v, i, created).NotSet?) ==>
      LastObject(e, q, u, v, i, created, c) == LastObject(e, q, u, v, i + 1, created, c)
  {
    hide LastIn, Written;
    if v.Obj? && i < |e.schema[u].props| && Supplied(e.schema[u], v, i, created).NotSet? {
      NotSetNothing(e.schema[u], v, i, created);
    }
  }

  lemma {:induction false} NotSetNothing(o: ObjectSchema, v: Value, i: nat, created: bool)
    requires v.Obj? && i < |o.props| && Supplied(o, v, i, created).NotSet?
    ensures Field(v, i).None?
  {
  }

  /** The cell after one property: nested objects first, then the property's own write. */
  function AfterProp(e: Env, q: Spot, u: string, row: nat, i: nat, x: Value, c: Cell): Cell
    requires u in e.schema && i < |e.schema[u].props|
  {
    var p := e.schema[u].props[i];
    var nested := LastIn(e, q, p.base, p.list, x, c);
    if u == q.type_ && row == q.row && i == q.prop && p.base.Plain?
    then Written(e, p, ListOf(q.type_, q.row, q.prop), nested, x, false).cell else nested
  }

  lemma {:induction false} SameRead(e: Env, q: Spot, u: string, row: nat, v: Value, i: nat, created: bool, c: Cell)
    requires u in e.schema && v.Obj? && i < |e.schema[u].props| && Own(e, q, u, row, v) && e.schema[u].primary != Some(i)
    requires Supplied(e.schema[u], v, i, created).Set?
    requires e.schema[u].props[i].default.Some? ==> Flat(e.schema[u].props[i].default.value)
    ensures LastObject(e, q, u, v, i, created, c) ==
      LastObject(e, q, u, v, i + 1, created, AfterProp(e, q, u, row, i, Supplied(e.schema[u], v, i, created).value, c))
  {
    hide Written, LastObject;
    var p := e.schema[u].props[i];
    LastStep(e, q, u, v, i, created, c);
    if Field(v, i).None? {
      FlatRead(e, q, p.base, p.list, p.default.value, c);
    }
  }

  lemma {:induction false} LastStep(e: Env, q: Spot, u: string, v: Value, j: nat, created: bool, c: Cell)
    requires u in e.schema && v.Obj? && j < |e.schema[u].props| && e.schema[u].primary != Some(j)
    ensures var p := e.schema[u].props[j];
      var nested := match Field(v, j) case Some(x) => LastIn(e, q, p.base, p.list, x, c) case None => c;
      LastObject(e, q, u, v, j, created, c) == LastObject(e, q, u, v, j + 1, created, LastOwn(e, q, u, v, j, created, nested))
  {
  }

  lemma {:induction false} FlatRead(e: Env, q: Spot, base: Base, inList: bool, v: Value, c: Cell)
    requires Flat(v)
    ensures LastIn(e, q, base, inList, v, c) == c
  {
    if v.Items? && inList {
      FlatReadItems(e, q, base, v, 0, c);
    }
  }

  lemma {:induction false} FlatReadItems(e: Env, q: Spot, base: Base, v: Value, k: nat, c: Cell)
    requires v.Items? && k <= |v.items| && forall j :: 0 <= j < |v.items| ==> v.items[j].Val?
    ensures LastItems(e, q, base, v, k, c) == c
    decreases |v.items| - k
  {
    if k < |v.items| {
      FlatReadItems(e, q, base, v, k + 1, c);
    }
  }

  lemma {:induction false} EchoSetProp(e: Env, st: State, u: string, row: nat, i: nat, x: Value, update: bool, diff: bool,
                                       isDefault: bool, q: Spot, c: Cell)
    requires Sound(e, st.store, q) && Place(e, st.store, u, row, i) && SchemaOk(e) && e.schema[u].primary != Some(i)
    requires (diff ==> q.diff) && Near(e, q, AtSpot(e, st.store, q), c)
    requires Live(e, st.store, e.schema[u].props[i].base, e.schema[u].props[i].list, x)
    requires SetProp(e, st, u, row, i, x, update, diff, isDefault).error.None?
    ensures var s := SetProp(e, st, u, row, i, x, update, diff, isDefault).state.store;
      Sound(e, s, q) && Near(e, q, AtSpot(e, s, q), AfterProp(e, q, u, row, i, x, c))
    decreases Depth(x), 6, 0
  {
    hide Sound, Typed, UniqueKeys, SchemaOk, Live, SetProp, AtSpot, LastIn, Written, Place, AfterProp, Near;
    SoundFacts(e, st.store, q);
    PlaceFacts(e, st.store, u, row, i);
    DefaultFlat(e, u, i);
    SetPropSound(e, st, u, row, i, x, update, diff, isDefault, q);
    if e.schema[u].props[i].base.Plain? {
      EchoPlain(e, st, u, row, i, x, update, diff, isDefault, q, c);
    } else {
      NotPlainSpot(e, st.store, u, row, i, q);
      LinkProp(e, q, u, row, i, x, c);
      if e.schema[u].props[i].list {
        ListSet(e, st, u, row, i, x, update, diff, isDefault);
        EchoAssign(e, st, u, row, i, x, update, diff, q, c);
      } else {
        EchoLink(e, st, u, row, i, x, update, diff, isDefault, q, c);
      }
    }
  }

  lemma {:induction false} LinkProp(e: Env, q: Spot, u: string, row: nat, i: nat, x: Value, c: Cell)
    requires u in e.schema && i < |e.schema[u].props| && !e.schema[u].props[i].base.Plain?
    ensures AfterProp(e, q, u, row, i, x, c) == LastIn(e, q, e.schema[u].props[i].base, e.schema[u].props[i].list, x, c)
  {
    hide LastIn, Written;
  }

  lemma {:induction false} EchoPlain(e: Env, st: State, u: string, row: nat, i: nat, x: Value, update: bool, diff: bool,
                                     isDefault: bool, q: Spot, c: Cell)
    requires Sound(e, st.store, q) && Place(e, st.store, u, row, i) && SchemaOk(e) && e.schema[u].props[i].base.Plain?
    requires (diff ==> q.diff) && Near(e, q, AtSpot(e, st.store, q), c)
    requires SetProp(e, st, u, row, i, x, update, diff, isDefault).error.None?
    requires Sound(e, SetProp(e, st, u, row, i, x, update, diff, isDefault).state.store, q)
    ensures Near(e, q, AtSpot(e, SetProp(e, st, u, row, i, x, update, diff, isDefault).state.store, q),
                 AfterProp(e, q, u, row, i, x, c))
  {
    hide Sound, Typed, UniqueKeys, SchemaOk, SetProp, AtSpot, LastIn, Written, Place;
    SoundFacts(e, st.store, q);
    PlaceFacts(e, st.store, u, row, i);
    CellOf(e, st.store, u, row, i);
    PlainSet(e, st, u, row, i, x, update, diff, isDefault, q);
    NearWritten(e, q, ListOf(u, row, i), AtSpot(e, st.store, q), c, x, diff, u == q.type_ && row == q.row && i == q.prop);
    NotLinked(e, q, e.schema[u].props[i].base, e.schema[u].props[i].list, x, c);
  }

  lemma {:induction false} NotPlainSpot(e: Env, s: Store, u: string, row: nat, i: nat, q: Spot)
    requires Sound(e, s, q) && u in e.schema && i < |e.schema[u].props| && !e.schema[u].props[i].base.Plain?
    ensures u != q.type_ || i != q.prop
  {
  }

  lemma {:induction false} ListSet(e: Env, st: State, u: string, row: nat, i: nat, x: Value, update: bool, diff: bool, isDefault: bool)
    requires SchemaOk(e) && Place(e, st.store, u, row, i) && e.schema[u].props[i].list
    ensures SetProp(e, st, u, row, i, x, update, diff, isDefault) == Assign(e, st, u, row, i, x, update, diff)
  {
    hide Assign;
    DefaultFlat(e, u, i);
  }

  lemma {:induction false} SetPropSound(e: Env, st: State, u: string, row: nat, i: nat, x: Value, update: bool, diff: bool,
                                        isDefault: bool, q: Spot)
    requires Sound(e, st.store, q) && Place(e, st.store, u, row, i) && SchemaOk(e) && e.schema[u].primary != Some(i)
    requires Live(e, st.store, e.schema[u].props[i].base, e.schema[u].props[i].list, x)
    ensures Sound(e, SetProp(e, st, u, row, i, x, update, diff, isDefault).state.store, q)
  {
    hide Sound, Typed, UniqueKeys, SchemaOk, Live, SetProp, Follows;
    SoundFacts(e, st.store, q);
    EverywhereClosed(e);
    SetPropLawful(e, Everywhere(e), st, u, row, i, x, update, diff, isDefault);
    SoundLater(e, st, SetProp(e, st, u, row, i, x, update, diff, isDefault).state, q);
  }

  lemma {:induction false} PlainSet(e: Env, st: State, u: string, row: nat, i: nat, x: Value, update: bool, diff: bool,
                                    isDefault: bool, q: Spot)
    requires Sound(e, st.store, q) && Place(e, st.store, u, row, i) && SchemaOk(e) && e.schema[u].props[i].base.Plain?
    requires CellOk(st.store, e.schema[u].props[i], st.store[u][row][i])
    requires Sound(e, SetProp(e, st, u, row, i, x, update, diff, isDefault).state.store, q)
    ensures AtSpot(e, SetProp(e, st, u, row, i, x, update, diff, isDefault).state.store, q) ==
      if u == q.type_ && row == q.row && i == q.prop
      then Written(e, e.schema[u].props[i], ListOf(u, row, i), AtSpot(e, st.store, q), x, diff).cell else AtSpot(e, st.store, q)
    ensures u == q.type_ && row == q.row && i == q.prop ==>
      AtSpot(e, st.store, q) == st.store[u][row][i] && ListWhereDue(e.schema[u].props[i], AtSpot(e, st.store, q))
    ensures SetProp(e, st, u, row, i, x, update, diff, isDefault).error ==
      Written(e, e.schema[u].props[i], ListOf(u, row, i), st.store[u][row][i], x, diff).error
  {
    hide Typed, UniqueKeys, SchemaOk, SetProp, Written;
    SetPropResult(e, st, u, row, i, x, update, diff, isDefault);
  }

  lemma {:induction false} EchoLink(e: Env, st: State, u: string, row: nat, i: nat, x: Value, update: bool, diff: bool,
                                    isDefault: bool, q: Spot, c: Cell)
    requires Sound(e, st.store, q) && Place(e, st.store, u, row, i) && SchemaOk(e) && e.schema[u].primary != Some(i)
    requires (diff ==> q.diff) && Near(e, q, AtSpot(e, st.store, q), c)
    requires Live(e, st.store, e.schema[u].props[i].base, false, x) && PropertyOk(e, e.schema[u].props[i])
    requires !e.schema[u].props[i].list && !e.schema[u].props[i].base.Plain? && (u != q.type_ || i != q.prop)
    requires SetProp(e, st, u, row, i, x, update, diff, isDefault).error.None?
    requires Sound(e, SetProp(e, st, u, row, i, x, update, diff, isDefault).state.store, q)
    ensures Near(e, q, AtSpot(e, SetProp(e, st, u, row, i, x, update, diff, isDefault).state.store, q),
           LastIn(e, q, e.schema[u].props[i].base, false, x, c))
    decreases Depth(x), 5, 0
  {
    hide Sound, Typed, UniqueKeys, SchemaOk, Live, AtSpot, LastIn, Place, Unbox, Do, Fits;
    SoundFacts(e, st.store, q);
    PlaceFacts(e, st.store, u, row, i);
    var p, cell := e.schema[u].props[i], st.store[u][row][i];
    if p.nullable && x.Null? {
      NullRead(e, q, p.base, c);
      EditFits(e, st.store, st.store, u, row, i, Put(u, row, i, Nil));
      if !(p.base.Object? && isDefault) && !(diff && cell.Nil?) {
        ElseWhere(e, st, Put(u, row, i, Nil), q);
      }
    } else if p.base.Object? {
      EchoUnbox(e, st, p.base, x, false, update, diff, LinkRow(cell), q, c);
      LiveInPlace(e, st.store, p.base, x);
      var y := Unbox(e, st, p.base, x, update, diff, LinkRow(cell));
      EditFits(e, st.store, y.state.store, u, row, i, Put(u, row, i, y.cell));
      if !(diff && cell == y.cell) {
        ElseWhere(e, y.state, Put(u, row, i, y.cell), q);
      }
    }
  }

  lemma {:induction false} NullRead(e: Env, q: Spot, base: Base, c: Cell)
    ensures LastIn(e, q, base, false, Null, c) == c
  {
  }

  lemma {:induction false} EchoUnbox(e: Env, st: State, base: Base, x: Value, inList: bool, update: bool, diff: bool,
                                     current: Option<nat>, q: Spot, c: Cell)
    requires Sound(e, st.store, q) && SchemaOk(e) && Shaped(e, st.store) && base.Object? && base.target in e.schema
    requires (diff ==> q.diff) && Near(e, q, AtSpot(e, st.store, q), c)
    requires Live(e, st.store, base, inList, x)
    requires Unbox(e, st, base, x, update, diff, current).error.None?
    ensures var s := Unbox(e, st, base, x, update, diff, current).state.store;
      Sound(e, s, q) && Near(e, q, AtSpot(e, s, q), LastIn(e, q, base, false, x, c))
    decreases Depth(x), 3, 0
  {
    hide Sound, Typed, UniqueKeys, SchemaOk, Live, AtSpot, Create;
    if !x.Managed? {
      ObjectLive(e, st.store, base, inList, x);
      EchoCreate(e, st, base.target, x, update, diff, current, q, c);
    }
  }

  lemma {:induction false} EchoAssign(e: Env, st: State, u: string, row: nat, i: nat, x: Value, update: bool, diff: bool,
                                      q: Spot, c: Cell)
    requires Sound(e, st.store, q) && Place(e, st.store, u, row, i) && SchemaOk(e) && e.schema[u].primary != Some(i)
    requires (diff ==> q.diff) && Near(e, q, AtSpot(e, st.store, q), c)
    requires Live(e, st.store, e.schema[u].props[i].base, true, x) && e.schema[u].props[i].list
    requires !e.schema[u].props[i].base.Plain? && (u != q.type_ || i != q.prop)
    requires Assign(e, st, u, row, i, x, update, diff).error.None?
    ensures var s := Assign(e, st, u, row, i, x, update, diff).state.store;
      Sound(e, s, q) && Near(e, q, AtSpot(e, s, q), LastIn(e, q, e.schema[u].props[i].base, true, x, c))
    decreases Depth(x), 5, 0
  {
    hide Sound, Typed, UniqueKeys, SchemaOk, Live, AtSpot, Place, AssignFrom, Do, Fits, Lawful, Follows;
    SoundFacts(e, st.store, q);
    PlaceFacts(e, st.store, u, row, i);
    if x == ListOf(u, row, i) {
      ManagedRead(e, q, e.schema[u].props[i].base, x, c);
    } else if x.Items? && diff {
      EchoAssignFrom(e, st, u, row, i, x, 0, |Elems(st.store[u][row][i])|, update, diff, q, c);
    } else {
      EditFits(e, st.store, st.store, u, row, i, Edit(u, row, i, Clear));
      EchoCleared(e, st, u, row, i, q);
      var st1 := Do(e, st, Edit(u, row, i, Clear));
      if x.Items? {
        LiveLater(e, st.store, st1.store, e.schema[u].props[i].base, true, x);
        PlaceOn(e, st.store, st1.store, u, row, i);
        EchoAssignFrom(e, st1, u, row, i, x, 0, 0, update, diff, q, c);
      }
    }
  }

  lemma {:induction false} ManagedRead(e: Env, q: Spot, base: Base, x: Value, c: Cell)
    requires !x.Obj? && !x.Items?
    ensures LastIn(e, q, base, true, x, c) == c
  {
  }

  lemma {:induction false} EchoCleared(e: Env, st: State, u: string, row: nat, i: nat, q: Spot)
    requires Sound(e, st.store, q) && Place(e, st.store, u, row, i) && SchemaOk(e) && Shaped(e, st.store)
    requires e.schema[u].props[i].list && e.schema[u].primary != Some(i) && (u != q.type_ || i != q.prop)
    ensures var st1 := Do(e, st, Edit(u, row, i, Clear));
      Sound(e, st1.store, q) && AtSpot(e, st1.store, q) == AtSpot(e, st.store, q) && Follows(e, Everywhere(e), st, st1)
  {
    hide Sound, Typed, UniqueKeys, SchemaOk, AtSpot, Place, Do, Fits, Lawful, Follows;
    SoundFacts(e, st.store, q);
    var w := Edit(u, row, i, Clear);
    EditFits(e, st.store, st.store, u, row, i, w);
    ClearLawful(e, st.store, u, row, i);
    OneWrite(e, Everywhere(e), st, w);
    SoundLater(e, st, Do(e, st, w), q);
    ElseWhere(e, st, w, q);
  }

  lemma {:induction false} PlaceOn(e: Env, a: Store, b: Store, u: string, row: nat, i: nat)
    requires Place(e, a, u, row, i) && Shaped(e, b) && Grows(a, b)
    ensures Place(e, b, u, row, i)
  {
  }

  lemma {:induction false} EchoAssignFrom(e: Env, st: State, u: string, row: nat, i: nat, x: Value, k: nat, size: nat,
                                          update: bool, diff: bool, q: Spot, c: Cell)
    requires Sound(e, st.store, q) && Place(e, st.store, u, row, i) && SchemaOk(e) && e.schema[u].primary != Some(i)
    requires (diff ==> q.diff) && (size > 0 ==> diff) && Near(e, q, AtSpot(e, st.store, q), c)
    requires x.Items? && k <= |x.items| && Live(e, st.store, e.schema[u].props[i].base, true, x) && e.schema[u].props[i].list
    requires !e.schema[u].props[i].base.Plain? && (u != q.type_ || i != q.prop)
    requires AssignFrom(e, st, u, row, i, x, k, size, update, diff).error.None?
    ensures var s := AssignFrom(e, st, u, row, i, x, k, size, update, diff).state.store;
      Sound(e, s, q) && Near(e, q, AtSpot(e, s, q), LastItems(e, q, e.schema[u].props[i].base, x, k, c))
    decreases Depth(x), 4, |x.items| - k
  {
    hide Sound, Typed, UniqueKeys, SchemaOk, Live, AtSpot, Place, AddElement, SetElement, Trim, LastIn, Near;
    SoundFacts(e, st.store, q);
    PlaceFacts(e, st.store, u, row, i);
    if k < |x.items| {
      var next := if k < size then SetElement(e, st, u, row, i, x, k, update) else AddElement(e, st, u, row, i, x, k, update);
      if k < size {
        EchoSet(e, st, u, row, i, x, k, update, q, c);
      } else {
        EchoAdd(e, st, u, row, i, x, k, update, q, c);
      }
      LiveLater(e, st.store, next.state.store, e.schema[u].props[i].base, true, x);
      PlaceOn(e, st.store, next.state.store, u, row, i);
      EchoAssignFrom(e, next.state, u, row, i, x, k + 1, size, update, diff, q,
                     LastIn(e, q, e.schema[u].props[i].base, false, x.items[k], c));
    } else if diff && k < size {
      EchoTrim(e, st, u, row, i, k, size - k, q);
    }
  }

  lemma {:induction false} EchoTrim(e: Env, st: State, u: string, row: nat, i: nat, k: nat, n: nat, q: Spot)
    requires Sound(e, st.store, q) && Place(e, st.store, u, row, i) && SchemaOk(e) && e.schema[u].props[i].list
    requires u != q.type_ || i != q.prop
    ensures var s := Trim(e, st, u, row, i, k, n).state.store; Sound(e, s, q) && AtSpot(e, s, q) == AtSpot(e, st.store, q)
    decreases n
  {
    hide Sound, Typed, UniqueKeys, SchemaOk, AtSpot, Place, Do, Fits, Follows;
    SoundFacts(e, st.store, q);
    PlaceFacts(e, st.store, u, row, i);
    if n > 0 && k < |Elems(st.store[u][row][i])| {
      var w := Edit(u, row, i, RemoveAt(k));
      EverywhereClosed(e);
      TrimLawful(e, Everywhere(e), st, u, row, i, k, 1);
      EditFits(e, st.store, st.store, u, row, i, w);
      var st1 := Do(e, st, w);
      OneTrim(e, st, u, row, i, k);
      SoundLater(e, st, st1, q);
      ElseWhere(e, st, w, q);
      PlaceOn(e, st.store, st1.store, u, row, i);
      EchoTrim(e, st1, u, row, i, k, n - 1, q);
    }
  }

  lemma {:induction false} OneTrim(e: Env, st: State, u: string, row: nat, i: nat, k: nat)
    requires SchemaOk(e) && Place(e, st.store, u, row, i) && k < |Elems(st.store[u][row][i])|
    ensures Trim(e, st, u, row, i, k, 1).state == Do(e, st, Edit(u, row, i, RemoveAt(k)))
  {
  }

  lemma {:induction false} EchoSet(e: Env, st: State, u: string, row: nat, i: nat, x: Value, k: nat, update: bool,
                                   q: Spot, c: Cell)
    requires Sound(e, st.store, q) && Place(e, st.store, u, row, i) && SchemaOk(e) && e.schema[u].primary != Some(i)
    requires q.diff && Near(e, q, AtSpot(e, st.store, q), c)
    requires x.Items? && k < |x.items| && Live(e, st.store, e.schema[u].props[i].base, true, x) && e.schema[u].props[i].list
    requires !e.schema[u].props[i].base.Plain? && (u != q.type_ || i != q.prop)
    requires SetElement(e, st, u, row, i, x, k, update).error.None?
    ensures var r := SetElement(e, st, u, row, i, x, k, update);
      Sound(e, r.state.store, q) && Follows(e, Everywhere(e), st, r.state)
      && Near(e, q, AtSpot(e, r.state.store, q), LastIn(e, q, e.schema[u].props[i].base, false, x.items[k], c))
    decreases Depth(x), 4, 0
  {
    hide Sound, Typed, UniqueKeys, SchemaOk, Live, AtSpot, Place, Unbox, Do, Fits, LastIn, Follows, Near;
    SoundFacts(e, st.store, q);
    PlaceFacts(e, st.store, u, row, i);
    DefaultFlat(e, u, i);
    var base, cells := e.schema[u].props[i].base, Elems(st.store[u][row][i]);
    ItemSmaller(x, k);
    ItemLive(e, st.store, base, x, k);
    NoAny(e, st, u, row, i, x, k, update);
    EverywhereClosed(e);
    ElementLawful(e, Everywhere(e), st, u, row, i, x, k, update);
    SoundLater(e, st, SetElement(e, st, u, row, i, x, k, update).state, q);
    if base.Object? && k < |cells| {
      EchoUnbox(e, st, base, x.items[k], true, update, true, LinkRow(cells[k]), q, c);
      var y := Unbox(e, st, base, x.items[k], update, true, LinkRow(cells[k]));
      EditFits(e, st.store, y.state.store, u, row, i, Edit(u, row, i, SetAt(k, y.cell)));
      if y.cell != cells[k] {
        ElseWhere(e, y.state, Edit(u, row, i, SetAt(k, y.cell)), q);
      }
    }
  }

  lemma {:induction false} EchoAdd(e: Env, st: State, u: string, row: nat, i: nat, x: Value, k: nat, update: bool,
                                   q: Spot, c: Cell)
    requires Sound(e, st.store, q) && Place(e, st.store, u, row, i) && SchemaOk(e) && e.schema[u].primary != Some(i)
    requires Near(e, q, AtSpot(e, st.store, q), c)
    requires x.Items? && k < |x.items| && Live(e, st.store, e.schema[u].props[i].base, true, x) && e.schema[u].props[i].list
    requires !e.schema[u].props[i].base.Plain? && (u != q.type_ || i != q.prop)
    requires AddElement(e, st, u, row, i, x, k, update).error.None?
    ensures var r := AddElement(e, st, u, row, i, x, k, update);
      Sound(e, r.state.store, q) && Follows(e, Everywhere(e), st, r.state)
      && Near(e, q, AtSpot(e, r.state.store, q), LastIn(e, q, e.schema[u].props[i].base, false, x.items[k], c))
    decreases Depth(x), 4, 0
  {
    hide Sound, Typed, UniqueKeys, SchemaOk, Live, AtSpot, Place, Unbox, Do, Fits, LastIn, Follows, Near;
    SoundFacts(e, st.store, q);
    PlaceFacts(e, st.store, u, row, i);
    DefaultFlat(e, u, i);
    var base := e.schema[u].props[i].base;
    ItemSmaller(x, k);
    ItemLive(e, st.store, base, x, k);
    NoAny(e, st, u, row, i, x, k, update);
    EverywhereClosed(e);
    ElementLawful(e, Everywhere(e), st, u, row, i, x, k, update);
    SoundLater(e, st, AddElement(e, st, u, row, i, x, k, update).state, q);
    if base.Object? {
      EchoUnbox(e, st, base, x.items[k], true, update, false, None, q, c);
      var y := Unbox(e, st, base, x.items[k], update, false, None);
      EditFits(e, st.store, y.state.store, u, row, i, Edit(u, row, i, Push(y.cell)));
      ElseWhere(e, y.state, Edit(u, row, i, Push(y.cell)), q);
    }
  }

  // ---------- the theorem ----------

  /** After a write of an object with a key that returns, a plain property holds what was
      supplied for it last: by the object itself, or by a nested one with the same key
      further on. In differential mode, a null may be left instead of a value that it
      reads as. */
  lemma {:induction false} LastSuppliedWins(e: Env, st: State, t: string, v: Value, update: bool, diff: bool, i: nat)
    requires SchemaOk(e) && Typed(e, st.store) && Shaped(e, st.store) && UniqueKeys(e, st.store) && !e.migrating
    requires t in e.schema && e.schema[t].primary.Some? && Live(e, st.store, Object(t), false, v)
    requires i < |e.schema[t].props| && e.schema[t].primary != Some(i) && e.schema[t].props[i].base.Plain?
    requires Create(e, st, t, v, update, diff, None).error.None?
    ensures v.Obj?
    ensures var r := Create(e, st, t, v, update, diff, None);
      var created := r.row == |st.store[t]|;
      r.row < |r.state.store[t]| && i < |r.state.store[t][r.row]| && r.row <= |st.store[t]| &&
      var q, cell := Spot(t, r.row, i, OwnKey(e, t, v), diff), r.state.store[t][r.row][i];
      var last := LastObject(e, q, t, v, 0, created, if created then InitialCell(e.schema[t].props[i]) else st.store[t][r.row][i]);
      Near(e, q, cell, last) && (!diff ==> cell == last)
  {
    hide Populate, Typed, SchemaOk, Create, Started, Live, KeyCell, UniqueKeys, Sound, LastObject, Follows;
    CreateStarts(e, st, t, v, update, diff);
    StartedCell(e, st, t, v, update, diff, i);
    StartedKey(e, st, t, v, update, diff);
    KeyGiven(e, st, t, v, update, diff);
    var r, st1 := Create(e, st, t, v, update, diff, None), Started(e, st, t, v, update);
    var created, q := r.row == |st.store[t]|, Spot(t, r.row, i, OwnKey(e, t, v), diff);
    StartedSound(e, st, t, v, update, q);
    LiveLater(e, st.store, st1.store, Object(t), false, v);
    EchoPopulate(e, st1, t, r.row, v, 0, created, update, diff, q, AtSpot(e, st1.store, q));
    SpotCell(e, r.state.store, q);
    SpotCell(e, st1.store, q);
  }

  lemma {:induction false} SpotCell(e: Env, s: Store, q: Spot)
    requires Sound(e, s, q)
    ensures q.row < |s[q.type_]| && q.prop < |s[q.type_][q.row]| && AtSpot(e, s, q) == s[q.type_][q.row][q.prop]
  {
  }

  lemma {:induction false} KeyGiven(e: Env, st: State, t: string, v: Value, update: bool, diff: bool)
    requires SchemaOk(e) && Shaped(e, st.store) && t in e.schema && e.schema[t].primary.Some? && !e.migrating
    requires Create(e, st, t, v, update, diff, None).error.None?
    ensures v.Obj? && KeyCell(e.schema[t], v) == Some(OwnKey(e, t, v))
  {
    hide Populate, InitialRow, KeyValue, KeyCell;
    TableFacts(e, st.store, t);
    var o := e.schema[t];
    FoundKey(st.store[t], o.props[o.primary.value], o.primary.value, o, v);
  }

  lemma {:induction false} StartedSound(e: Env, st: State, t: string, v: Value, update: bool, q: Spot)
    requires SchemaOk(e) && Typed(e, st.store) && Shaped(e, st.store) && UniqueKeys(e, st.store) && !e.migrating
    requires t in e.schema && e.schema[t].primary.Some? && q.type_ == t && q.prop < |e.schema[t].props|
    requires e.schema[t].primary != Some(q.prop) && e.schema[t].props[q.prop].base.Plain?
    requires RowHas(e, Started(e, st, t, v, update).store, t, q.row, q.key)
    requires v.Obj? && KeyCell(e.schema[t], v) == Some(q.key)
    ensures Sound(e, Started(e, st, t, v, update).store, q) && Own(e, q, t, q.row, v)
  {
    hide Typed, KeyCell, UniqueKeys, Follows, Lawful, KeyValue;
    StartedTyped(e, st, t, v, update);
    StartedUnique(e, st, t, v, update);
    TableFacts(e, Started(e, st, t, v, update).store, t);
  }

  lemma {:induction false} StartedUnique(e: Env, st: State, t: string, v: Value, update: bool)
    requires SchemaOk(e) && Typed(e, st.store) && Shaped(e, st.store) && UniqueKeys(e, st.store) && !e.migrating
    requires t in e.schema && e.schema[t].primary.Some? && v.Obj?
    ensures UniqueKeys(e, Started(e, st, t, v, update).store)
  {
    hide Typed, UniqueKeys, Lawful, KeyValue, Do, InitialRow, Apply;
    TableFacts(e, st.store, t);
    var o := e.schema[t];
    var col := o.primary.value;
    if KeyValue(o.props[col], v, col).Some? {
      var found := FindKey(st.store[t], o.props[col], col, KeyValue(o.props[col], v, col).value);
      if found.Found? && found.row.None? {
        NewRowLawful(e, Everywhere(e), st.store, t, found.key);
        LawfulFits(e, Everywhere(e), st.store, Append(t, InitialRow(o.props)[col := found.key]));
        LawfulKeys(e, Everywhere(e), st.store, Append(t, InitialRow(o.props)[col := found.key]));
        DoApplies(e, st, Append(t, InitialRow(o.props)[col := found.key]));
      }
    }
  }

  lemma {:induction false} DoApplies(e: Env, st: State, w: Write)
    requires Shaped(e, st.store) && Fits(e, st.store, w)
    ensures Do(e, st, w).store == Apply(e, st.store, w)
  {
  }

  // ---------- an object that overwrites itself ----------

  ghost function People(nulls: map<Kind, Scalar>): Env {
    Env(map["Person" := ObjectSchema([Property(Plain(Int), false, false, None), Property(Plain(Int), false, false, None),
                                      Property(Object("Person"), true, false, None)], Some(0))], false, nulls)
  }

  function Number(n: int): Value {
    Val(Scalar(Int, n))
  }

  /** A person whose link is supplied as a person with the same key. */
  function Inner(): Value {
    Obj([Some(Number(1)), Some(Number(7)), None], false)
  }

  function Outer(): Value {
    Obj([Some(Number(1)), Some(Number(5)), Some(Inner())], false)
  }

  function PersonRow(n: int, link: Cell): Row {
    [One(Scalar(Int, 1)), One(Scalar(Int, n)), link]
  }

  /** Key 1, number 5, and a link supplied as key 1, number 7: the call returns, one row
      is there, and it holds 7. */
  lemma {:induction false} NestedOverwrites(nulls: map<Kind, Scalar>)
    ensures var e, st := People(nulls), State(map["Person" := []], []);
      && SchemaOk(e) && Typed(e, st.store)
      && Create(e, st, "Person", Outer(), true, false, None).error.None?
      && Create(e, st, "Person", Outer(), true, false, None).state.store["Person"] == [PersonRow(7, Link(0))]
  {
    hide Populate, Do;
    var e, st := People(nulls), State(map["Person" := []], []);
    var props := e.schema["Person"].props;
    assert InitialRow(props)[0 := One(Scalar(Int, 1))] == PersonRow(0, Nil);
    var w := Append("Person", PersonRow(0, Nil));
    AppendPerson(e, st, PersonRow(0, Nil));
    var st1 := Do(e, st, w);
    OuterPopulated(e, st1);
    assert Create(e, st, "Person", Outer(), true, false, None) == Populate(e, st1, "Person", 0, Outer(), 0, true, true, true, false);
  }

  lemma {:induction false} AppendPerson(e: Env, st: State, row: Row)
    requires e == People(e.nullReads) && Shaped(e, st.store) && st.store["Person"] == [] && |row| == 3
    ensures Do(e, st, Append("Person", row)).store["Person"] == [row]
  {
  }

  lemma {:induction false} PutPerson(e: Env, st: State, row: Row, i: nat, c: Cell)
    requires e == People(e.nullReads) && Shaped(e, st.store) && st.store["Person"] == [row] && |row| == 3 && i < 3
    ensures Do(e, st, Put("Person", 0, i, c)).store["Person"] == [row[i := c]]
  {
  }

  lemma {:induction false} SetNumber(e: Env, st: State, row: Row, n: int)
    requires e == People(e.nullReads) && SchemaOk(e) && Shaped(e, st.store) && st.store["Person"] == [row] && |row| == 3
    ensures var r := SetProp(e, st, "Person", 0, 1, Number(n), true, false, false);
      r.error.None? && r.state.store["Person"] == [row[1 := One(Scalar(Int, n))]]
  {
    PutPerson(e, st, row, 1, One(Scalar(Int, n)));
  }

  lemma {:induction false} InnerPopulated(e: Env, st: State)
    requires e == People(e.nullReads) && SchemaOk(e) && Shaped(e, st.store) && st.store["Person"] == [PersonRow(5, Nil)]
    ensures var r := Populate(e, st, "Person", 0, Inner(), 0, false, true, true, false);
      r.error.None? && r.state.store["Person"] == [PersonRow(7, Nil)]
  {
    hide SetProp, SchemaOk, Shaped;
    SetNumber(e, st, PersonRow(5, Nil), 7);
    var r := SetProp(e, st, "Person", 0, 1, Number(7), true, false, false);
    assert Populate(e, r.state, "Person", 0, Inner(), 3, false, true, true, false) == Result(r.state, None, 0);
    assert Populate(e, r.state, "Person", 0, Inner(), 2, false, true, true, false)
      == Populate(e, r.state, "Person", 0, Inner(), 3, false, true, true, false);
    assert Populate(e, st, "Person", 0, Inner(), 1, false, true, true, false)
      == Populate(e, r.state, "Person", 0, Inner(), 2, false, true, true, false);
    assert Populate(e, st, "Person", 0, Inner(), 0, false, true, true, false)
      == Populate(e, st, "Person", 0, Inner(), 1, false, true, true, false);
    assert PersonRow(5, Nil)[1 := One(Scalar(Int, 7))] == PersonRow(7, Nil);
  }

  lemma {:induction false} SetLink(e: Env, st: State)
    requires e == People(e.nullReads) && SchemaOk(e) && Shaped(e, st.store) && st.store["Person"] == [PersonRow(5, Nil)]
    ensures var r := SetProp(e, st, "Person", 0, 2, Inner(), true, false, false);
      r.error.None? && r.state.store["Person"] == [PersonRow(7, Link(0))]
  {
    hide Populate, Do;
    InnerPopulated(e, st);
    var rows := st.store["Person"];
    assert rows[0][0] == One(Scalar(Int, 1));
    var made := Create(e, st, "Person", Inner(), true, false, None);
    assert made == Populate(e, st, "Person", 0, Inner(), 0, false, true, true, false);
    PutPerson(e, made.state, PersonRow(7, Nil), 2, Link(0));
    assert PersonRow(7, Nil)[2 := Link(0)] == PersonRow(7, Link(0));
  }

  lemma {:induction false} OuterPopulated(e: Env, st: State)
    requires e == People(e.nullReads) && SchemaOk(e) && Shaped(e, st.store) && st.store["Person"] == [PersonRow(0, Nil)]
    ensures var r := Populate(e, st, "Person", 0, Outer(), 0, true, true, true, false);
      r.error.None? && r.state.store["Person"] == [PersonRow(7, Link(0))]
  {
    hide SetProp, SchemaOk, Shaped;
    SetNumber(e, st, PersonRow(0, Nil), 5);
    var r := SetProp(e, st, "Person", 0, 1, Number(5), true, false, false);
    assert PersonRow(0, Nil)[1 := One(Scalar(Int, 5))] == PersonRow(5, Nil);
    SetLink(e, r.state);
    var r2 := SetProp(e, r.state, "Person", 0, 2, Inner(), true, false, false);
    assert Populate(e, r2.state, "Person", 0, Outer(), 3, true, true, true, false) == Result(r2.state, None, 0);
    assert Populate(e, r.state, "Person", 0, Outer(), 2, true, true, true, false)
      == Populate(e, r2.state, "Person", 0, Outer(), 3, true, true, true, false);
    assert Populate(e, st, "Person", 0, Outer(), 1, true, true, true, false)
      == Populate(e, r.state, "Person", 0, Outer(), 2, true, true, true, false);
    assert Populate(e, st, "Person", 0, Outer(), 0, true, true, true, false)
      == Populate(e, st, "Person", 0, Outer(), 1, true, true, true, false);
  }
}
