/** What every run of object creations and property writes keeps, and what one
    creation is sure to leave behind. */
module RecordRuns {
  import opened Common
  import opened Records
  import opened RecordLaws

  // ---------- lawful writes keep the store sound ----------

  lemma {:induction false} RowLater(s: Store, s': Store, props: seq<Property>, row: Row)
    requires RowOk(s, props, row) && Grows(s, s')
    ensures RowOk(s', props, row)
  {
  }

  lemma {:induction false} CellOf(e: Env, s: Store, t: string, row: nat, i: nat)
    requires Typed(e, s) && t in e.schema && row < |s[t]| && i < |e.schema[t].props|
    ensures |s[t][row]| == |e.schema[t].props| && CellOk(s, e.schema[t].props[i], s[t][row][i])
  {
  }

  /** The row a write leaves at a place is sound if the row before was. */
  lemma {:induction false} WrittenRow(e: Env, sc: Scope, s: Store, w: Write, t: string, r: nat)
    requires SchemaOk(e) && Typed(e, s) && Lawful(e, sc, s, w) && t in e.schema && r < |Apply(e, s, w)[t]|
    ensures RowOk(s, e.schema[t].props, Apply(e, s, w)[t][r])
  {
  }

  lemma {:induction false} LawfulTyped(e: Env, sc: Scope, s: Store, w: Write)
    requires SchemaOk(e) && Typed(e, s) && Lawful(e, sc, s, w)
    ensures Typed(e, Apply(e, s, w))
  {
    hide Apply, RowOk, Lawful, SchemaOk;
    LawfulFits(e, sc, s, w);
    var s' := Apply(e, s, w);
    forall t, r | t in e.schema && 0 <= r < |s'[t]| ensures RowOk(s', e.schema[t].props, s'[t][r]) {
      WrittenRow(e, sc, s, w, t, r);
      RowLater(s, s', e.schema[t].props, s'[t][r]);
    }
  }

  lemma {:induction false} LawfulKeys(e: Env, sc: Scope, s: Store, w: Write)
    requires SchemaOk(e) && Shaped(e, s) && Lawful(e, sc, s, w) && !e.migrating
    ensures KeysKept(e, s, Apply(e, s, w))
    ensures UniqueKeys(e, s) ==> UniqueKeys(e, Apply(e, s, w))
  {
  }

  /** Any sequence of lawful writes keeps cells typed and links live; outside a
      migration it also keeps keys unique and never changes one. */
  lemma {:induction false} LeadsKeep(e: Env, sc: Scope, s: Store, ws: seq<Write>, s': Store)
    requires SchemaOk(e) && Typed(e, s) && Leads(e, sc, s, ws, s')
    ensures Typed(e, s')
    ensures !e.migrating ==> KeysKept(e, s, s') && (UniqueKeys(e, s) ==> UniqueKeys(e, s'))
    decreases |ws|
  {
    hide SchemaOk, Typed, Lawful, UniqueKeys, KeysKept, Apply;
    TypedShaped(e, s);
    if ws == [] {
      KeysSame(e, s);
    } else {
      LawfulFits(e, sc, s, ws[0]);
      var s1 := Apply(e, s, ws[0]);
      LawfulTyped(e, sc, s, ws[0]);
      LeadsKeep(e, sc, s1, ws[1..], s');
      TypedShaped(e, s');
      if !e.migrating {
        LawfulKeys(e, sc, s, ws[0]);
        KeysOn(e, s, s1, s');
      }
    }
  }

  lemma {:induction false} TypedShaped(e: Env, s: Store)
    requires Typed(e, s)
    ensures Shaped(e, s)
  {
  }

  lemma {:induction false} KeysSame(e: Env, s: Store)
    requires SchemaOk(e) && Shaped(e, s)
    ensures KeysKept(e, s, s)
  {
  }

  lemma {:induction false} KeysOn(e: Env, a: Store, b: Store, c: Store)
    requires SchemaOk(e) && Shaped(e, a) && Shaped(e, b) && Shaped(e, c)
    requires KeysKept(e, a, b) && KeysKept(e, b, c)
    ensures KeysKept(e, a, c)
  {
  }

  // ---------- nothing outside the scope changes ----------

  /** Tables outside the scope keep their length, rows outside it their cells. */
  ghost predicate Untouched(e: Env, sc: Scope, s: Store, s': Store)
    requires Shaped(e, s) && Shaped(e, s')
  {
    && (forall t :: t in e.schema && t !in sc.types ==> |s'[t]| == |s[t]|)
    && (forall t, r :: t in e.schema && 0 <= r < |s[t]| && r < |s'[t]| && !Within(sc, t, r) ==> s'[t][r] == s[t][r])
  }

  lemma {:induction false} WriteWithin(e: Env, sc: Scope, s: Store, w: Write)
    requires SchemaOk(e) && Shaped(e, s) && Lawful(e, sc, s, w)
    ensures Untouched(e, sc, s, Apply(e, s, w))
  {
  }

  lemma {:induction false} LeadsWithin(e: Env, sc: Scope, s: Store, ws: seq<Write>, s': Store)
    requires SchemaOk(e) && Shaped(e, s) && Shaped(e, s') && Leads(e, sc, s, ws, s')
    ensures Untouched(e, sc, s, s') && Grows(s, s')
    decreases |ws|
  {
    hide SchemaOk, Lawful, Apply;
    if ws != [] {
      LawfulFits(e, sc, s, ws[0]);
      WriteWithin(e, sc, s, ws[0]);
      LeadsWithin(e, sc, Apply(e, s, ws[0]), ws[1..], s');
    }
  }

  // ---------- runs ----------

  datatype Op =
    | CreateOp(type_: string, value: Value, update: bool, diff: bool)
    | SetOp(type_: string, row: nat, prop: nat, value: Value, update: bool)

  /** The object or property exists, and so do the stored objects supplied. */
  ghost predicate OpOk(e: Env, s: Store, op: Op) {
    match op
    case CreateOp(t, v, _, _) => Shaped(e, s) && t in e.schema && Live(e, s, Object(t), false, v)
    case SetOp(t, row, i, v, _) =>
      Place(e, s, t, row, i) && Live(e, s, e.schema[t].props[i].base, e.schema[t].props[i].list, v)
  }

  function Perform(e: Env, st: State, op: Op): (r: Result)
    requires SchemaOk(e) && OpOk(e, st.store, op)
    ensures Shaped(e, r.state.store)
  {
    match op
    case CreateOp(t, v, update, diff) => Create(e, st, t, v, update, diff, None)
    case SetOp(t, row, i, v, update) => SetPropertyValue(e, st, t, row, i, v, update)
  }

  /** A run goes on after an operation that failed, with what it had written by then. */
  ghost predicate RunOk(e: Env, st: State, ops: seq<Op>)
    requires SchemaOk(e)
    decreases |ops|
  {
    ops != [] ==> OpOk(e, st.store, ops[0]) && RunOk(e, Perform(e, st, ops[0]).state, ops[1..])
  }

  ghost function Run(e: Env, st: State, ops: seq<Op>): State
    requires SchemaOk(e) && RunOk(e, st, ops)
    decreases |ops|
  {
    if ops == [] then st else Run(e, Perform(e, st, ops[0]).state, ops[1..])
  }

  function Everywhere(e: Env): Scope {
    Scope(e.schema.Keys, "", 0)
  }

  lemma {:induction false} EverywhereClosed(e: Env)
    requires SchemaOk(e)
    ensures Closed(e, Everywhere(e))
  {
  }

  lemma {:induction false} PerformLawful(e: Env, st: State, op: Op)
    requires SchemaOk(e) && Shaped(e, st.store) && OpOk(e, st.store, op)
    ensures Follows(e, Everywhere(e), st, Perform(e, st, op).state)
  {
    hide SchemaOk, Follows, Live, SetProp, Create;
    var sc := Everywhere(e);
    EverywhereClosed(e);
    Stays(e, sc, st);
    match op
    case CreateOp(t, v, update, diff) => CreateLawful(e, sc, st, t, v, update, diff, None);
    case SetOp(t, row, i, v, update) =>
      if e.migrating || e.schema[t].primary != Some(i) {
        SetPropLawful(e, sc, st, t, row, i, v, update, false, false);
      }
  }

  /** Over any run, with failures anywhere: every cell stays well typed and no link
      dangles; outside a migration no row disappears, no primary key changes, and
      primary keys stay unique. */
  lemma {:induction false} RunKeeps(e: Env, st: State, ops: seq<Op>)
    requires SchemaOk(e) && Typed(e, st.store) && RunOk(e, st, ops)
    ensures Typed(e, Run(e, st, ops).store)
    ensures !e.migrating ==> KeysKept(e, st.store, Run(e, st, ops).store)
    ensures !e.migrating && UniqueKeys(e, st.store) ==> UniqueKeys(e, Run(e, st, ops).store)
    decreases |ops|
  {
    hide SchemaOk, Typed, Shaped, Follows, UniqueKeys, KeysKept, Perform, OpOk;
    TypedShaped(e, st.store);
    if ops == [] {
      KeysSame(e, st.store);
    } else {
      PerformLawful(e, st, ops[0]);
      var st1 := Perform(e, st, ops[0]).state;
      FollowsKeep(e, Everywhere(e), st, st1);
      RunKeeps(e, st1, ops[1..]);
      TypedShaped(e, Run(e, st, ops).store);
      if !e.migrating {
        KeysOn(e, st.store, st1.store, Run(e, st, ops).store);
      }
    }
  }

  lemma {:induction false} FollowsKeep(e: Env, sc: Scope, a: State, b: State)
    requires SchemaOk(e) && Typed(e, a.store) && Follows(e, sc, a, b)
    ensures Typed(e, b.store)
    ensures !e.migrating ==> KeysKept(e, a.store, b.store)
    ensures !e.migrating && UniqueKeys(e, a.store) ==> UniqueKeys(e, b.store)
  {
    LeadsKeep(e, sc, a.store, b.log[|a.log|..], b.store);
  }

  // ---------- what one creation leaves ----------

  /** The cell is the key the value and the schema ask for: the supplied one, else the
      default, else null; a null only where nulls are allowed. */
  predicate KeyAsked(p: Property, supplied: Option<Value>, key: Cell) {
    match supplied
    case Some(Val(x)) => key == One(x)
    case Some(Null) => p.nullable && key == Nil
    case Some(_) => false
    case None =>
      match p.default
      case Some(Val(x)) => key == One(x)
      case Some(Null) => p.nullable && key == Nil
      case Some(_) => false
      case None => p.nullable && key == Nil
  }

  lemma {:induction false} FoundAsked(rows: seq<Row>, p: Property, col: nat, v: Value)
    requires p.base.Plain? && v.Obj? && KeyValue(p, v, col).Some? && forall k :: 0 <= k < |rows| ==> col < |rows[k]|
    ensures var found := FindKey(rows, p, col, KeyValue(p, v, col).value);
      found.Found? ==>
        (KeyAsked(p, Field(v, col), found.key) &&
         if found.row.Some? then found.row.value < |rows| && rows[found.row.value][col] == found.key
         else forall k :: 0 <= k < |rows| ==> rows[k][col] != found.key)
  {
  }

  /** A creation that returns outside a migration leaves exactly one row with the key
      asked for: the row that had it, or else a new one at the end. */
  lemma {:induction false} CreateLeavesKey(e: Env, st: State, t: string, v: Value, update: bool, diff: bool)
    requires SchemaOk(e) && Typed(e, st.store) && UniqueKeys(e, st.store) && !e.migrating
    requires t in e.schema && e.schema[t].primary.Some? && Live(e, st.store, Object(t), false, v)
    requires Create(e, st, t, v, update, diff, None).error.None?
    ensures var col, r := e.schema[t].primary.value, Create(e, st, t, v, update, diff, None);
      && v.Obj? && r.row <= |st.store[t]|
      && KeyAsked(e.schema[t].props[col], Field(v, col), KeyAt(e, r.state.store, t, r.row))
      && (forall j :: 0 <= j < |r.state.store[t]| ==>
            (KeyAt(e, r.state.store, t, j) == KeyAt(e, r.state.store, t, r.row) <==> j == r.row))
      && (forall j :: 0 <= j < |st.store[t]| ==>
            (KeyAt(e, st.store, t, j) == KeyAt(e, r.state.store, t, r.row) <==> j == r.row))
      && (r.row < |st.store[t]| ==> update)
  {
    hide Typed, UniqueKeys, Follows, Live, Populate, Lawful;
    TypedShaped(e, st.store);
    var props, col, r := e.schema[t].props, e.schema[t].primary.value, Create(e, st, t, v, update, diff, None);
    EverywhereClosed(e);
    var sc := Everywhere(e);
    CreateLawful(e, sc, st, t, v, update, diff, None);
    FollowsKeep(e, sc, st, r.state);
    var found := FindKey(st.store[t], props[col], col, KeyValue(props[col], v, col).value);
    FoundAsked(st.store[t], props[col], col, v);
    if found.row.Some? {
      OnlyKey(e, st.store, t, r.row);
      PopulateLawful(e, sc, st, t, r.row, v, 0, false, true, update, diff);
      KeyAfter(e, sc, st, r.state, t, r.row);
    } else {
      NewRowLawful(e, sc, st.store, t, found.key);
      var w := Append(t, InitialRow(props)[col := found.key]);
      LawfulFits(e, sc, st.store, w);
      OneWrite(e, sc, st, w);
      var st1 := Do(e, st, w);
      FollowsKeep(e, sc, st, st1);
      LiveLater(e, st.store, st1.store, Object(t), false, v);
      PopulateLawful(e, sc, st1, t, r.row, v, 0, true, true, update, diff);
      KeyAfter(e, sc, st1, r.state, t, r.row);
    }
    OnlyKey(e, r.state.store, t, r.row);
  }

  lemma {:induction false} KeyAfter(e: Env, sc: Scope, a: State, b: State, t: string, row: nat)
    requires SchemaOk(e) && Typed(e, a.store) && Follows(e, sc, a, b) && !e.migrating
    requires t in e.schema && e.schema[t].primary.Some? && row < |a.store[t]|
    ensures Shaped(e, b.store) && row < |b.store[t]| && KeyAt(e, b.store, t, row) == KeyAt(e, a.store, t, row)
  {
    FollowsKeep(e, sc, a, b);
  }

  lemma {:induction false} OnlyKey(e: Env, s: Store, t: string, row: nat)
    requires SchemaOk(e) && Shaped(e, s) && UniqueKeys(e, s)
    requires t in e.schema && e.schema[t].primary.Some? && row < |s[t]|
    ensures forall j :: 0 <= j < |s[t]| && KeyAt(e, s, t, j) == KeyAt(e, s, t, row) ==> j == row
  {
  }

  /** Writing an object touches its own row and the tables its links can lead to, and
      no more; if those do not include its own table, that table gets one more row
      exactly when the key was not there (or the type has no key). */
  lemma {:induction false} CreateTouches(e: Env, types: set<string>, st: State, t: string, v: Value, update: bool, diff: bool)
    requires SchemaOk(e) && Shaped(e, st.store) && t in e.schema && t !in types && !e.migrating
    requires Live(e, st.store, Object(t), false, v)
    requires Closed(e, Scope(types, t, 0))
    requires Create(e, st, t, v, update, diff, None).error.None?
    ensures var r, s := Create(e, st, t, v, update, diff, None), st.store;
      && r.row <= |s[t]| && |r.state.store[t]| == |s[t]| + (if r.row == |s[t]| then 1 else 0)
      && (forall j :: 0 <= j < |s[t]| && j != r.row ==> r.state.store[t][j] == s[t][j])
      && forall u :: u in e.schema && u != t && u !in types ==> r.state.store[u] == s[u]
  {
    hide SchemaOk, Follows, Live, Populate, Lawful;
    var r := Create(e, st, t, v, update, diff, None);
    var sc := Scope(types, t, r.row);
    assert Closed(e, sc);
    var st1 := Started(e, st, t, v, update);
    CreateStarts(e, st, t, v, update, diff);
    LiveLater(e, st.store, st1.store, Object(t), false, v);
    var created := r.row == |st.store[t]|;
    PopulateLawful(e, sc, st1, t, r.row, v, 0, created, true, update, diff);
    FollowsWithin(e, sc, st1, r.state);
    forall u | u in e.schema && u != t && u !in types ensures r.state.store[u] == st.store[u] {
      assert |r.state.store[u]| == |st1.store[u]| && st1.store[u] == st.store[u];
    }
  }

  lemma {:induction false} FollowsWithin(e: Env, sc: Scope, a: State, b: State)
    requires SchemaOk(e) && Shaped(e, a.store) && Shaped(e, b.store) && Follows(e, sc, a, b)
    ensures Untouched(e, sc, a.store, b.store) && Grows(a.store, b.store)
  {
    LeadsWithin(e, sc, a.store, b.log[|a.log|..], b.store);
  }

  /** The state in which the populate loop starts. */
  function Started(e: Env, st: State, t: string, v: Value, update: bool): (r: State)
    requires SchemaOk(e) && Shaped(e, st.store) && t in e.schema
    ensures Shaped(e, r.store)
  {
    var props, primary := e.schema[t].props, e.schema[t].primary;
    match primary
    case None => Do(e, st, Append(t, InitialRow(props)))
    case Some(col) =>
      if !v.Obj? || KeyValue(props[col], v, col).None? then st else
      match FindKey(st.store[t], props[col], col, KeyValue(props[col], v, col).value)
      case NotFound(_) => st
      case Found(None, key) => Do(e, st, Append(t, InitialRow(props)[col := key]))
      case Found(Some(_), _) => st
  }

  lemma {:induction false} CreateStarts(e: Env, st: State, t: string, v: Value, update: bool, diff: bool)
    requires SchemaOk(e) && Shaped(e, st.store) && t in e.schema && !e.migrating
    requires Create(e, st, t, v, update, diff, None).error.None?
    ensures var r, st1 := Create(e, st, t, v, update, diff, None), Started(e, st, t, v, update);
      && r.row < |st1.store[t]| && Grows(st.store, st1.store)
      && |st1.store[t]| == |st.store[t]| + (if r.row == |st.store[t]| then 1 else 0)
      && (forall j :: 0 <= j < |st.store[t]| ==> st1.store[t][j] == st.store[t][j])
      && (forall u :: u in e.schema && u != t ==> st1.store[u] == st.store[u])
      && Create(e, st, t, v, update, diff, None)
         == Populate(e, st1, t, r.row, v, 0, r.row == |st.store[t]|, true, update, diff)
  {
    hide Populate, InitialRow;
  }
}
