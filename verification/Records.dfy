/** Object creation and property writes on tables of rows, as the accessor layer
    does them: upsert by primary key, nested objects, lists, differential writes. */
module Records {
  import opened Common

  datatype Kind = Bool | Int | Float | Double | Text | Data | Date

  /** A non-null column value; `code` stands for the value within its kind. */
  datatype Scalar = Scalar(kind: Kind, code: int)

  datatype Base = Plain(kind: Kind) | Object(target: string) | Any

  datatype Property = Property(base: Base, nullable: bool, list: bool, default: Option<Value>)

  datatype ObjectSchema = ObjectSchema(props: seq<Property>, primary: Option<nat>)

  /** `nullReads` says what the core's typed read of a null number or truth value gives,
      if that can be confused with a value; how the core does this is not known here. */
  datatype Env = Env(schema: map<string, ObjectSchema>, migrating: bool, nullReads: map<Kind, Scalar>)

  /** What a caller may supply: a null, a plain value, an object not yet stored
      (its fields by property), a list, a stored object, or a stored list itself. */
  datatype Value =
    | Null
    | Val(scalar: Scalar)
    | Obj(fields: seq<Option<Value>>, allowMissing: bool)
    | Items(items: seq<Value>)
    | Managed(type_: string, row: nat)
    | ListOf(owner: string, ownerRow: nat, prop: nat)

  datatype Cell = Nil | One(scalar: Scalar) | Link(row: nat) | Many(cells: seq<Cell>)

  type Row = seq<Cell>
  type Store = map<string, seq<Row>>

  datatype Error =
    | MissingValue | NullKey | DuplicateKey | BadValue | ModifyKey | OutOfBounds | WrongType | NotSupported

  /** One write to a table. */
  datatype Write =
    | Append(type_: string, cells: Row)
    | Put(type_: string, row: nat, prop: nat, cell: Cell)
    | Edit(type_: string, row: nat, prop: nat, edit: ListEdit)

  datatype ListEdit = Clear | Push(cell: Cell) | SetAt(index: nat, cell: Cell) | RemoveAt(index: nat)

  /** The tables and the writes made so far. */
  datatype State = State(store: Store, log: seq<Write>)

  datatype Result = Result(state: State, error: Option<Error>, row: nat)

  datatype Unboxed = Unboxed(state: State, error: Option<Error>, cell: Cell)

  // ---------- schemas ----------

  /** A default value holds no objects. */
  predicate Flat(v: Value) {
    v.Null? || v.Val? || (v.Items? && forall i :: 0 <= i < |v.items| ==> v.items[i].Val?)
  }

  predicate PropertyOk(e: Env, p: Property) {
    && (p.base.Object? ==> p.base.target in e.schema)
    && (p.base.Object? && !p.list ==> p.nullable)
    && (p.list ==> !p.nullable)
    && (p.default.Some? ==> Flat(p.default.value))
  }

  predicate KeyOk(o: ObjectSchema) {
    o.primary.Some? ==>
      && o.primary.value < |o.props| && !o.props[o.primary.value].list
      && o.props[o.primary.value].base in {Plain(Int), Plain(Text)}
  }

  /** What schema validation guarantees. */
  predicate SchemaOk(e: Env) {
    forall t :: t in e.schema ==>
      KeyOk(e.schema[t]) && forall i :: 0 <= i < |e.schema[t].props| ==> PropertyOk(e, e.schema[t].props[i])
  }

  predicate RowsShaped(rows: seq<Row>, n: nat) {
    forall r :: 0 <= r < |rows| ==> |rows[r]| == n
  }

  /** Every table has one cell per property in each row. */
  ghost predicate Shaped(e: Env, s: Store) {
    forall t :: t in e.schema ==> t in s && RowsShaped(s[t], |e.schema[t].props|)
  }

  ghost predicate Grows(s: Store, s': Store) {
    forall t :: t in s ==> t in s' && |s[t]| <= |s'[t]|
  }

  /** A place in the tables. */
  ghost predicate Place(e: Env, s: Store, t: string, row: nat, i: nat) {
    Shaped(e, s) && t in e.schema && row < |s[t]| && i < |e.schema[t].props|
  }

  // ---------- reading and writing tables ----------

  function Elems(c: Cell): seq<Cell> {
    if c.Many? then c.cells else []
  }

  function Edited(c: Cell, edit: ListEdit): Cell {
    var cells := Elems(c);
    match edit
    case Clear => Many([])
    case Push(x) => Many(cells + [x])
    case SetAt(k, x) => if k < |cells| then Many(cells[k := x]) else c
    case RemoveAt(k) => if k < |cells| then Many(cells[..k] + cells[k + 1..]) else c
  }

  ghost predicate Fits(e: Env, s: Store, w: Write) {
    match w
    case Append(t, cells) => t in e.schema && t in s && |cells| == |e.schema[t].props|
    case Put(t, row, i, _) => Place(e, s, t, row, i)
    case Edit(t, row, i, _) => Place(e, s, t, row, i)
  }

  function Apply(e: Env, s: Store, w: Write): (s': Store)
    requires Shaped(e, s) && Fits(e, s, w)
    ensures Shaped(e, s') && Grows(s, s')
  {
    match w
    case Append(t, cells) => s[t := s[t] + [cells]]
    case Put(t, row, i, c) => s[t := s[t][row := s[t][row][i := c]]]
    case Edit(t, row, i, edit) => s[t := s[t][row := s[t][row][i := Edited(s[t][row][i], edit)]]]
  }

  function Do(e: Env, st: State, w: Write): (r: State)
    requires Shaped(e, st.store) && Fits(e, st.store, w)
    ensures Shaped(e, r.store) && Grows(st.store, r.store)
  {
    State(Apply(e, st.store, w), st.log + [w])
  }

  /** The value a null cell reads as, if any. A null floating-point number reads as one
      that differs from every number; strings, data and dates can tell a null. */
  function EmptyRead(e: Env, kind: Kind): Option<Scalar> {
    match kind
    case Bool => if Bool in e.nullReads then Some(e.nullReads[Bool]) else None
    case Int => if Int in e.nullReads then Some(e.nullReads[Int]) else None
    case _ => None
  }

  function Read(e: Env, kind: Kind, c: Cell): Option<Scalar> {
    match c
    case One(s) => Some(s)
    case _ => EmptyRead(e, kind)
  }

  /** The value of a cell in a row that was just added. */
  function InitialCell(p: Property): Cell {
    if p.list then Many([])
    else if p.nullable || !p.base.Plain? then Nil
    else One(Scalar(p.base.kind, 0))
  }

  function InitialRow(props: seq<Property>): (r: Row)
    ensures |r| == |props| && forall i :: 0 <= i < |props| ==> r[i] == InitialCell(props[i])
  {
    seq(|props|, i requires 0 <= i < |props| => InitialCell(props[i]))
  }

  /** The first row with the cell in the given column. */
  function FindFirst(rows: seq<Row>, col: nat, key: Cell): (r: Option<nat>)
    requires forall k :: 0 <= k < |rows| ==> col < |rows[k]|
    ensures r.Some? ==> r.value < |rows| && rows[r.value][col] == key
    ensures r.Some? ==> forall k :: 0 <= k < r.value ==> rows[k][col] != key
    ensures r.None? ==> forall k :: 0 <= k < |rows| ==> rows[k][col] != key
  {
    if rows == [] then None
    else if rows[0][col] == key then Some(0)
    else
      var r := FindFirst(rows[1..], col, key);
      if r.Some? then
        assert forall k :: 0 < k < r.value + 1 ==> rows[k] == rows[1..][k - 1];
        Some(r.value + 1)
      else
        assert forall k :: 0 < k < |rows| ==> rows[k] == rows[1..][k - 1];
        None
  }

  // ---------- values ----------

  /** The field supplied for a property, if any. */
  function Field(v: Value, i: nat): Option<Value>
    requires v.Obj?
  {
    if i < |v.fields| then v.fields[i] else None
  }

  /** How deeply objects are nested. */
  ghost function Depth(v: Value): (d: nat)
    decreases v, 1
  {
    match v
    case Obj(fields, _) => 1 + FieldsDepth(v, fields)
    case Items(items) => ItemsDepth(v, items)
    case _ => 0
  }

  ghost function FieldsDepth(v: Value, fields: seq<Option<Value>>): (d: nat)
    requires forall i :: 0 <= i < |fields| && fields[i].Some? ==> fields[i].value < v
    ensures forall i :: 0 <= i < |fields| && fields[i].Some? ==> Depth(fields[i].value) <= d
    decreases v, 0, |fields|
  {
    if fields == [] then 0
    else
      var rest := FieldsDepth(v, fields[1..]);
      var first := if fields[0].Some? then Depth(fields[0].value) else 0;
      assert forall i :: 0 < i < |fields| ==> fields[i] == fields[1..][i - 1];
      if first < rest then rest else first
  }

  ghost function ItemsDepth(v: Value, items: seq<Value>): (d: nat)
    requires forall i :: 0 <= i < |items| ==> items[i] < v
    ensures forall i :: 0 <= i < |items| ==> Depth(items[i]) <= d
    decreases v, 0, |items|
  {
    if items == [] then 0
    else
      var rest, first := ItemsDepth(v, items[1..]), Depth(items[0]);
      assert forall i :: 0 < i < |items| ==> items[i] == items[1..][i - 1];
      if first < rest then rest else first
  }

  lemma {:induction false} FlatDepth(v: Value)
    requires Flat(v)
    ensures Depth(v) == 0
  {
    if v.Items? {
      FlatItemsDepth(v, v.items);
    }
  }

  lemma {:induction false} FlatItemsDepth(v: Value, items: seq<Value>)
    requires forall i :: 0 <= i < |items| ==> items[i].Val? && items[i] < v
    ensures ItemsDepth(v, items) == 0
  {
    if items != [] {
      FlatItemsDepth(v, items[1..]);
    }
  }

  // ---------- the operations ----------

  datatype Lookup = Found(row: Option<nat>, key: Cell) | NotFound(error: Error)

  /** `get_for_primary_key_impl`. */
  function FindKey(rows: seq<Row>, p: Property, col: nat, v: Value): Lookup
    requires p.base.Plain?
    requires forall k :: 0 <= k < |rows| ==> col < |rows[k]|
  {
    if v.Null? then
      if p.nullable then Found(FindFirst(rows, col, Nil), Nil) else NotFound(NullKey)
    else if v.Val? && v.scalar.kind == p.base.kind then Found(FindFirst(rows, col, One(v.scalar)), One(v.scalar))
    else NotFound(BadValue)
  }

  /** The value a new object's key has: supplied, by default, or null. */
  function KeyValue(p: Property, v: Value, col: nat): Option<Value>
    requires v.Obj?
  {
    if Field(v, col).Some? then Field(v, col)
    else if p.default.Some? then p.default
    else if p.nullable then Some(Null)
    else None
  }

  /** `Object::create`. */
  function Create(e: Env, st: State, t: string, v: Value, update: bool, diff: bool, current: Option<nat>): (r: Result)
    requires SchemaOk(e) && Shaped(e, st.store) && t in e.schema
    ensures Shaped(e, r.state.store) && Grows(st.store, r.state.store)
    ensures r.error.None? ==> r.row < |r.state.store[t]|
    decreases Depth(v), 2, 0
  {
    var props, primary, rows := e.schema[t].props, e.schema[t].primary, st.store[t];
    match primary
    case Some(col) =>
      if !v.Obj? then Result(st, Some(BadValue), 0) else
      var kv := KeyValue(props[col], v, col);
      if kv.None? then Result(st, Some(MissingValue), 0) else
      (match FindKey(rows, props[col], col, kv.value)
       case NotFound(error) => Result(st, Some(error), 0)
       case Found(None, key) =>
         Populate(e, Do(e, st, Append(t, InitialRow(props)[col := key])), t, |rows|, v, 0, true, true, update, diff)
       case Found(Some(row), _) =>
         if update then Populate(e, st, t, row, v, 0, false, true, update, diff)
         else if e.migrating then
           Populate(e, Do(e, st, Append(t, InitialRow(props))), t, |rows|, v, 0, true, false, update, diff)
         else Result(st, Some(DuplicateKey), 0))
    case None =>
      if diff && current.Some? && current.value < |rows| then
        Populate(e, st, t, current.value, v, 0, false, true, update, diff)
      else
        Populate(e, Do(e, st, Append(t, InitialRow(props))), t, |rows|, v, 0, true, true, update, diff)
  }

  /** The populate loop of `Object::create`, from property `i` on. */
  function Populate(e: Env, st: State, t: string, row: nat, v: Value, i: nat,
                    created: bool, skipPrimary: bool, update: bool, diff: bool): (r: Result)
    requires SchemaOk(e) && Shaped(e, st.store) && t in e.schema && row < |st.store[t]| && i <= |e.schema[t].props|
    ensures Shaped(e, r.state.store) && Grows(st.store, r.state.store)
    ensures r.error.None? ==> r.row < |r.state.store[t]| && r.row == row
    decreases Depth(v), 1, |e.schema[t].props| - i
  {
    if i == |e.schema[t].props| then Result(st, None, row)
    else if skipPrimary && e.schema[t].primary == Some(i) then
      Populate(e, st, t, row, v, i + 1, created, skipPrimary, update, diff)
    else if !v.Obj? then Result(st, Some(BadValue), 0)
    else
      var p := e.schema[t].props[i];
      match Supplied(e.schema[t], v, i, created)
      case NotSet => Populate(e, st, t, row, v, i + 1, created, skipPrimary, update, diff)
      case Refused => Result(st, Some(MissingValue), 0)
      case Set(x, isDefault) =>
        assert Depth(x) < Depth(v) by { FieldSmaller(e.schema[t], v, i, created); }
        var r := SetProp(e, st, t, row, i, x, update, diff, isDefault);
        if r.error.Some? then r
        else Populate(e, r.state, t, row, v, i + 1, created, skipPrimary, update, diff)
  }

  datatype Supply = NotSet | Refused | Set(value: Value, isDefault: bool)

  /** What the populate loop does about a property: leave it, refuse the object, or
      write a supplied or default value. */
  function Supplied(o: ObjectSchema, v: Value, i: nat, created: bool): Supply
    requires v.Obj? && i < |o.props|
  {
    var p, f := o.props[i], Field(v, i);
    if f.None? && !created then NotSet else
    var x := if f.Some? then f else p.default;
    if (x.None? || x.value.Null?) && !p.nullable && !p.list && (o.primary == Some(i) || !v.allowMissing) then Refused
    else if x.None? then NotSet
    else Set(x.value, f.None?)
  }

  lemma {:induction false} FieldSmaller(o: ObjectSchema, v: Value, i: nat, created: bool)
    requires v.Obj? && i < |o.props| && Supplied(o, v, i, created).Set?
    requires o.props[i].default.Some? ==> Flat(o.props[i].default.value)
    ensures Depth(Supplied(o, v, i, created).value) < Depth(v)
  {
    if Field(v, i).None? {
      FlatDepth(o.props[i].default.value);
    } else {
      assert v.fields[i].value < v;
    }
  }

  /** `Object::set_property_value_impl`. */
  function SetProp(e: Env, st: State, t: string, row: nat, i: nat, v: Value,
                   update: bool, diff: bool, isDefault: bool): (r: Result)
    requires SchemaOk(e) && Place(e, st.store, t, row, i)
    ensures Shaped(e, r.state.store) && Grows(st.store, r.state.store)
    decreases Depth(v), 6, 0
  {
    var p, cell := e.schema[t].props[i], st.store[t][row][i];
    if p.nullable && v.Null? then
      if (diff && cell.Nil?) || (p.base.Object? && isDefault) then Result(st, None, row)
      else Result(Do(e, st, Put(t, row, i, Nil)), None, row)
    else if p.list then Assign(e, st, t, row, i, v, update, diff)
    else
      match p.base
      case Any => Result(st, Some(NotSupported), 0)
      case Object(_) =>
        var u := Unbox(e, st, p.base, v, update, diff, LinkRow(cell));
        if u.error.Some? then Result(u.state, u.error, 0)
        else if diff && cell == u.cell then Result(u.state, None, row)
        else Result(Do(e, u.state, Put(t, row, i, u.cell)), None, row)
      case Plain(kind) =>
        var u := Unbox(e, st, p.base, v, update, diff, None);
        if u.error.Some? then Result(u.state, u.error, 0)
        else if diff && Read(e, kind, cell) == Some(u.cell.scalar) then Result(u.state, None, row)
        else Result(Do(e, u.state, Put(t, row, i, u.cell)), None, row)
  }

  function LinkRow(c: Cell): Option<nat> {
    if c.Link? then Some(c.row) else None
  }

  /** `unbox`: a plain value by itself; for a link, the stored object or a new one. */
  function Unbox(e: Env, st: State, base: Base, v: Value, update: bool, diff: bool, current: Option<nat>): (r: Unboxed)
    requires SchemaOk(e) && Shaped(e, st.store) && (base.Object? ==> base.target in e.schema)
    ensures Shaped(e, r.state.store) && Grows(st.store, r.state.store)
    ensures r.error.None? ==> if base.Plain? then r.cell.One? && r.cell.scalar.kind == base.kind else r.cell.Link?
    decreases Depth(v), 3, 0
  {
    match base
    case Plain(kind) =>
      if v.Val? && v.scalar.kind == kind then Unboxed(st, None, One(v.scalar)) else Unboxed(st, Some(BadValue), Nil)
    case Object(target) =>
      if v.Managed? then Unboxed(st, None, Link(v.row))
      else
        var r := Create(e, st, target, v, update, diff, current);
        Unboxed(r.state, r.error, Link(r.row))
    case Any => Unboxed(st, Some(NotSupported), Nil)
  }

  /** `List::assign`. */
  function Assign(e: Env, st: State, t: string, row: nat, i: nat, v: Value, update: bool, diff: bool): (r: Result)
    requires SchemaOk(e) && Place(e, st.store, t, row, i)
    ensures Shaped(e, r.state.store) && Grows(st.store, r.state.store)
    decreases Depth(v), 5, 0
  {
    if v == ListOf(t, row, i) then Result(st, None, row)
    else if v.Null? then Result(Do(e, st, Edit(t, row, i, Clear)), None, row)
    else
      var start := if diff then st else Do(e, st, Edit(t, row, i, Clear));
      if !v.Items? then Result(start, Some(BadValue), 0)
      else AssignFrom(e, start, t, row, i, v, 0, if diff then |Elems(st.store[t][row][i])| else 0, update, diff)
  }

  /** The element loop of `List::assign` from element `k` on, and the trimming loop
      after it; `size` is the length of the list at the start. */
  function AssignFrom(e: Env, st: State, t: string, row: nat, i: nat, v: Value, k: nat, size: nat,
                      update: bool, diff: bool): (r: Result)
    requires SchemaOk(e) && Place(e, st.store, t, row, i) && v.Items? && k <= |v.items|
    ensures Shaped(e, r.state.store) && Grows(st.store, r.state.store)
    decreases Depth(v), 4, |v.items| - k
  {
    if k == |v.items| then
      if diff && k < size then Trim(e, st, t, row, i, k, size - k) else Result(st, None, row)
    else
      var r := if k < size then SetElement(e, st, t, row, i, v, k, update) else AddElement(e, st, t, row, i, v, k, update);
      if r.error.Some? then r
      else AssignFrom(e, r.state, t, row, i, v, k + 1, size, update, diff)
  }

  /** An object of another type cannot go into a list. */
  predicate Misplaced(base: Base, v: Value) {
    base.Object? && v.Managed? && v.type_ != base.target
  }

  /** `List::add`. */
  function AddElement(e: Env, st: State, t: string, row: nat, i: nat, v: Value, k: nat, update: bool): (r: Result)
    requires SchemaOk(e) && Place(e, st.store, t, row, i) && v.Items? && k < |v.items|
    ensures Shaped(e, r.state.store) && Grows(st.store, r.state.store)
    decreases Depth(v), 4, 0
  {
    var base := e.schema[t].props[i].base;
    assert Depth(v.items[k]) <= Depth(v) by { ItemSmaller(v, k); }
    var u := Unbox(e, st, base, v.items[k], update, false, None);
    if u.error.Some? then Result(u.state, u.error, 0)
    else if Misplaced(base, v.items[k]) then Result(u.state, Some(WrongType), 0)
    else Result(Do(e, u.state, Edit(t, row, i, Push(u.cell))), None, row)
  }

  lemma {:induction false} ItemSmaller(v: Value, k: nat)
    requires v.Items? && k < |v.items|
    ensures Depth(v.items[k]) <= Depth(v)
  {
  }

  /** `List::set_if_different`. */
  function SetElement(e: Env, st: State, t: string, row: nat, i: nat, v: Value, k: nat, update: bool): (r: Result)
    requires SchemaOk(e) && Place(e, st.store, t, row, i) && v.Items? && k < |v.items|
    ensures Shaped(e, r.state.store) && Grows(st.store, r.state.store)
    decreases Depth(v), 4, 0
  {
    var base, cells := e.schema[t].props[i].base, Elems(st.store[t][row][i]);
    if k >= |cells| then Result(st, Some(OutOfBounds), 0) else
    assert Depth(v.items[k]) <= Depth(v) by { ItemSmaller(v, k); }
    var u := Unbox(e, st, base, v.items[k], update, true, LinkRow(cells[k]));
    if u.error.Some? then Result(u.state, u.error, 0)
    else if u.cell == cells[k] && !Misplaced(base, v.items[k]) then Result(u.state, None, row)
    else if Misplaced(base, v.items[k]) then Result(u.state, Some(WrongType), 0)
    else if k >= |Elems(u.state.store[t][row][i])| then Result(u.state, Some(OutOfBounds), 0)
    else Result(Do(e, u.state, Edit(t, row, i, SetAt(k, u.cell))), None, row)
  }

  /** The trimming loop: removes at index `k`, `n` times. */
  function Trim(e: Env, st: State, t: string, row: nat, i: nat, k: nat, n: nat): (r: Result)
    requires Place(e, st.store, t, row, i)
    ensures Shaped(e, r.state.store) && Grows(st.store, r.state.store)
    decreases n
  {
    if n == 0 then Result(st, None, row)
    else if k >= |Elems(st.store[t][row][i])| then Result(st, Some(OutOfBounds), 0)
    else Trim(e, Do(e, st, Edit(t, row, i, RemoveAt(k))), t, row, i, k, n - 1)
  }

  /** `Object::set_property_value` on a stored object. */
  function SetPropertyValue(e: Env, st: State, t: string, row: nat, i: nat, v: Value, update: bool): (r: Result)
    requires SchemaOk(e) && Place(e, st.store, t, row, i)
    ensures Shaped(e, r.state.store) && Grows(st.store, r.state.store)
  {
    if e.schema[t].primary == Some(i) && !e.migrating then Result(st, Some(ModifyKey), 0)
    else SetProp(e, st, t, row, i, v, update, false, false)
  }
}
