/** The accessor layer as it runs: object creation, property writes and list
    assignment on the tables of a write transaction, in place. Each method is proved
    to do what its specification in `Records` says. */
module Accessors {
  import opened Common
  import opened Records

  class Transaction {
    const e: Env
    /** The tables, and the writes made to them so far. */
    var state: State

    constructor (env: Env, store: Store)
      ensures e == env && state == State(store, [])
    {
      e := env;
      state := State(store, []);
    }

    ghost predicate Ready()
      reads this
    {
      SchemaOk(e) && Shaped(e, state.store)
    }

    method Perform(w: Write)
      requires Ready() && Fits(e, state.store, w)
      modifies this
      ensures Ready() && state == Do(e, old(state), w)
    {
      state := Do(e, state, w);
    }

    method CreateObject(t: string, v: Value, update: bool, diff: bool, current: Option<nat>)
      returns (error: Option<Error>, row: nat)
      requires Ready() && t in e.schema
      modifies this
      ensures Ready()
      ensures Result(state, error, row) == Create(e, old(state), t, v, update, diff, current)
      decreases Depth(v), 2, 0
    {
      hide Shaped, Do, Populate, FindFirst, SchemaOk, PropertyOk, InitialRow, Supplied;
      var o := e.schema[t];
      SchemaFacts(e, t);
      RowWidth(e, state.store, t);
      var created, skipPrimary := false, true;
      error, row := None, 0;
      if o.primary.Some? {
        var col := o.primary.value;
        if !v.Obj? {
          return Some(BadValue), 0;
        }
        var key := KeyValue(o.props[col], v, col);
        if key.None? {
          return Some(MissingValue), 0;
        }
        var found := FindKey(state.store[t], o.props[col], col, key.value);
        if found.NotFound? {
          return Some(found.error), 0;
        }
        if found.row.None? {
          created := true;
          row := |state.store[t]|;
          Perform(Append(t, InitialRow(o.props)[col := found.key]));
        } else if update {
          row := found.row.value;
        } else if e.migrating {
          row := |state.store[t]|;
          Perform(Append(t, InitialRow(o.props)));
          created := true;
          skipPrimary := false;
        } else {
          return Some(DuplicateKey), 0;
        }
      } else if diff && current.Some? && current.value < |state.store[t]| {
        row := current.value;
      } else {
        row := |state.store[t]|;
        Perform(Append(t, InitialRow(o.props)));
        created := true;
      }
      RowAppended(e, old(state), t);
      error := PopulateObject(t, row, v, created, skipPrimary, update, diff);
      if error.Some? {
        row := 0;
      }
    }

    /** The populate loop of `create`. */
    method PopulateObject(t: string, row: nat, v: Value, created: bool, skipPrimary: bool, update: bool, diff: bool)
      returns (error: Option<Error>)
      requires Ready() && t in e.schema && row < |state.store[t]|
      modifies this
      ensures Ready()
      ensures Result(state, error, if error.None? then row else 0)
        == Populate(e, old(state), t, row, v, 0, created, skipPrimary, update, diff)
      decreases Depth(v), 1, |e.schema[t].props| + 1
    {
      hide Shaped, SetProp, Supplied, Apply, SchemaOk;
      var o := e.schema[t];
      SchemaFacts(e, t);
      var i := 0;
      RowWidth(e, state.store, t);
      while i < |o.props|
        invariant i <= |o.props| && Ready() && t in state.store && row < |state.store[t]|
        invariant Populate(e, state, t, row, v, i, created, skipPrimary, update, diff)
          == Populate(e, old(state), t, row, v, 0, created, skipPrimary, update, diff)
      {
        if !(skipPrimary && o.primary == Some(i)) {
          if !v.Obj? {
            return Some(BadValue);
          }
          var supplied := Supplied(o, v, i, created);
          if supplied.Refused? {
            return Some(MissingValue);
          }
          if supplied.Set? {
            FieldSmaller(o, v, i, created);
            RowWidth(e, state.store, t);
            error := SetPropertyImpl(t, row, i, supplied.value, update, diff, supplied.isDefault);
            if error.Some? {
              return;
            }
          }
        }
        i := i + 1;
      }
      error := None;
    }

    method SetPropertyValueOf(t: string, row: nat, i: nat, v: Value, update: bool) returns (error: Option<Error>)
      requires Ready() && Place(e, state.store, t, row, i)
      modifies this
      ensures Ready()
      ensures Result(state, error, if error.None? then row else 0) == SetPropertyValue(e, old(state), t, row, i, v, update)
    {
      if e.schema[t].primary == Some(i) && !e.migrating {
        return Some(ModifyKey);
      }
      error := SetPropertyImpl(t, row, i, v, update, false, false);
    }

    method SetPropertyImpl(t: string, row: nat, i: nat, v: Value, update: bool, diff: bool, isDefault: bool)
      returns (error: Option<Error>)
      requires Ready() && Place(e, state.store, t, row, i)
      modifies this
      ensures Ready()
      ensures Result(state, error, if error.None? then row else 0)
        == SetProp(e, old(state), t, row, i, v, update, diff, isDefault)
      decreases Depth(v), 7, 0
    {
      hide Do, Create, AssignFrom, Records.Assign, Records.Unbox, SchemaOk, Shaped;
      error := None;
      SchemaFacts(e, t);
      StillPlace(e, state.store, t, row, i);
      var p, cell := e.schema[t].props[i], state.store[t][row][i];
      if p.nullable && v.Null? {
        if !diff || !cell.Nil? {
          if !p.base.Object? || !isDefault {
            Perform(Put(t, row, i, Nil));
          }
        }
        return;
      }
      if p.list {
        error := AssignList(t, row, i, v, update, diff);
        return;
      }
      error := SetSingle(t, row, i, v, update, diff, isDefault);
    }

    /** The type switch: a link or a plain value. */
    method SetSingle(t: string, row: nat, i: nat, v: Value, update: bool, diff: bool, isDefault: bool)
      returns (error: Option<Error>)
      requires Ready() && Place(e, state.store, t, row, i)
      requires var p := e.schema[t].props[i]; !p.list && !(p.nullable && v.Null?)
      modifies this
      ensures Ready()
      ensures Result(state, error, if error.None? then row else 0)
        == SetProp(e, old(state), t, row, i, v, update, diff, isDefault)
      decreases Depth(v), 6, 0
    {
      hide Do, Create, Records.Assign, Records.Unbox, SchemaOk, Shaped, Place, Grows, KeyOk;
      StillPlace(e, state.store, t, row, i);
      SchemaFacts(e, t);
      var p, cell := e.schema[t].props[i], state.store[t][row][i];
      match p.base
      case Any =>
        return Some(NotSupported);
      case Object(_) =>
        var c;
        error, c := UnboxValue(p.base, v, update, diff, LinkRow(cell));
        PlaceLater(e, old(state.store), state.store, t, row, i);
        if error.None? && (!diff || cell != c) {
          Perform(Put(t, row, i, c));
        }
      case Plain(kind) =>
        var c;
        error, c := UnboxValue(p.base, v, update, diff, None);
        PlaceLater(e, old(state.store), state.store, t, row, i);
        if error.None? && (!diff || Read(e, kind, cell) != Some(c.scalar)) {
          Perform(Put(t, row, i, c));
        }
    }

    method UnboxValue(base: Base, v: Value, update: bool, diff: bool, current: Option<nat>)
      returns (error: Option<Error>, c: Cell)
      requires Ready() && (base.Object? ==> base.target in e.schema)
      modifies this
      ensures Ready() && Unboxed(state, error, c) == Unbox(e, old(state), base, v, update, diff, current)
      decreases Depth(v), 3, 0
    {
      hide Create;
      match base
      case Plain(kind) =>
        if v.Val? && v.scalar.kind == kind {
          return None, One(v.scalar);
        }
        return Some(BadValue), Nil;
      case Object(target) =>
        if v.Managed? {
          return None, Link(v.row);
        }
        var row;
        error, row := CreateObject(target, v, update, diff, current);
        c := Link(row);
      case Any =>
        return Some(NotSupported), Nil;
    }

    method AssignList(t: string, row: nat, i: nat, v: Value, update: bool, diff: bool) returns (error: Option<Error>)
      requires Ready() && Place(e, state.store, t, row, i)
      modifies this
      ensures Ready()
      ensures Result(state, error, if error.None? then row else 0) == Assign(e, old(state), t, row, i, v, update, diff)
      decreases Depth(v), 5, 0
    {
      hide Do, AssignFrom;
      if v == ListOf(t, row, i) {
        return None;
      }
      if v.Null? {
        Perform(Edit(t, row, i, Clear));
        return None;
      }
      var size := 0;
      if diff {
        size := |Elems(state.store[t][row][i])|;
      } else {
        Perform(Edit(t, row, i, Clear));
      }
      if !v.Items? {
        return Some(BadValue);
      }
      error := AssignItems(t, row, i, v, size, update, diff);
    }

    /** The loops of `assign`: over the supplied elements, then over what is left of
        the old list. */
    method AssignItems(t: string, row: nat, i: nat, v: Value, size: nat, update: bool, diff: bool)
      returns (error: Option<Error>)
      requires Ready() && Place(e, state.store, t, row, i) && v.Items? && (!diff ==> size == 0)
      modifies this
      ensures Ready()
      ensures Result(state, error, if error.None? then row else 0)
        == AssignFrom(e, old(state), t, row, i, v, 0, size, update, diff)
      decreases Depth(v), 4, |v.items| + 1
    {
      hide Do, SetElement, AddElement, Shaped;
      var index, sz := 0, size;
      StillPlace(e, state.store, t, row, i);
      while index < |v.items|
        invariant index <= |v.items| && Ready() && Place(e, state.store, t, row, i)
        invariant AssignFrom(e, state, t, row, i, v, index, size, update, diff)
          == AssignFrom(e, old(state), t, row, i, v, 0, size, update, diff)
      {
        StillPlace(e, state.store, t, row, i);
        if index < sz {
          error := SetIfDifferent(t, row, i, v, index, update);
        } else {
          error := Add(t, row, i, v, index, update);
        }
        if error.Some? {
          return;
        }
        index := index + 1;
      }
      error := None;
      if diff {
        error := TrimList(t, row, i, index, sz);
      }
    }

    /** `while (index < sz) { remove(index); sz--; }`. */
    method TrimList(t: string, row: nat, i: nat, index: nat, size: nat) returns (error: Option<Error>)
      requires Ready() && Place(e, state.store, t, row, i)
      modifies this
      ensures Ready() && (index >= size ==> state == old(state) && error.None?)
      ensures index < size ==>
        Result(state, error, if error.None? then row else 0) == Trim(e, old(state), t, row, i, index, size - index)
    {
      hide Do, Shaped;
      var sz := size;
      while index < sz
        invariant Ready() && Place(e, state.store, t, row, i)
        invariant size <= index ==> sz == size && state == old(state)
        invariant index < size ==> index <= sz
        invariant index < size ==>
          Trim(e, state, t, row, i, index, sz - index) == Trim(e, old(state), t, row, i, index, size - index)
      {
        StillPlace(e, state.store, t, row, i);
        if index >= |Elems(state.store[t][row][i])| {
          return Some(OutOfBounds);
        }
        Perform(Edit(t, row, i, RemoveAt(index)));
        sz := sz - 1;
      }
      error := None;
    }

    method Add(t: string, row: nat, i: nat, v: Value, k: nat, update: bool) returns (error: Option<Error>)
      requires Ready() && Place(e, state.store, t, row, i) && v.Items? && k < |v.items|
      modifies this
      ensures Ready() && Place(e, state.store, t, row, i)
      ensures Result(state, error, if error.None? then row else 0) == AddElement(e, old(state), t, row, i, v, k, update)
      decreases Depth(v), 4, 0
    {
      hide Do, Records.Unbox;
      var base := e.schema[t].props[i].base;
      ItemSmaller(v, k);
      var c;
      error, c := UnboxValue(base, v.items[k], update, false, None);
      if error.Some? {
        return;
      }
      if Misplaced(base, v.items[k]) {
        return Some(WrongType);
      }
      Perform(Edit(t, row, i, Push(c)));
    }

    method SetIfDifferent(t: string, row: nat, i: nat, v: Value, k: nat, update: bool) returns (error: Option<Error>)
      requires Ready() && Place(e, state.store, t, row, i) && v.Items? && k < |v.items|
      modifies this
      ensures Ready() && Place(e, state.store, t, row, i)
      ensures Result(state, error, if error.None? then row else 0) == SetElement(e, old(state), t, row, i, v, k, update)
      decreases Depth(v), 4, 0
    {
      hide Do, Records.Unbox;
      var base, cells := e.schema[t].props[i].base, Elems(state.store[t][row][i]);
      ItemSmaller(v, k);
      if k >= |cells| {
        return Some(OutOfBounds);
      }
      var c;
      error, c := UnboxValue(base, v.items[k], update, true, LinkRow(cells[k]));
      if error.Some? {
        return;
      }
      if c != cells[k] || Misplaced(base, v.items[k]) {
        if Misplaced(base, v.items[k]) {
          return Some(WrongType);
        }
        if k >= |Elems(state.store[t][row][i])| {
          return Some(OutOfBounds);
        }
        Perform(Edit(t, row, i, SetAt(k, c)));
      }
    }
  }

  lemma {:induction false} SchemaFacts(e: Env, t: string)
    requires SchemaOk(e) && t in e.schema
    ensures KeyOk(e.schema[t]) && forall i :: 0 <= i < |e.schema[t].props| ==> PropertyOk(e, e.schema[t].props[i])
  {
  }

  lemma {:induction false} RowWidth(e: Env, s: Store, t: string)
    requires Shaped(e, s) && t in e.schema
    ensures t in s && forall k :: 0 <= k < |s[t]| ==> |s[t][k]| == |e.schema[t].props|
  {
  }

  lemma {:induction false} RowAppended(e: Env, st: State, t: string)
    requires Shaped(e, st.store) && t in e.schema
    ensures forall cells: Row :: |cells| == |e.schema[t].props| ==>
      |Do(e, st, Append(t, cells)).store[t]| == |st.store[t]| + 1
  {
  }

  lemma {:induction false} StillPlace(e: Env, s: Store, t: string, row: nat, i: nat)
    requires Place(e, s, t, row, i)
    ensures t in e.schema && i < |e.schema[t].props| && t in s && row < |s[t]| && i < |s[t][row]|
  {
  }

  lemma {:induction false} PlaceLater(e: Env, s: Store, s': Store, t: string, row: nat, i: nat)
    requires Place(e, s, t, row, i) && Shaped(e, s') && Grows(s, s')
    ensures Place(e, s', t, row, i)
  {
  }
}
