/** Write transactions: `write` with a block that may itself commit, cancel and begin,
    return or throw, against the committed store. */
module Transactions {
  import opened Common

  type Store<K, V> = map<K, V>

  /** Where an object is before it is added: nowhere, nowhere but observed, in this realm,
      in another one, or deleted. */
  datatype Home = Unmanaged | Observed | Here | Elsewhere | Invalidated

  datatype Edit<K, V> = Add(key: K, value: V, update: bool, home: Home) | Delete(key: K, mine: bool)

  /** One thing a block does. A commit may fail; the block then passes the error on or
      swallows it. */
  datatype Step<K, V> = Change(edit: Edit<K, V>) | Commit(ok: bool, passOn: bool) | Cancel | Begin

  /** The store on disk, the store as this realm sees it, and whether it is writing. */
  datatype Realm_<K, V> = Realm_(committed: Store<K, V>, visible: Store<K, V>, writing: bool)

  /** Returned, threw an error, or raised an exception that no Swift code can catch. */
  datatype Ending = Returned | Threw | Crashed

  datatype Outcome<K, V> = Outcome(realm: Realm_<K, V>, ending: Ending)

  /** An unmanaged object with a key that is taken is refused unless it updates; one that
      is in this realm already stays as it is; all others are refused. Only an object of
      this realm can be deleted; one that is gone by then stays so. */
  function Edited<K, V>(s: Store<K, V>, e: Edit<K, V>): Option<Store<K, V>> {
    match e
    case Add(key, value, update, home) =>
      if home.Here? then Some(s)
      else if !home.Unmanaged? || (key in s && !update) then None
      else Some(s[key := value])
    case Delete(key, mine) => if mine then Some(s - {key}) else None
  }

  // ---------- step by step ----------

  function Took<K, V>(r: Realm_<K, V>, step: Step<K, V>): Outcome<K, V> {
    match step
    case Change(e) =>
      if !r.writing || Edited(r.visible, e).None? then Outcome(r, Crashed)
      else Outcome(r.(visible := Edited(r.visible, e).value), Returned)
    case Begin => if r.writing then Outcome(r, Crashed) else Outcome(r.(writing := true), Returned)
    case Cancel => if !r.writing then Outcome(r, Crashed) else Outcome(Realm_(r.committed, r.committed, false), Returned)
    case Commit(ok, passOn) =>
      if !r.writing then Outcome(r, Crashed)
      else if ok then Outcome(Realm_(r.visible, r.visible, false), Returned)
      else Outcome(r, if passOn then Threw else Returned)
  }

  /** The block from a given step on; `throws` says how it ends if it gets there. */
  function Block<K, V>(r: Realm_<K, V>, steps: seq<Step<K, V>>, throws: bool): Outcome<K, V>
    decreases |steps|
  {
    if steps == [] then Outcome(r, if throws then Threw else Returned)
    else
      var o := Took(r, steps[0]);
      if o.ending.Returned? then Block(o.realm, steps[1..], throws) else o
  }

  /** `write`. The last commit may fail too. */
  function Written<K, V>(r: Realm_<K, V>, steps: seq<Step<K, V>>, throws: bool, lastOk: bool): Outcome<K, V> {
    var begun := Took(r, Begin);
    if begun.ending.Crashed? then begun else
    var o := Block(begun.realm, steps, throws);
    match o.ending
    case Crashed => o
    case Threw => if o.realm.writing then Outcome(Took(o.realm, Cancel).realm, Threw) else o
    case Returned => if o.realm.writing then Took(o.realm, Commit(lastOk, true)) else o
  }

  // ---------- what a block amounts to ----------

  /** The edits between a begin and the commit that kept them, for each such pair, and
      the edits since the last begin if nothing has ended it. */
  datatype Segments<K, V> = Segments(kept: seq<seq<Edit<K, V>>>, open: Option<seq<Edit<K, V>>>)

  /** Read off the steps alone, without any store. */
  function Parse<K, V>(s: Segments<K, V>, steps: seq<Step<K, V>>): Segments<K, V>
    decreases |steps|
  {
    if steps == [] then s
    else
      var next := match steps[0]
        case Change(e) => if s.open.Some? then s.(open := Some(s.open.value + [e])) else s
        case Begin => if s.open.None? then s.(open := Some([])) else s
        case Cancel => s.(open := None)
        case Commit(ok, _) => if ok && s.open.Some? then Segments(s.kept + [s.open.value], None) else s;
      Parse(next, steps[1..])
  }

  function AllEdited<K, V>(s: Store<K, V>, edits: seq<Edit<K, V>>): Option<Store<K, V>>
    decreases |edits|
  {
    if edits == [] then Some(s)
    else
      var before := AllEdited(s, edits[..|edits| - 1]);
      if before.None? then None else Edited(before.value, edits[|edits| - 1])
  }

  /** The store after the kept segments, in order. */
  function AllKept<K, V>(s: Store<K, V>, kept: seq<seq<Edit<K, V>>>): Option<Store<K, V>>
    decreases |kept|
  {
    if kept == [] then Some(s)
    else
      var before := AllKept(s, kept[..|kept| - 1]);
      if before.None? then None else AllEdited(before.value, kept[|kept| - 1])
  }

  /** The realm shows what the segments amount to over the first store. */
  ghost predicate Shows<K, V>(r: Realm_<K, V>, first: Store<K, V>, s: Segments<K, V>) {
    && AllKept(first, s.kept) == Some(r.committed)
    && r.writing == s.open.Some?
    && AllEdited(r.committed, if s.open.Some? then s.open.value else []) == Some(r.visible)
  }

  /** How many steps the block takes before it ends. */
  function Length<K, V>(r: Realm_<K, V>, steps: seq<Step<K, V>>): (n: nat)
    ensures n <= |steps|
    decreases |steps|
  {
    if steps == [] then 0
    else
      var o := Took(r, steps[0]);
      if o.ending.Returned? then 1 + Length(o.realm, steps[1..]) else 1
  }

  lemma {:induction false} TookShows<K, V>(r: Realm_<K, V>, first: Store<K, V>, s: Segments<K, V>, step: Step<K, V>)
    requires Shows(r, first, s) && !Took(r, step).ending.Crashed?
    ensures Shows(Took(r, step).realm, first, Parse(s, [step]))
  {
    assert [step][1..] == [];
    match step
    case Change(e) =>
      var edits := s.open.value + [e];
      assert edits[..|edits| - 1] == s.open.value;
    case Commit(ok, _) =>
      if ok {
        var kept := s.kept + [s.open.value];
        assert kept[..|kept| - 1] == s.kept;
      }
    case Begin =>
    case Cancel =>
  }

  lemma {:induction false} ParseOn<K, V>(s: Segments<K, V>, a: seq<Step<K, V>>, b: seq<Step<K, V>>)
    ensures Parse(s, a + b) == Parse(Parse(s, a), b)
    decreases |a|
  {
    if a == [] {
      assert a + b == b;
    } else {
      assert (a + b)[0] == a[0] && (a + b)[1..] == a[1..] + b;
      assert a == [a[0]] + a[1..] && [a[0]][1..] == [];
      assert Parse(Parse(s, [a[0]]), []) == Parse(s, [a[0]]);
      assert Parse(s, a) == Parse(Parse(s, [a[0]]), a[1..]);
      ParseOn(Parse(s, [a[0]]), a[1..], b);
    }
  }

  /** A block that does not crash leaves the kept segments committed, and shows the
      open one on top. */
  lemma {:induction false} BlockShows<K, V>(r: Realm_<K, V>, first: Store<K, V>, s: Segments<K, V>,
                                           steps: seq<Step<K, V>>, throws: bool)
    requires Shows(r, first, s) && !Block(r, steps, throws).ending.Crashed?
    ensures Shows(Block(r, steps, throws).realm, first, Parse(s, steps[..Length(r, steps)]))
    decreases |steps|
  {
    hide Shows;
    if steps == [] {
      assert steps[..0] == [];
    } else {
      TookShows(r, first, s, steps[0]);
      var o := Took(r, steps[0]);
      var n := Length(r, steps);
      if o.ending.Returned? {
        BlockShows(o.realm, first, Parse(s, [steps[0]]), steps[1..], throws);
        assert steps[..n] == [steps[0]] + steps[1..][..n - 1];
        ParseOn(s, [steps[0]], steps[1..][..n - 1]);
      } else {
        assert steps[..n] == [steps[0]];
      }
    }
  }

  /** What `write` reads of its block: the steps it took. */
  function Taken<K, V>(store: Store<K, V>, steps: seq<Step<K, V>>): Segments<K, V> {
    Parse(Segments([], Some([])), steps[..Length(Realm_(store, store, true), steps)])
  }

  /** `write` with a block that does not crash. If the block throws, the store is what
      the block itself committed - the store from before if it committed nothing - and
      no transaction is open. If it returns, what it left open is committed as well,
      unless that commit fails: then, and only then, a transaction stays open. */
  lemma {:induction false} WriteMeans<K, V>(store: Store<K, V>, steps: seq<Step<K, V>>, throws: bool, lastOk: bool)
    requires !Written(Realm_(store, store, false), steps, throws, lastOk).ending.Crashed?
    ensures var o, seg := Written(Realm_(store, store, false), steps, throws, lastOk), Taken(store, steps);
      var block := Block(Realm_(store, store, true), steps, throws);
      && (o.ending.Threw? <==> block.ending.Threw? || (seg.open.Some? && !lastOk))
      && (o.realm.writing <==> block.ending.Returned? && seg.open.Some? && !lastOk)
      && (!o.realm.writing ==> o.realm.visible == o.realm.committed)
      && Some(o.realm.committed) ==
         (if o.ending.Returned? && seg.open.Some? then AllKept(store, seg.kept + [seg.open.value]) else AllKept(store, seg.kept))
      && (seg.kept == [] && o.ending.Threw? ==> o.realm.committed == store)
  {
    var r := Realm_(store, store, true);
    BlockShows(r, store, Segments([], Some([])), steps, throws);
    var seg := Taken(store, steps);
    if seg.open.Some? {
      var kept := seg.kept + [seg.open.value];
      assert kept[..|kept| - 1] == seg.kept;
    }
  }

  // ---------- what is stored in the end ----------

  ghost function Lookup<K, V>(s: Store<K, V>, k: K): Option<V> {
    if k in s then Some(s[k]) else None
  }

  /** What the edits leave under a key: the value of the last unmanaged object added with
      it, nothing if it was deleted after that, and else what was there before. */
  ghost function Left<K, V>(before: Option<V>, edits: seq<Edit<K, V>>, k: K): Option<V>
    decreases |edits|
  {
    if edits == [] then before
    else
      match edits[|edits| - 1]
      case Add(key, value, _, home) =>
        if key == k && home == Unmanaged then Some(value) else Left(before, edits[..|edits| - 1], k)
      case Delete(key, _) => if key == k then None else Left(before, edits[..|edits| - 1], k)
  }

  /** An edit is refused: an object added that is deleted, observed or in another realm; a
      new object with a key that is taken, without leave to update; an object deleted that
      does not belong to this realm. */
  ghost predicate IsRefused<K, V>(s: Store<K, V>, e: Edit<K, V>) {
    match e
    case Add(key, _, update, home) =>
      home == Invalidated || home == Observed || home == Elsewhere || (home == Unmanaged && key in s && !update)
    case Delete(_, mine) => !mine
  }

  lemma {:induction false} EditedIff<K, V>(s: Store<K, V>, e: Edit<K, V>, k: K)
    ensures Edited(s, e).None? <==> IsRefused(s, e)
    ensures Edited(s, e).Some? ==> Lookup(Edited(s, e).value, k) == Left(Lookup(s, k), [e], k)
  {
    assert [e][..0] == [];
  }

  /** A change in a block raises exactly outside a transaction and if it is refused. */
  lemma {:induction false} ChangeRaisesIff<K, V>(r: Realm_<K, V>, e: Edit<K, V>, k: K)
    ensures Took(r, Change(e)).ending == if !r.writing || IsRefused(r.visible, e) then Crashed else Returned
    ensures !Took(r, Change(e)).ending.Crashed? ==>
      Lookup(Took(r, Change(e)).realm.visible, k) == Left(Lookup(r.visible, k), [e], k)
  {
    EditedIff(r.visible, e, k);
  }

  lemma {:induction false} AllEditedLeft<K, V>(s: Store<K, V>, edits: seq<Edit<K, V>>, k: K)
    requires AllEdited(s, edits).Some?
    ensures Lookup(AllEdited(s, edits).value, k) == Left(Lookup(s, k), edits, k)
    decreases |edits|
  {
    if edits != [] {
      var init, last := edits[..|edits| - 1], edits[|edits| - 1];
      AllEditedLeft(s, init, k);
      EditedIff(AllEdited(s, init).value, last, k);
      assert [last][..0] == [];
    }
  }

  ghost function Joined<K, V>(kept: seq<seq<Edit<K, V>>>): seq<Edit<K, V>>
    decreases |kept|
  {
    if kept == [] then [] else Joined(kept[..|kept| - 1]) + kept[|kept| - 1]
  }

  lemma {:induction false} LeftOn<K, V>(before: Option<V>, a: seq<Edit<K, V>>, b: seq<Edit<K, V>>, k: K)
    ensures Left(before, a + b, k) == Left(Left(before, a, k), b, k)
    decreases |b|
  {
    if b == [] {
      assert a + b == a;
    } else {
      assert (a + b)[..|a + b| - 1] == a + b[..|b| - 1];
      LeftOn(before, a, b[..|b| - 1], k);
    }
  }

  lemma {:induction false} AllKeptLeft<K, V>(s: Store<K, V>, kept: seq<seq<Edit<K, V>>>, k: K)
    requires AllKept(s, kept).Some?
    ensures Lookup(AllKept(s, kept).value, k) == Left(Lookup(s, k), Joined(kept), k)
    decreases |kept|
  {
    if kept != [] {
      var init, last := kept[..|kept| - 1], kept[|kept| - 1];
      AllKeptLeft(s, init, k);
      AllEditedLeft(AllKept(s, init).value, last, k);
      LeftOn(Lookup(s, k), Joined(init), last, k);
    }
  }

  /** The edits of a `write` that count: those the block committed itself, and if it
      returns, those it left open. */
  ghost function Counted<K, V>(seg: Segments<K, V>, ending: Ending): seq<Edit<K, V>> {
    Joined(seg.kept) + if ending.Returned? && seg.open.Some? then seg.open.value else []
  }

  /** After a `write` that does not crash the committed store has, under every key, what
      the edits that count leave there. */
  lemma {:induction false} WriteStores<K, V>(store: Store<K, V>, steps: seq<Step<K, V>>, throws: bool, lastOk: bool, k: K)
    requires !Written(Realm_(store, store, false), steps, throws, lastOk).ending.Crashed?
    ensures var o := Written(Realm_(store, store, false), steps, throws, lastOk);
      Lookup(o.realm.committed, k) == Left(Lookup(store, k), Counted(Taken(store, steps), o.ending), k)
  {
    hide Written, Taken;
    WriteMeans(store, steps, throws, lastOk);
    var o, seg := Written(Realm_(store, store, false), steps, throws, lastOk), Taken(store, steps);
    if o.ending.Returned? && seg.open.Some? {
      var kept := seg.kept + [seg.open.value];
      assert kept[..|kept| - 1] == seg.kept;
      AllKeptLeft(store, kept, k);
    } else {
      AllKeptLeft(store, seg.kept, k);
      assert Joined(seg.kept) + [] == Joined(seg.kept);
    }
  }

  /** A `write` inside a transaction - such as one left open by a failed commit - crashes
      before its block runs. */
  lemma {:induction false} WriteTwiceCrashes<K, V>(r: Realm_<K, V>, steps: seq<Step<K, V>>, throws: bool, lastOk: bool)
    ensures r.writing ==> Written(r, steps, throws, lastOk) == Outcome(r, Crashed)
  {
  }

  /** Nothing a block does before it crashes, throws or cancels reaches the store
      except by a commit: up to then the committed store is the kept segments. */
  lemma {:induction false} CommittedOnlyByCommit<K, V>(r: Realm_<K, V>, steps: seq<Step<K, V>>, throws: bool)
    requires forall i :: 0 <= i < |steps| ==> !(steps[i].Commit? && steps[i].ok)
    ensures Block(r, steps, throws).realm.committed == r.committed
    decreases |steps|
  {
    if steps != [] {
      assert !(steps[0].Commit? && steps[0].ok);
      CommittedOnlyByCommit(Took(r, steps[0]).realm, steps[1..], throws);
    }
  }

  // ---------- the realm as it runs ----------

  class Realm<K(==), V> {
    var committed: Store<K, V>
    var visible: Store<K, V>
    var isInWriteTransaction: bool

    function State(): Realm_<K, V>
      reads this
    {
      Realm_(committed, visible, isInWriteTransaction)
    }

    method BeginWrite() returns (e: Ending)
      modifies this
      ensures Outcome(State(), e) == Took(old(State()), Begin)
    {
      if isInWriteTransaction {
        return Crashed;
      }
      isInWriteTransaction := true;
      e := Returned;
    }

    method CommitWrite(ok: bool, passOn: bool) returns (e: Ending)
      modifies this
      ensures Outcome(State(), e) == Took(old(State()), Commit(ok, passOn))
    {
      if !isInWriteTransaction {
        return Crashed;
      }
      if !ok {
        return if passOn then Threw else Returned;
      }
      committed := visible;
      isInWriteTransaction := false;
      e := Returned;
    }

    method CancelWrite() returns (e: Ending)
      modifies this
      ensures Outcome(State(), e) == Took(old(State()), Cancel)
    {
      if !isInWriteTransaction {
        return Crashed;
      }
      visible := committed;
      isInWriteTransaction := false;
      e := Returned;
    }

    method Perform(edit: Edit<K, V>) returns (e: Ending)
      modifies this
      ensures Outcome(State(), e) == Took(old(State()), Change(edit))
      ensures e == if !old(isInWriteTransaction) || IsRefused(old(visible), edit) then Crashed else Returned
    {
      if !isInWriteTransaction {
        return Crashed;
      }
      match edit {
        case Add(key, value, update, home) =>
          if home.Invalidated? {
            return Crashed;
          }
          if home.Here? {
            return Returned;
          }
          if home.Elsewhere? || home.Observed? {
            return Crashed;
          }
          if key in visible && !update {
            return Crashed;
          }
          visible := visible[key := value];
        case Delete(key, mine) =>
          if !mine {
            return Crashed;
          }
          if key in visible {
            visible := visible - {key};
          }
      }
      e := Returned;
    }

    method RunBlock(steps: seq<Step<K, V>>, throws: bool) returns (e: Ending)
      modifies this
      ensures Outcome(State(), e) == Block(old(State()), steps, throws)
    {
      var i := 0;
      while i < |steps|
        invariant 0 <= i <= |steps|
        invariant Block(State(), steps[i..], throws) == Block(old(State()), steps, throws)
      {
        assert steps[i..][1..] == steps[i + 1..];
        match steps[i] {
          case Change(edit) => e := Perform(edit);
          case Commit(ok, passOn) => e := CommitWrite(ok, passOn);
          case Cancel => e := CancelWrite();
          case Begin => e := BeginWrite();
        }
        if !e.Returned? {
          return;
        }
        i := i + 1;
      }
      e := if throws then Threw else Returned;
    }

    method Write(steps: seq<Step<K, V>>, throws: bool, lastOk: bool) returns (e: Ending)
      modifies this
      ensures Outcome(State(), e) == Written(old(State()), steps, throws, lastOk)
    {
      e := BeginWrite();
      if e.Crashed? {
        return;
      }
      e := RunBlock(steps, throws);
      if e.Crashed? {
        return;
      }
      if e.Threw? {
        if isInWriteTransaction {
          var cancelled := CancelWrite();
        }
        return;
      }
      if isInWriteTransaction {
        e := CommitWrite(lastOk, true);
      }
    }
  }
}
