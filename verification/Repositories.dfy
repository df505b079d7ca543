/** The group and alarm repositories over one database: two views of a group's
    alarms - the group's own list and a filter on the alarms' `groupID` - and what
    keeps them in agreement. */
module Repositories {
  import opened Common

  datatype Weekday = Never | Monday | Tuesday | Wednesday | Thursday | Friday | Saturday | Sunday

  datatype Alarm = Alarm(alarmID: string, groupID: string, groupName: string, time: int, isEnabled: bool,
                         sound: string, loopSound: bool, repeatDays: seq<Weekday>)

  datatype Group = Group(groupID: string, groupName: string, interval: string, isEnabled: bool, alarmList: seq<Alarm>)

  /** Stored objects; the database keeps them by primary key. */
  datatype RealmAlarm = RealmAlarm(groupID: string, groupName: string, time: int, isEnabled: bool,
                                   sound: string, loopSound: bool, repeatDays: seq<int>)

  datatype RealmGroup = RealmGroup(groupName: string, interval: string, isEnabled: bool, alarmList: seq<string>)

  datatype Database = Database(groups: map<string, RealmGroup>, alarms: map<string, RealmAlarm>)

  // ---------- conversions ----------

  function RawValue(d: Weekday): int {
    match d
    case Never => 0
    case Monday => 1
    case Tuesday => 2
    case Wednesday => 3
    case Thursday => 4
    case Friday => 5
    case Saturday => 6
    case Sunday => 7
  }

  /** `Weekdays(rawValue:)`. */
  function FromRawValue(n: int): Option<Weekday> {
    match n
    case 0 => Some(Never)
    case 1 => Some(Monday)
    case 2 => Some(Tuesday)
    case 3 => Some(Wednesday)
    case 4 => Some(Thursday)
    case 5 => Some(Friday)
    case 6 => Some(Saturday)
    case 7 => Some(Sunday)
    case _ => None
  }

  function RawValues(days: seq<Weekday>): (r: seq<int>)
    ensures |r| == |days| && forall i :: 0 <= i < |days| ==> r[i] == RawValue(days[i])
  {
    seq(|days|, i requires 0 <= i < |days| => RawValue(days[i]))
  }

  /** The forced unwrap of every stored weekday succeeds. */
  predicate DaysOk(days: seq<int>) {
    forall i :: 0 <= i < |days| ==> FromRawValue(days[i]).Some?
  }

  function Days(days: seq<int>): (r: seq<Weekday>)
    requires DaysOk(days)
    ensures |r| == |days| && forall i :: 0 <= i < |days| ==> Some(r[i]) == FromRawValue(days[i])
  {
    seq(|days|, i requires 0 <= i < |days| => FromRawValue(days[i]).value)
  }

  function Entity(a: Alarm): RealmAlarm {
    RealmAlarm(a.groupID, a.groupName, a.time, a.isEnabled, a.sound, a.loopSound, RawValues(a.repeatDays))
  }

  function AlarmModel(id: string, a: RealmAlarm): Alarm
    requires DaysOk(a.repeatDays)
  {
    Alarm(id, a.groupID, a.groupName, a.time, a.isEnabled, a.sound, a.loopSound, Days(a.repeatDays))
  }

  /** The list of a group refers to stored alarms. */
  predicate ListOk(db: Database, g: RealmGroup) {
    forall i :: 0 <= i < |g.alarmList| ==> g.alarmList[i] in db.alarms
  }

  /** Every link leads to an alarm and every stored weekday is one. */
  predicate Sound(db: Database) {
    && AllDays(db.alarms)
    && (forall g :: g in db.groups ==> ListOk(db, db.groups[g]))
  }

  function GroupModel(db: Database, id: string): Group
    requires Sound(db) && id in db.groups
  {
    var g := db.groups[id];
    assert ListOk(db, g);
    Group(id, g.groupName, g.interval, g.isEnabled,
          seq(|g.alarmList|, i requires 0 <= i < |g.alarmList| => AlarmModel(g.alarmList[i], db.alarms[g.alarmList[i]])))
  }

  /** `fetchAllGroups`, regardless of order. */
  ghost function AllGroups(db: Database): set<Group>
    requires Sound(db)
  {
    set id | id in db.groups :: GroupModel(db, id)
  }

  /** `fetchAllAlarms`, regardless of order. */
  ghost function AlarmsOf(db: Database, groupID: string): set<Alarm>
    requires Sound(db)
  {
    set id | id in db.alarms && db.alarms[id].groupID == groupID :: AlarmModel(id, db.alarms[id])
  }

  // ---------- the operations ----------

  /** One call of a repository. Keys for new objects come from a generator. */
  datatype Call =
    | SaveGroup(group: Group, newID: string, alarmIDs: seq<string>)
    | RemoveGroup(groupID: string)
    | UpdateGroup(alarm: Alarm, id: string, alarmID: string)
    | EnableGroup(groupID: string, on: bool)
    | SaveAlarm(alarm: Alarm, alarmID: string)
    | EnableAlarm(alarmID: string, on: bool)
    | RemoveAlarm(alarmID: string)

  /** The string occurs nowhere in the database as an identifier. */
  ghost predicate Unused(db: Database, id: string) {
    && id !in db.groups && id !in db.alarms
    && (forall a :: a in db.alarms ==> db.alarms[a].groupID != id)
  }

  /** Generated keys are new: to the database, to each other, and to the caller. */
  ghost predicate FreshKeys(db: Database, c: Call) {
    match c
    case SaveGroup(g, id, ids) =>
      && Unused(db, id) && |ids| == |g.alarmList| && NoDup(ids) && id !in ids
      && (forall i :: 0 <= i < |ids| ==> Unused(db, ids[i]))
      && (forall i :: 0 <= i < |g.alarmList| ==> g.alarmList[i].groupID != id)
    case UpdateGroup(_, _, id) => Unused(db, id)
    case SaveAlarm(_, id) => Unused(db, id)
    case _ => true
  }

  /** The list without the deleted alarms. */
  function Without(list: seq<string>, gone: set<string>): (r: seq<string>)
    ensures forall x :: x in r <==> x in list && x !in gone
  {
    if list == [] then []
    else (if list[0] in gone then [] else [list[0]]) + Without(list[1..], gone)
  }

  /** Deleting alarms takes them out of every list that links to them. */
  function Delete(db: Database, gone: set<string>): Database {
    Database(map g | g in db.groups :: db.groups[g].(alarmList := Without(db.groups[g].alarmList, gone)),
             db.alarms - gone)
  }

  function Members(db: Database, groupID: string): set<string> {
    set id | id in db.alarms && db.alarms[id].groupID == groupID
  }

  function WithAlarms(alarms: map<string, RealmAlarm>, ids: seq<string>, list: seq<Alarm>): map<string, RealmAlarm>
    requires |ids| == |list|
    decreases |ids|
  {
    if ids == [] then alarms else WithAlarms(alarms[ids[0] := Entity(list[0])], ids[1..], list[1..])
  }

  function Step(db: Database, c: Call): Database
    requires FreshKeys(db, c)
  {
    match c
    case SaveGroup(g, id, ids) =>
      Database(db.groups[id := RealmGroup(g.groupName, g.interval, g.isEnabled, ids)],
               WithAlarms(db.alarms, ids, g.alarmList))
    case RemoveGroup(id) =>
      if id !in db.groups then db
      else Delete(Database(db.groups - {id}, db.alarms), Members(db, id))
    case UpdateGroup(a, id, alarmID) =>
      if id !in db.groups then db
      else Database(db.groups[id := db.groups[id].(alarmList := db.groups[id].alarmList + [alarmID])],
                    db.alarms[alarmID := Entity(a)])
    case EnableGroup(id, on) =>
      if id !in db.groups then db else db.(groups := db.groups[id := db.groups[id].(isEnabled := on)])
    case SaveAlarm(a, alarmID) => db.(alarms := db.alarms[alarmID := Entity(a)])
    case EnableAlarm(id, on) =>
      if id !in db.alarms then db else db.(alarms := db.alarms[id := db.alarms[id].(isEnabled := on)])
    case RemoveAlarm(id) => if id !in db.alarms then db else Delete(db, {id})
  }

  // ---------- the two views ----------

  /** The group's list holds exactly the alarms with its ID, once each. */
  ghost predicate Agrees(db: Database, g: string)
    requires g in db.groups
  {
    && NoDup(db.groups[g].alarmList)
    && forall id :: id in db.groups[g].alarmList <==> id in db.alarms && db.alarms[id].groupID == g
  }

  ghost predicate ViewsAgree(db: Database) {
    forall g :: g in db.groups ==> Agrees(db, g)
  }

  /** When a call leaves the views in agreement. */
  predicate KeepsViews(db: Database, c: Call) {
    match c
    case SaveGroup(g, _, _) => g.alarmList == []
    case UpdateGroup(a, id, _) => id !in db.groups || a.groupID == id
    case SaveAlarm(a, _) => a.groupID !in db.groups
    case _ => true
  }

  lemma {:induction false} WithoutDistinct(list: seq<string>, gone: set<string>)
    requires NoDup(list)
    ensures NoDup(Without(list, gone))
  {
    if list != [] {
      assert NoDup(list[1..]) by {
        forall i, j | 0 <= i < j < |list[1..]| ensures list[1..][i] != list[1..][j] {
          assert list[i + 1] != list[j + 1];
        }
      }
      WithoutDistinct(list[1..], gone);
      assert list[0] !in list[1..];
    }
  }

  lemma {:induction false} WithoutNothing(list: seq<string>, gone: set<string>)
    requires forall x :: x in list ==> x !in gone
    ensures Without(list, gone) == list
  {
    if list != [] {
      assert list[0] in list;
      WithoutNothing(list[1..], gone);
    }
  }

  lemma {:induction false} AddedAlarms(alarms: map<string, RealmAlarm>, ids: seq<string>, list: seq<Alarm>)
    requires |ids| == |list| && NoDup(ids)
    ensures var r := WithAlarms(alarms, ids, list);
      && (forall i :: 0 <= i < |ids| ==> ids[i] in r && r[ids[i]] == Entity(list[i]))
      && (forall x :: x !in ids ==> (x in r <==> x in alarms) && (x in r ==> r[x] == alarms[x]))
      && (forall x :: x in r <==> x in ids || x in alarms)
    decreases |ids|
  {
    if ids != [] {
      forall i, j | 0 <= i < j < |ids[1..]| ensures ids[1..][i] != ids[1..][j] {
        assert ids[i + 1] != ids[j + 1];
      }
      AddedAlarms(alarms[ids[0] := Entity(list[0])], ids[1..], list[1..]);
      var r := WithAlarms(alarms, ids, list);
      assert ids[0] !in ids[1..];
      forall i | 0 <= i < |ids| ensures ids[i] in r && r[ids[i]] == Entity(list[i]) {
        if i > 0 {
          assert ids[i] == ids[1..][i - 1] && list[i] == list[1..][i - 1];
        }
      }
    }
  }

  lemma {:induction false} DeleteAgrees(db: Database, gone: set<string>)
    requires ViewsAgree(db)
    ensures ViewsAgree(Delete(db, gone))
  {
    var next := Delete(db, gone);
    forall g | g in next.groups ensures Agrees(next, g) {
      assert Agrees(db, g);
      WithoutDistinct(db.groups[g].alarmList, gone);
    }
  }

  /** From a database whose views agree, one call leaves them in agreement exactly
      when its condition holds. */
  lemma {:induction false} StepAgreesIff(db: Database, c: Call)
    requires ViewsAgree(db) && FreshKeys(db, c)
    ensures ViewsAgree(Step(db, c)) <==> KeepsViews(db, c)
  {
    hide ViewsAgree;
    match c
    case SaveGroup(g, id, ids) => SaveAgreesIff(db, g, id, ids);
    case RemoveGroup(id) =>
      if id in db.groups {
        assert ViewsAgree(Database(db.groups - {id}, db.alarms)) by {
          LessGroups(db, id);
        }
        DeleteAgrees(Database(db.groups - {id}, db.alarms), Members(db, id));
      }
    case UpdateGroup(a, id, alarmID) => UpdateAgreesIff(db, a, id, alarmID);
    case EnableGroup(id, on) => EnableAgrees(db, c);
    case SaveAlarm(a, alarmID) => SaveAlarmAgreesIff(db, a, alarmID);
    case EnableAlarm(id, on) => EnableAgrees(db, c);
    case RemoveAlarm(id) => DeleteAgrees(db, {id});
  }

  lemma {:induction false} LessGroups(db: Database, id: string)
    requires ViewsAgree(db)
    ensures ViewsAgree(Database(db.groups - {id}, db.alarms))
  {
  }

  lemma {:induction false} EnableAgrees(db: Database, c: Call)
    requires ViewsAgree(db) && (c.EnableGroup? || c.EnableAlarm?)
    ensures ViewsAgree(Step(db, c))
  {
  }

  lemma {:induction false} SaveAgreesIff(db: Database, g: Group, id: string, ids: seq<string>)
    requires ViewsAgree(db) && FreshKeys(db, SaveGroup(g, id, ids))
    ensures ViewsAgree(Step(db, SaveGroup(g, id, ids))) <==> g.alarmList == []
  {
    var next := Step(db, SaveGroup(g, id, ids));
    AddedAlarms(db.alarms, ids, g.alarmList);
    if g.alarmList == [] {
      forall h | h in next.groups ensures Agrees(next, h) {
        if h != id {
          assert Agrees(db, h);
        }
      }
    } else {
      assert ids[0] in next.groups[id].alarmList && next.alarms[ids[0]].groupID != id;
      assert !Agrees(next, id);
    }
  }

  lemma {:induction false} UpdateAgreesIff(db: Database, a: Alarm, id: string, alarmID: string)
    requires ViewsAgree(db) && FreshKeys(db, UpdateGroup(a, id, alarmID))
    ensures ViewsAgree(Step(db, UpdateGroup(a, id, alarmID))) <==> id !in db.groups || a.groupID == id
  {
    var next := Step(db, UpdateGroup(a, id, alarmID));
    if id in db.groups {
      assert Agrees(db, id);
      var list := next.groups[id].alarmList;
      assert alarmID == list[|list| - 1];
      if a.groupID == id {
        forall h | h in next.groups ensures Agrees(next, h) {
          assert Agrees(db, h);
        }
      } else {
        assert alarmID in next.groups[id].alarmList && next.alarms[alarmID].groupID != id;
        assert !Agrees(next, id);
      }
    }
  }

  lemma {:induction false} SaveAlarmAgreesIff(db: Database, a: Alarm, alarmID: string)
    requires ViewsAgree(db) && FreshKeys(db, SaveAlarm(a, alarmID))
    ensures ViewsAgree(Step(db, SaveAlarm(a, alarmID))) <==> a.groupID !in db.groups
  {
  }

  // ---------- runs ----------

  ghost predicate RunOk(db: Database, cs: seq<Call>)
    decreases |cs|
  {
    cs != [] ==> FreshKeys(db, cs[0]) && RunOk(Step(db, cs[0]), cs[1..])
  }

  ghost function Run(db: Database, cs: seq<Call>): Database
    requires RunOk(db, cs)
    decreases |cs|
  {
    if cs == [] then db else Run(Step(db, cs[0]), cs[1..])
  }

  ghost predicate RunKeepsViews(db: Database, cs: seq<Call>)
    requires RunOk(db, cs)
    decreases |cs|
  {
    cs != [] ==> KeepsViews(db, cs[0]) && RunKeepsViews(Step(db, cs[0]), cs[1..])
  }

  lemma {:induction false} StepSound(db: Database, c: Call)
    requires Sound(db) && FreshKeys(db, c)
    ensures Sound(Step(db, c))
  {
    var next := Step(db, c);
    if c.SaveGroup? {
      AddedAlarms(db.alarms, c.alarmIDs, c.group.alarmList);
    }
    forall id | id in next.alarms ensures DaysOk(next.alarms[id].repeatDays) {
      if id in db.alarms {
        assert DaysOk(db.alarms[id].repeatDays);
      }
      if c.SaveGroup? && id in c.alarmIDs {
        var i :| 0 <= i < |c.alarmIDs| && c.alarmIDs[i] == id;
        assert next.alarms[c.alarmIDs[i]] == Entity(c.group.alarmList[i]);
      }
    }
    forall g | g in next.groups ensures ListOk(next, next.groups[g]) {
      ListStaysOk(db, c, g);
    }
  }

  lemma {:induction false} ListStaysOk(db: Database, c: Call, g: string)
    requires Sound(db) && FreshKeys(db, c) && g in Step(db, c).groups
    ensures ListOk(Step(db, c), Step(db, c).groups[g])
  {
    var next := Step(db, c);
    if c.SaveGroup? {
      AddedAlarms(db.alarms, c.alarmIDs, c.group.alarmList);
    }
    if g in db.groups {
      assert ListOk(db, db.groups[g]);
      forall i | 0 <= i < |next.groups[g].alarmList| ensures next.groups[g].alarmList[i] in next.alarms {
        var x := next.groups[g].alarmList[i];
        if x in db.groups[g].alarmList {
          var j :| 0 <= j < |db.groups[g].alarmList| && db.groups[g].alarmList[j] == x;
        }
      }
    }
  }

  /** In every database reached from an empty one, converting stored objects back
      never fails: every weekday is one and every link leads to an alarm. */
  lemma {:induction false} RunSound(db: Database, cs: seq<Call>)
    requires Sound(db) && RunOk(db, cs)
    ensures Sound(Run(db, cs))
    decreases |cs|
  {
    if cs != [] {
      StepSound(db, cs[0]);
      RunSound(Step(db, cs[0]), cs[1..]);
    }
  }

  /** Over every run of saving empty groups, adding alarms under their own group's ID,
      enabling and removing, a group's list and the filter on its ID show the same
      alarms. */
  lemma {:induction false} RunAgrees(db: Database, cs: seq<Call>)
    requires ViewsAgree(db) && RunOk(db, cs) && RunKeepsViews(db, cs)
    ensures ViewsAgree(Run(db, cs))
    decreases |cs|
  {
    if cs != [] {
      StepAgreesIff(db, cs[0]);
      RunAgrees(Step(db, cs[0]), cs[1..]);
    }
  }

  /** Agreement in terms of what the two fetches return. */
  lemma {:induction false} SameAlarms(db: Database, g: string)
    requires Sound(db) && g in db.groups && Agrees(db, g)
    ensures AlarmsOf(db, g) == (set a | a in GroupModel(db, g).alarmList)
    ensures NoDup(GroupModel(db, g).alarmList)
  {
    var list, ids := GroupModel(db, g).alarmList, db.groups[g].alarmList;
    assert ListOk(db, db.groups[g]);
    forall a ensures a in AlarmsOf(db, g) <==> a in list {
      if a in AlarmsOf(db, g) {
        var id :| id in db.alarms && db.alarms[id].groupID == g && a == AlarmModel(id, db.alarms[id]);
        var i :| 0 <= i < |ids| && ids[i] == id;
        assert list[i] == a;
      }
      if a in list {
        var i :| 0 <= i < |list| && list[i] == a;
        assert ids[i] in ids;
      }
    }
    forall i, j | 0 <= i < j < |list| ensures list[i] != list[j] {
      assert ids[i] != ids[j];
    }
  }

  /** Removing a group leaves no alarm with its ID and, when the views agreed, every
      other group and every other alarm as they were. */
  lemma {:induction false} RemoveGroupClean(db: Database, id: string)
    requires ViewsAgree(db) && id in db.groups
    ensures var next := Step(db, RemoveGroup(id));
      && (forall a :: a in next.alarms ==> next.alarms[a].groupID != id)
      && next.groups == db.groups - {id}
      && (forall a :: a in db.alarms && db.alarms[a].groupID != id ==> a in next.alarms && next.alarms[a] == db.alarms[a])
  {
    var next, gone := Step(db, RemoveGroup(id)), Members(db, id);
    forall g | g in db.groups && g != id ensures next.groups[g] == db.groups[g] {
      assert Agrees(db, g);
      WithoutNothing(db.groups[g].alarmList, gone);
    }
    assert next.groups == db.groups - {id};
  }

  /** After removing a group, fetching returns the same groups but for that one. */
  lemma {:induction false} FetchAfterRemove(db: Database, id: string)
    requires Sound(db) && ViewsAgree(db) && id in db.groups
    ensures Sound(Step(db, RemoveGroup(id)))
    ensures AllGroups(Step(db, RemoveGroup(id))) == AllGroups(db) - {GroupModel(db, id)}
  {
    hide ViewsAgree;
    var next := Step(db, RemoveGroup(id));
    StepSound(db, RemoveGroup(id));
    RemoveGroupClean(db, id);
    forall g | g in next.groups ensures GroupModel(next, g) == GroupModel(db, g) {
      SameModel(db, id, g);
    }
    forall x ensures x in AllGroups(next) <==> x in AllGroups(db) - {GroupModel(db, id)} {
      if x in AllGroups(db) - {GroupModel(db, id)} {
        var g :| g in db.groups && x == GroupModel(db, g);
        assert g in next.groups;
      }
      if x in AllGroups(next) {
        var g :| g in next.groups && x == GroupModel(next, g);
        assert x.groupID == g;
      }
    }
  }

  lemma {:induction false} SameModel(db: Database, id: string, g: string)
    requires Sound(db) && ViewsAgree(db) && id in db.groups && g in db.groups && g != id
    requires Sound(Step(db, RemoveGroup(id)))
    ensures g in Step(db, RemoveGroup(id)).groups
    ensures GroupModel(Step(db, RemoveGroup(id)), g) == GroupModel(db, g)
  {
    var next := Step(db, RemoveGroup(id));
    RemoveGroupClean(db, id);
    assert Agrees(db, g);
    var list := db.groups[g].alarmList;
    forall i | 0 <= i < |list| ensures list[i] in next.alarms && next.alarms[list[i]] == db.alarms[list[i]] {
      assert list[i] in list;
    }
    assert GroupModel(next, g).alarmList == GroupModel(db, g).alarmList;
  }

  /** The alarms with the generated keys in place of the given ones. */
  function Keyed(list: seq<Alarm>, ids: seq<string>): (r: seq<Alarm>)
    requires |ids| == |list|
    ensures |r| == |ids| && forall i :: 0 <= i < |ids| ==> r[i] == list[i].(alarmID := ids[i])
  {
    seq(|ids|, i requires 0 <= i < |ids| => list[i].(alarmID := ids[i]))
  }

  function Rekeyed(g: Group, id: string, ids: seq<string>): Group
    requires |ids| == |g.alarmList|
  {
    Group(id, g.groupName, g.interval, g.isEnabled, Keyed(g.alarmList, ids))
  }

  /** Up to the generated keys, a saved group comes back as it was given: alarms in
      order, weekdays in order. */
  lemma {:induction false} SaveRoundTrip(db: Database, g: Group, id: string, ids: seq<string>)
    requires Sound(db) && FreshKeys(db, SaveGroup(g, id, ids))
    ensures var next := Step(db, SaveGroup(g, id, ids));
      Sound(next) && id in next.groups && GroupModel(next, id) == Rekeyed(g, id, ids)
  {
    var next := Step(db, SaveGroup(g, id, ids));
    StepSound(db, SaveGroup(g, id, ids));
    AddedAlarms(db.alarms, ids, g.alarmList);
    var list := GroupModel(next, id).alarmList;
    forall i | 0 <= i < |ids| ensures list[i] == g.alarmList[i].(alarmID := ids[i]) {
      DaysBack(g.alarmList[i].repeatDays);
      assert next.alarms[ids[i]] == Entity(g.alarmList[i]);
    }
    assert list == Rekeyed(g, id, ids).alarmList;
  }

  /** Saving adds one group and one alarm for each in its list, and overwrites nothing. */
  lemma {:induction false} SaveAddsOnly(db: Database, g: Group, id: string, ids: seq<string>)
    requires FreshKeys(db, SaveGroup(g, id, ids))
    ensures var next := Step(db, SaveGroup(g, id, ids));
      && id !in db.groups && next.groups.Keys == db.groups.Keys + {id}
      && (forall h :: h in db.groups ==> next.groups[h] == db.groups[h])
      && (forall a :: a in ids ==> a !in db.alarms) && NoDup(ids) && |ids| == |g.alarmList|
      && next.alarms.Keys == db.alarms.Keys + (set x | x in ids)
      && (forall a :: a in db.alarms ==> next.alarms[a] == db.alarms[a])
  {
    AddedAlarms(db.alarms, ids, g.alarmList);
    forall a | a in ids ensures a !in db.alarms {
      var i :| 0 <= i < |ids| && ids[i] == a;
      assert Unused(db, ids[i]);
    }
  }

  lemma {:induction false} DaysBack(days: seq<Weekday>)
    ensures DaysOk(RawValues(days)) && Days(RawValues(days)) == days
  {
  }

  // ---------- what a caller sees ----------

  /** All groups and all alarms as the fetches return them, by identifier. */
  datatype View = View(groups: map<string, Group>, alarms: map<string, Alarm>)

  ghost function Seen(db: Database): View
    requires Sound(db)
  {
    View(map g | g in db.groups :: GroupModel(db, g), AlarmsSeen(db.alarms))
  }

  predicate AllDays(alarms: map<string, RealmAlarm>) {
    forall a :: a in alarms ==> DaysOk(alarms[a].repeatDays)
  }

  function AlarmsSeen(alarms: map<string, RealmAlarm>): map<string, Alarm>
    requires AllDays(alarms)
  {
    map a | a in alarms :: AlarmModel(a, alarms[a])
  }

  /** The alarms of a list that are not deleted. */
  function Others(list: seq<Alarm>, gone: set<string>): seq<Alarm> {
    if list == [] then []
    else (if list[0].alarmID in gone then [] else [list[0]]) + Others(list[1..], gone)
  }

  /** The list with one alarm switched on or off. */
  function Switched(list: seq<Alarm>, id: string, on: bool): seq<Alarm> {
    seq(|list|, i requires 0 <= i < |list| => if list[i].alarmID == id then list[i].(isEnabled := on) else list[i])
  }

  function WithModels(alarms: map<string, Alarm>, list: seq<Alarm>): map<string, Alarm>
    decreases |list|
  {
    if list == [] then alarms else WithModels(alarms[list[0].alarmID := list[0]], list[1..])
  }

  function Unlisted(v: View, gone: set<string>): View {
    View(map g | g in v.groups :: v.groups[g].(alarmList := Others(v.groups[g].alarmList, gone)), v.alarms - gone)
  }

  /** What a call does, in terms of the groups and alarms a caller sees. */
  function Told(v: View, c: Call): View
    requires c.SaveGroup? ==> |c.alarmIDs| == |c.group.alarmList|
  {
    match c
    case SaveGroup(g, id, ids) =>
      View(v.groups[id := Rekeyed(g, id, ids)], WithModels(v.alarms, Rekeyed(g, id, ids).alarmList))
    case RemoveGroup(id) =>
      if id !in v.groups then v
      else Unlisted(v.(groups := v.groups - {id}), set a | a in v.alarms && v.alarms[a].groupID == id)
    case UpdateGroup(a, id, alarmID) =>
      if id !in v.groups then v
      else
        var added := a.(alarmID := alarmID);
        View(v.groups[id := v.groups[id].(alarmList := v.groups[id].alarmList + [added])], v.alarms[alarmID := added])
    case EnableGroup(id, on) =>
      if id !in v.groups then v else v.(groups := v.groups[id := v.groups[id].(isEnabled := on)])
    case SaveAlarm(a, alarmID) => v.(alarms := v.alarms[alarmID := a.(alarmID := alarmID)])
    case EnableAlarm(id, on) =>
      if id !in v.alarms then v
      else View(map g | g in v.groups :: v.groups[g].(alarmList := Switched(v.groups[g].alarmList, id, on)),
                v.alarms[id := v.alarms[id].(isEnabled := on)])
    case RemoveAlarm(id) => if id !in v.alarms then v else Unlisted(v, {id})
  }

  predicate InAll(seen: map<string, Alarm>, ids: seq<string>) {
    forall i :: 0 <= i < |ids| ==> ids[i] in seen
  }

  function Looked(seen: map<string, Alarm>, ids: seq<string>): (r: seq<Alarm>)
    requires InAll(seen, ids)
    ensures |r| == |ids| && forall i :: 0 <= i < |ids| ==> r[i] == seen[ids[i]]
  {
    seq(|ids|, i requires 0 <= i < |ids| => seen[ids[i]])
  }

  lemma {:induction false} GroupSeen(db: Database, g: string)
    requires Sound(db) && g in db.groups
    ensures AllDays(db.alarms) && InAll(AlarmsSeen(db.alarms), db.groups[g].alarmList)
    ensures var s := db.groups[g];
      GroupModel(db, g) == Group(g, s.groupName, s.interval, s.isEnabled, Looked(AlarmsSeen(db.alarms), s.alarmList))
  {
    assert ListOk(db, db.groups[g]);
    assert GroupModel(db, g).alarmList == Looked(AlarmsSeen(db.alarms), db.groups[g].alarmList);
  }

  predicate Labelled(seen: map<string, Alarm>) {
    forall a :: a in seen ==> seen[a].alarmID == a
  }

  lemma {:induction false} LookedFront(seen: map<string, Alarm>, id: string, rest: seq<string>)
    requires InAll(seen, [id] + rest)
    ensures id in seen && InAll(seen, rest) && Looked(seen, [id] + rest) == [seen[id]] + Looked(seen, rest)
  {
    assert ([id] + rest)[0] == id;
    assert forall i :: 0 <= i < |rest| ==> ([id] + rest)[i + 1] == rest[i];
  }

  lemma {:induction false} OthersFront(a: Alarm, rest: seq<Alarm>, gone: set<string>)
    ensures Others([a] + rest, gone) == (if a.alarmID in gone then [] else [a]) + Others(rest, gone)
  {
    assert ([a] + rest)[1..] == rest;
  }

  lemma {:induction false} WithoutIn(seen: map<string, Alarm>, ids: seq<string>, gone: set<string>)
    requires InAll(seen, ids)
    ensures InAll(seen - gone, Without(ids, gone))
  {
    forall x | x in Without(ids, gone) ensures x in seen - gone {
    }
  }

  lemma {:induction false} LookedWithout(seen: map<string, Alarm>, ids: seq<string>, gone: set<string>)
    requires Labelled(seen) && InAll(seen, ids)
    ensures InAll(seen - gone, Without(ids, gone))
    ensures Looked(seen - gone, Without(ids, gone)) == Others(Looked(seen, ids), gone)
  {
    hide InAll, Looked, Others, Labelled;
    WithoutIn(seen, ids, gone);
    if ids == [] {
      NothingLooked(seen, gone);
    } else {
      var x, tail := ids[0], ids[1..];
      assert ids == [x] + tail;
      LookedFront(seen, x, tail);
      LookedWithout(seen, tail, gone);
      OthersFront(seen[x], Looked(seen, tail), gone);
      LabelOf(seen, x);
      if x !in gone {
        assert Without(ids, gone) == [x] + Without(tail, gone);
        LookedFront(seen - gone, x, Without(tail, gone));
      }
    }
  }

  lemma {:induction false} NothingLooked(seen: map<string, Alarm>, gone: set<string>)
    ensures InAll(seen, []) && InAll(seen - gone, []) && Looked(seen - gone, []) == Others(Looked(seen, []), gone)
  {
  }

  lemma {:induction false} LabelOf(seen: map<string, Alarm>, x: string)
    requires Labelled(seen) && x in seen
    ensures seen[x].alarmID == x
  {
  }

  lemma {:induction false} EntityBack(a: Alarm, id: string)
    ensures DaysOk(Entity(a).repeatDays) && AlarmModel(id, Entity(a)) == a.(alarmID := id)
  {
    DaysBack(a.repeatDays);
  }

  lemma {:induction false} DeleteSound(db: Database, gone: set<string>)
    requires Sound(db)
    ensures Sound(Delete(db, gone))
    ensures AlarmsSeen(db.alarms - gone) == AlarmsSeen(db.alarms) - gone && Labelled(AlarmsSeen(db.alarms))
  {
    var next := Delete(db, gone);
    forall g | g in next.groups ensures ListOk(next, next.groups[g]) {
      assert ListOk(db, db.groups[g]);
      forall x | x in next.groups[g].alarmList ensures x in next.alarms {
      }
    }
  }

  lemma {:induction false} DeleteGroupSeen(db: Database, gone: set<string>, g: string)
    requires Sound(db) && Sound(Delete(db, gone)) && g in db.groups
    ensures GroupModel(Delete(db, gone), g)
            == GroupModel(db, g).(alarmList := Others(GroupModel(db, g).alarmList, gone))
  {
    hide Sound, ListOk, InAll, Looked, AlarmsSeen, Without, Others;
    DeleteSound(db, gone);
    GroupSeen(db, g);
    GroupSeen(Delete(db, gone), g);
    LookedWithout(AlarmsSeen(db.alarms), db.groups[g].alarmList, gone);
  }

  lemma {:induction false} DeleteSeen(db: Database, gone: set<string>)
    requires Sound(db)
    ensures Sound(Delete(db, gone)) && Seen(Delete(db, gone)) == Unlisted(Seen(db), gone)
  {
    hide Sound, ListOk, GroupModel, AlarmsSeen, Others, Without;
    DeleteSound(db, gone);
    forall g | g in db.groups
      ensures GroupModel(Delete(db, gone), g)
              == GroupModel(db, g).(alarmList := Others(GroupModel(db, g).alarmList, gone))
    {
      DeleteGroupSeen(db, gone, g);
    }
    assert Seen(Delete(db, gone)).groups == Unlisted(Seen(db), gone).groups;
  }

  lemma {:induction false} EachSound(db: Database)
    requires Sound(db)
    ensures AllDays(db.alarms)
  {
  }

  /** A group whose row and alarms stay shows the same. */
  lemma {:induction false} SameShown(db: Database, next: Database, g: string)
    requires Sound(db) && Sound(next) && g in db.groups && g in next.groups && next.groups[g] == db.groups[g]
    requires forall a :: a in db.groups[g].alarmList && a in db.alarms ==> a in next.alarms && next.alarms[a] == db.alarms[a]
    ensures GroupModel(next, g) == GroupModel(db, g)
  {
    hide Sound, ListOk;
    GroupSeen(db, g);
    GroupSeen(next, g);
    var ids := db.groups[g].alarmList;
    forall i | 0 <= i < |ids| ensures next.alarms[ids[i]] == db.alarms[ids[i]] {
      assert ids[i] in ids;
    }
    assert Looked(AlarmsSeen(next.alarms), ids) == Looked(AlarmsSeen(db.alarms), ids);
  }

  lemma {:induction false} SavedGroups(db: Database, g: Group, id: string, ids: seq<string>)
    requires Sound(db) && FreshKeys(db, SaveGroup(g, id, ids)) && Sound(Step(db, SaveGroup(g, id, ids)))
    ensures Seen(Step(db, SaveGroup(g, id, ids))).groups == Seen(db).groups[id := Rekeyed(g, id, ids)]
  {
    hide Sound, ListOk, GroupModel, AlarmModel, FreshKeys, NoDup, WithAlarms;
    var next := Step(db, SaveGroup(g, id, ids));
    SaveRoundTrip(db, g, id, ids);
    SaveAddsOnly(db, g, id, ids);
    forall h | h in db.groups ensures GroupModel(next, h) == GroupModel(db, h) {
      SameShown(db, next, h);
    }
    assert Seen(next).groups == Seen(db).groups[id := Rekeyed(g, id, ids)];
  }

  lemma {:induction false} SavedAlarms(alarms: map<string, RealmAlarm>, ids: seq<string>, list: seq<Alarm>)
    requires AllDays(alarms) && |ids| == |list|
    ensures AllDays(WithAlarms(alarms, ids, list))
    ensures AlarmsSeen(WithAlarms(alarms, ids, list)) == WithModels(AlarmsSeen(alarms), Keyed(list, ids))
    decreases |ids|
  {
    hide AlarmModel, Entity;
    if ids != [] {
      var more := alarms[ids[0] := Entity(list[0])];
      EntityBack(list[0], ids[0]);
      assert AlarmsSeen(more) == AlarmsSeen(alarms)[ids[0] := list[0].(alarmID := ids[0])];
      SavedAlarms(more, ids[1..], list[1..]);
      assert Keyed(list, ids)[1..] == Keyed(list[1..], ids[1..]);
    }
  }

  lemma {:induction false} LessSeen(db: Database, id: string)
    requires Sound(db)
    ensures var less := Database(db.groups - {id}, db.alarms);
      Sound(less) && Seen(less).groups == Seen(db).groups - {id} && Seen(less).alarms == Seen(db).alarms
  {
    var less := Database(db.groups - {id}, db.alarms);
    forall g | g in less.groups ensures ListOk(less, less.groups[g]) {
      assert ListOk(db, db.groups[g]);
    }
    forall g | g in less.groups ensures GroupModel(less, g) == GroupModel(db, g) {
      SameShown(db, less, g);
    }
    assert Seen(less).groups == Seen(db).groups - {id};
  }

  lemma {:induction false} RemoveSeen(db: Database, id: string)
    requires Sound(db) && id in db.groups
    ensures Sound(Step(db, RemoveGroup(id))) && Seen(Step(db, RemoveGroup(id))) == Told(Seen(db), RemoveGroup(id))
  {
    hide Sound, ListOk, GroupModel, Delete, Unlisted;
    LessSeen(db, id);
    EachSound(db);
    assert Members(db, id) == (set a | a in Seen(db).alarms && Seen(db).alarms[a].groupID == id);
    DeleteSeen(Database(db.groups - {id}, db.alarms), Members(db, id));
    assert Seen(Database(db.groups - {id}, db.alarms)) == Seen(db).(groups := Seen(db).groups - {id});
  }

  lemma {:induction false} EnableGroupSeen(db: Database, id: string, on: bool)
    requires Sound(db) && Sound(Step(db, EnableGroup(id, on)))
    ensures Seen(Step(db, EnableGroup(id, on))) == Told(Seen(db), EnableGroup(id, on))
  {
    hide Sound, ListOk, GroupModel, AlarmModel, Looked;
    var c := EnableGroup(id, on);
    var next, told := Step(db, c), Told(Seen(db), c);
    EachSound(db);
    forall g | g in db.groups ensures GroupModel(next, g) == told.groups[g] {
      GroupSeen(db, g);
      GroupSeen(next, g);
    }
    assert Seen(next).groups == told.groups;
    assert Seen(next).alarms == told.alarms;
  }

  lemma {:induction false} SwitchedSeen(alarms: map<string, RealmAlarm>, id: string, on: bool)
    requires AllDays(alarms) && id in alarms
    ensures var next := alarms[id := alarms[id].(isEnabled := on)];
      && AllDays(next) && Labelled(AlarmsSeen(alarms))
      && AlarmsSeen(next) == AlarmsSeen(alarms)[id := AlarmsSeen(alarms)[id].(isEnabled := on)]
  {
  }

  lemma {:induction false} LookedSwitched(seen: map<string, Alarm>, ids: seq<string>, id: string, on: bool)
    requires Labelled(seen) && id in seen && InAll(seen, ids)
    ensures var next := seen[id := seen[id].(isEnabled := on)];
      InAll(next, ids) && Looked(next, ids) == Switched(Looked(seen, ids), id, on)
  {
  }

  lemma {:induction false} EnableAlarmSeen(db: Database, id: string, on: bool)
    requires Sound(db) && Sound(Step(db, EnableAlarm(id, on))) && id in db.alarms
    ensures Seen(Step(db, EnableAlarm(id, on))) == Told(Seen(db), EnableAlarm(id, on))
  {
    hide Sound, ListOk, InAll, Looked, GroupModel, AlarmsSeen, Switched, Labelled;
    var c := EnableAlarm(id, on);
    var next, told := Step(db, c), Told(Seen(db), c);
    EachSound(db);
    SwitchedSeen(db.alarms, id, on);
    assert id in Seen(db).alarms by {
      SeenKeys(db);
    }
    forall g | g in db.groups ensures GroupModel(next, g) == told.groups[g] {
      GroupSeen(db, g);
      GroupSeen(next, g);
      LookedSwitched(AlarmsSeen(db.alarms), db.groups[g].alarmList, id, on);
    }
    assert Seen(next).groups == told.groups;
  }

  lemma {:induction false} SeenKeys(db: Database)
    requires Sound(db)
    ensures Seen(db).alarms.Keys == db.alarms.Keys
  {
  }

  lemma {:induction false} AddedSeen(alarms: map<string, RealmAlarm>, a: Alarm, id: string)
    requires AllDays(alarms)
    ensures AllDays(alarms[id := Entity(a)])
    ensures AlarmsSeen(alarms[id := Entity(a)]) == AlarmsSeen(alarms)[id := a.(alarmID := id)]
  {
    EntityBack(a, id);
  }

  lemma {:induction false} UpdateSeen(db: Database, a: Alarm, id: string, alarmID: string)
    requires Sound(db) && FreshKeys(db, UpdateGroup(a, id, alarmID)) && id in db.groups
    requires Sound(Step(db, UpdateGroup(a, id, alarmID)))
    ensures Seen(Step(db, UpdateGroup(a, id, alarmID))) == Told(Seen(db), UpdateGroup(a, id, alarmID))
  {
    hide Sound, ListOk, GroupModel, AlarmsSeen, Entity;
    var c := UpdateGroup(a, id, alarmID);
    var next, told := Step(db, c), Told(Seen(db), c);
    EachSound(db);
    AddedSeen(db.alarms, a, alarmID);
    forall g | g in db.groups ensures GroupModel(next, g) == told.groups[g] {
      if g == id {
        GroupSeen(db, g);
        GroupSeen(next, g);
        LookedKeeps(db, g, a, alarmID);
        assert GroupModel(next, g).alarmList == GroupModel(db, g).alarmList + [a.(alarmID := alarmID)];
      } else {
        SameShown(db, next, g);
      }
    }
    assert Seen(next).groups == told.groups;
  }

  lemma {:induction false} LookedKeeps(db: Database, g: string, a: Alarm, alarmID: string)
    requires Sound(db) && g in db.groups && alarmID !in db.alarms
    ensures AllDays(db.alarms) && InAll(AlarmsSeen(db.alarms), db.groups[g].alarmList)
    ensures forall i :: 0 <= i < |db.groups[g].alarmList| ==> db.groups[g].alarmList[i] != alarmID
  {
    GroupSeen(db, g);
  }

  lemma {:induction false} SaveAlarmSeen(db: Database, a: Alarm, alarmID: string)
    requires Sound(db) && FreshKeys(db, SaveAlarm(a, alarmID)) && Sound(Step(db, SaveAlarm(a, alarmID)))
    ensures Seen(Step(db, SaveAlarm(a, alarmID))) == Told(Seen(db), SaveAlarm(a, alarmID))
  {
    hide Sound, ListOk, GroupModel, AlarmsSeen, Entity;
    var c := SaveAlarm(a, alarmID);
    var next, told := Step(db, c), Told(Seen(db), c);
    EachSound(db);
    AddedSeen(db.alarms, a, alarmID);
    forall g | g in db.groups ensures GroupModel(next, g) == told.groups[g] {
      SameShown(db, next, g);
    }
    assert Seen(next).groups == told.groups;
  }

  /** Every call does to the groups and alarms that the fetches return what it says. */
  lemma {:induction false} StepTold(db: Database, c: Call)
    requires Sound(db) && FreshKeys(db, c)
    ensures Sound(Step(db, c)) && Seen(Step(db, c)) == Told(Seen(db), c)
  {
    hide Sound, ListOk, GroupModel, AlarmModel, Delete, Unlisted;
    StepSound(db, c);
    match c
    case SaveGroup(g, id, ids) =>
      SavedGroups(db, g, id, ids);
      EachSound(db);
      SavedAlarms(db.alarms, ids, g.alarmList);
    case RemoveGroup(id) =>
      if id in db.groups {
        RemoveSeen(db, id);
      }
    case UpdateGroup(a, id, alarmID) =>
      if id in db.groups {
        UpdateSeen(db, a, id, alarmID);
      }
    case EnableGroup(id, on) => EnableGroupSeen(db, id, on);
    case SaveAlarm(a, alarmID) => SaveAlarmSeen(db, a, alarmID);
    case EnableAlarm(id, on) =>
      if id in db.alarms {
        EnableAlarmSeen(db, id, on);
      }
    case RemoveAlarm(id) =>
      if id in db.alarms {
        DeleteSeen(db, {id});
      }
  }

  ghost function AllTold(v: View, cs: seq<Call>): View
    requires forall i :: 0 <= i < |cs| && cs[i].SaveGroup? ==> |cs[i].alarmIDs| == |cs[i].group.alarmList|
    decreases |cs|
  {
    if cs == [] then v else AllTold(Told(v, cs[0]), cs[1..])
  }

  lemma {:induction false} RunSized(db: Database, cs: seq<Call>)
    requires RunOk(db, cs)
    ensures forall i :: 0 <= i < |cs| && cs[i].SaveGroup? ==> |cs[i].alarmIDs| == |cs[i].group.alarmList|
    decreases |cs|
  {
    if cs != [] {
      RunSized(Step(db, cs[0]), cs[1..]);
      forall i | 0 <= i < |cs| && cs[i].SaveGroup? ensures |cs[i].alarmIDs| == |cs[i].group.alarmList| {
        if i > 0 {
          assert cs[i] == cs[1..][i - 1];
        }
      }
    }
  }

  /** Over every run of the repositories, what the fetches return is what the calls
      made of what they returned at the start. */
  lemma {:induction false} RunTold(db: Database, cs: seq<Call>)
    requires Sound(db) && RunOk(db, cs)
    ensures Sound(Run(db, cs))
    ensures forall i :: 0 <= i < |cs| && cs[i].SaveGroup? ==> |cs[i].alarmIDs| == |cs[i].group.alarmList|
    ensures Seen(Run(db, cs)) == AllTold(Seen(db), cs)
    decreases |cs|
  {
    RunSized(db, cs);
    if cs != [] {
      StepTold(db, cs[0]);
      RunTold(Step(db, cs[0]), cs[1..]);
    }
  }

  // ---------- the repositories as they run ----------

  /** `RealmAlarm.init`. */
  method NewAlarm(a: Alarm) returns (r: RealmAlarm)
    ensures r == Entity(a)
  {
    var repeatDays: seq<int> := [];
    var i := 0;
    while i < |a.repeatDays|
      invariant i <= |a.repeatDays| && repeatDays == RawValues(a.repeatDays)[..i]
    {
      repeatDays := repeatDays + [RawValue(a.repeatDays[i])];
      i := i + 1;
    }
    r := RealmAlarm(a.groupID, a.groupName, a.time, a.isEnabled, a.sound, a.loopSound, repeatDays);
  }

  class Repository {
    var groups: map<string, RealmGroup>
    var alarms: map<string, RealmAlarm>

    function Db(): Database
      reads this
    {
      Database(groups, alarms)
    }

    method Save(group: Group, newID: string, alarmIDs: seq<string>)
      requires FreshKeys(Db(), SaveGroup(group, newID, alarmIDs))
      modifies this
      ensures Db() == Step(old(Db()), SaveGroup(group, newID, alarmIDs))
    {
      var alarmList: seq<string> := [];
      var i := 0;
      while i < |group.alarmList|
        invariant i <= |group.alarmList| && alarmList == alarmIDs[..i] && groups == old(groups)
        invariant WithAlarms(alarms, alarmIDs[i..], group.alarmList[i..]) == WithAlarms(old(alarms), alarmIDs, group.alarmList)
      {
        var entity := NewAlarm(group.alarmList[i]);
        assert alarmIDs[i..][1..] == alarmIDs[i + 1..] && group.alarmList[i..][1..] == group.alarmList[i + 1..];
        alarmList := alarmList + [alarmIDs[i]];
        alarms := alarms[alarmIDs[i] := entity];
        i := i + 1;
      }
      assert alarmIDs[i..] == [] && alarmList == alarmIDs;
      groups := groups[newID := RealmGroup(group.groupName, group.interval, group.isEnabled, alarmList)];
    }

    /** Deleting a row unlinks it everywhere. */
    method DeleteAlarms(gone: set<string>)
      modifies this
      ensures Db() == Delete(old(Db()), gone)
    {
      groups := map g | g in groups :: groups[g].(alarmList := Without(groups[g].alarmList, gone));
      alarms := alarms - gone;
    }

    method Remove(groupID: string)
      modifies this
      ensures Db() == Step(old(Db()), RemoveGroup(groupID))
    {
      if groupID !in groups {
        return;
      }
      var found := Members(Db(), groupID);
      groups := groups - {groupID};
      DeleteAlarms(found);
    }

    method Update(alarm: Alarm, id: string, alarmID: string)
      requires FreshKeys(Db(), UpdateGroup(alarm, id, alarmID))
      modifies this
      ensures Db() == Step(old(Db()), UpdateGroup(alarm, id, alarmID))
    {
      if id in groups {
        var entity := NewAlarm(alarm);
        alarms := alarms[alarmID := entity];
        groups := groups[id := groups[id].(alarmList := groups[id].alarmList + [alarmID])];
      }
    }

    method Enable(groupID: string, isEnabled: bool)
      modifies this
      ensures Db() == Step(old(Db()), EnableGroup(groupID, isEnabled))
    {
      if groupID in groups {
        groups := groups[groupID := groups[groupID].(isEnabled := isEnabled)];
      }
    }

    method SaveOne(alarm: Alarm, alarmID: string)
      requires FreshKeys(Db(), SaveAlarm(alarm, alarmID))
      modifies this
      ensures Db() == Step(old(Db()), SaveAlarm(alarm, alarmID))
    {
      var entity := NewAlarm(alarm);
      alarms := alarms[alarmID := entity];
    }

    method EnableOne(alarmID: string, isEnabled: bool)
      modifies this
      ensures Db() == Step(old(Db()), EnableAlarm(alarmID, isEnabled))
    {
      if alarmID in alarms {
        alarms := alarms[alarmID := alarms[alarmID].(isEnabled := isEnabled)];
      }
    }

    method RemoveOne(alarmID: string)
      modifies this
      ensures Db() == Step(old(Db()), RemoveAlarm(alarmID))
    {
      if alarmID in alarms {
        DeleteAlarms({alarmID});
      }
    }
  }
}
